/** How a run ends: what is cancelled, what is handed over as still running, and what can happen
    after that. */
module Teardown {
  import opened TaskStates
  import opened Numbers
  import opened Retry
  import opened WorkItems
  import opened Protocol
  import opened Invariants
  import opened Preservation
  import opened Steps

  /** A worker has the future, and has not returned. */
  predicate Unreturned(p: Phase) {
    p.Taken? || p.Executing? || p.Reported?
  }

  /** Whatever ended the run: no future is left in the queue, the item of every withdrawn future and
      every item in backoff is cancelled, and the leak set holds every future whose worker has not
      returned and none that was withdrawn. */
  lemma NothingIsLeftBehind(cfg: Config, s: State)
    requires cfg.Valid() && Reachable(cfg, s) && s.pc.Closed?
    ensures forall f :: 0 <= f < |s.core.futures| ==>
              && s.core.IsFuture(f)
              && s.core.futures[f].phase != Queued
              && (s.core.futures[f].phase == Withdrawn ==> s.core.WorkOf(f).state == Cancelled)
              && (Unreturned(s.core.futures[f].phase) ==> f in s.pc.leak)
              && (f in s.pc.leak ==> s.core.futures[f].phase != Withdrawn)
    ensures forall w :: w in s.core.retryWait ==> w < |s.core.items| && s.core.items[w].state == Cancelled
    ensures forall f: Fid :: f in s.pc.leak <==>
              || f in s.core.abandoned
              || (f in s.core.inFlight && f < |s.core.futures| && s.core.futures[f].phase != Withdrawn)
    ensures forall f :: f in s.pc.leak ==> f < |s.core.futures|
  {
    LeaksAreWhatIsLeft(cfg, s);
    LeaksAreExact(cfg, s);
    forall f | 0 <= f < |s.core.futures|
      ensures && s.core.futures[f].phase != Queued
              && (s.core.futures[f].phase == Withdrawn ==> s.core.WorkOf(f).state == Cancelled)
    {
      ClosedFutures(cfg, s, f);
    }
  }

  lemma LeaksAreWhatIsLeft(cfg: Config, s: State)
    requires cfg.Valid() && Reachable(cfg, s) && s.pc.Closed?
    ensures forall f :: 0 <= f < |s.core.futures| ==>
              && s.core.IsFuture(f)
              && (Unreturned(s.core.futures[f].phase) ==> f in s.pc.leak)
              && (f in s.pc.leak ==> s.core.futures[f].phase != Withdrawn)
    ensures forall w :: w in s.core.retryWait ==> w < |s.core.items| && s.core.items[w].state == Cancelled
    ensures forall f :: f in s.pc.leak ==> f < |s.core.futures|
  {
    ReachableStatesAreSound(cfg, s);
  }

  lemma LeaksAreExact(cfg: Config, s: State)
    requires cfg.Valid() && Reachable(cfg, s) && s.pc.Closed?
    ensures forall f: Fid :: f in s.pc.leak <==>
              || f in s.core.abandoned
              || (f in s.core.inFlight && f < |s.core.futures| && s.core.futures[f].phase != Withdrawn)
  {
    ReachableStatesAreSound(cfg, s);
  }

  lemma ClosedFutures(cfg: Config, s: State, f: Fid)
    requires cfg.Valid() && Reachable(cfg, s) && s.pc.Closed? && f < |s.core.futures|
    ensures s.core.IsFuture(f) && s.core.futures[f].phase != Queued
    ensures s.core.futures[f].phase == Withdrawn ==> s.core.WorkOf(f).state == Cancelled
  {
    ReachableStatesAreSound(cfg, s);
    ClosedFuture(cfg, s.core, f);
  }

  lemma ClosedFuture(cfg: Config, c: Core, f: Fid)
    requires CoreInv(cfg, c) && Drained(c, {}) && f < |c.futures|
    ensures c.futures[f].phase != Queued
    ensures c.futures[f].phase == Withdrawn ==> c.WorkOf(f).state == Cancelled
  {
    if f in c.inFlight {
      FlightRecord(cfg, c, f);
    } else if f in c.abandoned {
      assert StaleOk(c.futures[f].phase, c.WorkOf(f));
    }
  }

  /** A task function call that begins after the run was closed is one whose future a worker had
      already taken; the run itself does nothing any more. */
  lemma {:induction false} OnlyTakenWorkBeginsAfterwards(cfg: Config, s: State, acts: seq<Action>, t: State)
    requires cfg.Valid() && Reachable(cfg, s) && s.pc.Closed? && Path(cfg, s, acts, t)
    ensures t.pc == s.pc
    ensures forall j :: 0 <= j < |acts| ==> ByOthers(acts[j]) && !acts[j].TakeUp?
    ensures forall j :: 0 <= j < |acts| && acts[j].Begin? ==>
              acts[j].f < |s.core.futures| && s.core.futures[acts[j].f].phase == Taken
    ensures t.core.yielded == s.core.yielded
    decreases |acts|
  {
    if acts != [] {
      var u := Do(cfg, s, acts[0]);
      ClosedStep(cfg, s, acts[0]);
      ReachableSnoc(cfg, s, acts[0]);
      OnlyTakenWorkBeginsAfterwards(cfg, u, acts[1..], t);
      forall j | 0 <= j < |acts|
        ensures ByOthers(acts[j]) && !acts[j].TakeUp?
        ensures acts[j].Begin? ==> acts[j].f < |s.core.futures| && s.core.futures[acts[j].f].phase == Taken
      {
        if j > 0 {
          assert acts[j] == acts[1..][j - 1];
        }
      }
    }
  }

  lemma ClosedStep(cfg: Config, s: State, a: Action)
    requires cfg.Valid() && Reachable(cfg, s) && s.pc.Closed? && Can(cfg, s, a)
    ensures ByOthers(a) && !a.TakeUp?
    ensures a.Begin? ==> a.f < |s.core.futures| && s.core.futures[a.f].phase == Taken
    ensures var u := Do(cfg, s, a);
            && u.pc == s.pc && u.core.yielded == s.core.yielded
            && |u.core.futures| == |s.core.futures|
            && forall f :: 0 <= f < |s.core.futures| && u.core.futures[f].phase == Taken ==>
                 s.core.futures[f].phase == Taken
  {
    if a.TakeUp? {
      ClosedFutures(cfg, s, a.f);
    }
    OthersMovePhases(cfg, s, a);
    forall f | 0 <= f < |s.core.futures| && Do(cfg, s, a).core.futures[f].phase == Taken
      ensures s.core.futures[f].phase == Taken
    {
      ClosedFutures(cfg, s, f);
    }
  }

  lemma OthersMovePhases(cfg: Config, s: State, a: Action)
    requires cfg.Valid() && Reachable(cfg, s) && Can(cfg, s, a) && ByOthers(a)
    ensures var c, d := s.core, Do(cfg, s, a).core;
            && Do(cfg, s, a).pc == s.pc && d.yielded == c.yielded && |d.futures| == |c.futures|
            && forall f :: 0 <= f < |c.futures| ==> Moves(c.futures[f].phase, d.futures[f].phase, c.clock)
  {
    ReachableStatesAreSound(cfg, s);
    WorkersStayElsewhere(cfg, s, a);
  }

  // --- choices that can always be made ---

  lemma WakeTimeExists(cfg: Config, c: Core) returns (wake: real)
    ensures WakesAt(cfg, c, wake)
  {
    if Candidates(cfg, c) == {} {
      wake := c.clock + MAX_WAIT_SLICE;
    } else {
      var t := FiniteSetsHaveMinima(Candidates(cfg, c));
      wake := c.clock + Min(Max(0.0, t - c.clock), MAX_WAIT_SLICE);
    }
  }

  lemma SomeDelay(cfg: Config, attempts: nat) returns (d: real)
    requires cfg.Valid()
    ensures cfg.MayDelay(attempts, d)
  {
    d := if cfg.retry.Some? then cfg.retry.value.FullDelay(attempts) else 0.0;
    if cfg.retry.Some? {
      FullDelayIsNonNegative(cfg.retry.value, attempts);
    }
  }

  /** While the coordinator waits, some future it watches is outstanding or some backoff is running;
      and it sleeps without watching any future only while everything undelivered backs off. */
  lemma WaitingIsForSomething(cfg: Config, s: State)
    requires cfg.Valid() && Reachable(cfg, s) && s.pc.Waiting?
    ensures s.core.inFlight != map[] || s.core.abandoned != {} || s.core.retryWait != map[]
    ensures s.core.inFlight == map[] && s.core.abandoned == {} ==>
              exists w :: w in s.core.retryWait && s.pc.wake <= Max(s.pc.from, s.core.retryWait[w])
  {
    ReachableStatesAreSound(cfg, s);
    if s.core.inFlight == map[] && s.core.abandoned == {} {
      assert s.core.retryWait != map[];
      var w :| w in s.core.retryWait;
    }
  }

  /** A wait watches no withdrawn future: such a one never reports done, and would be waited for forever. */
  lemma WaitsCanEnd(cfg: Config, s: State, f: Fid)
    requires cfg.Valid() && Reachable(cfg, s) && s.pc.Waiting?
    requires f in s.core.inFlight || f in s.core.abandoned
    ensures s.core.IsFuture(f) && s.core.futures[f].phase != Withdrawn
  {
    ReachableStatesAreSound(cfg, s);
    WatchedIsNotWithdrawn(cfg, s.core, f);
  }

  lemma WatchedIsNotWithdrawn(cfg: Config, c: Core, f: Fid)
    requires CoreInv(cfg, c) && !c.stopping && (f in c.inFlight || f in c.abandoned)
    ensures c.IsFuture(f) && c.futures[f].phase != Withdrawn
  {
    if f in c.inFlight {
      FlightRecord(cfg, c, f);
    } else {
      assert StaleOk(c.futures[f].phase, c.WorkOf(f));
    }
  }
}

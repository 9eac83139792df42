/** What the workers and the clock do for a run that nothing obstructs, and how it moves the run on. */
module Fairness {
  import opened Numbers
  import opened TaskStates
  import opened Retry
  import opened WorkItems
  import opened Protocol
  import opened Invariants
  import opened Preservation
  import opened Steps
  import opened Safety
  import opened Teardown
  import opened Termination
  import opened Progress
  import opened Effects

  // --- productive steps ---

  /** Whatever the length of the input, the productive steps made so far and what is still to be done stay
      within the bound on whole runs. */
  ghost predicate Budgeted(cfg: Config, s: State, steps: nat) {
    forall n: nat :: HasLength(cfg, n) ==> steps + Measure(cfg, n, s.core) <= n * (7 * cfg.MaxAttempts() + 1) + 1
  }

  lemma StartIsBudgeted(cfg: Config)
    ensures Budgeted(cfg, Init(), 0)
  {
    forall n: nat | HasLength(cfg, n) ensures Measure(cfg, n, Init().core) <= n * (7 * cfg.MaxAttempts() + 1) + 1 {
      InitialMeasure(cfg, n);
    }
  }

  lemma StepIsBudgeted(cfg: Config, s: State, steps: nat, a: Action)
    requires cfg.Valid() && Reachable(cfg, s) && Can(cfg, s, a) && Budgeted(cfg, s, steps)
    ensures Budgeted(cfg, Do(cfg, s, a), steps + if Productive(cfg, s, a) then 1 else 0)
  {
    forall n: nat | HasLength(cfg, n)
      ensures (if Productive(cfg, s, a) then 1 else 0) + Measure(cfg, n, Do(cfg, s, a).core) <= Measure(cfg, n, s.core)
    {
      MeasureShrinks(cfg, n, s, a);
    }
  }

  lemma StepsAreBounded(cfg: Config, n: nat, s: State, steps: nat)
    requires HasLength(cfg, n) && Budgeted(cfg, s, steps)
    ensures steps <= n * (7 * cfg.MaxAttempts() + 1) + 1
  {
  }

  /** What the coordinator waits for is the same. */
  predicate SameHold(c: Core, d: Core) {
    && d.inFlight == c.inFlight && d.retryWait == c.retryWait && d.abandoned == c.abandoned
    && d.exhausted == c.exhausted
  }

  lemma UnproductiveStepsHold(cfg: Config, s: State, a: Action)
    requires Can(cfg, s, a) && !Productive(cfg, s, a)
    ensures SameHold(s.core, Do(cfg, s, a).core)
  {
    match a
    case Enter(wake) => EnteringHolds(cfg, s, wake);
    case ScanOne(f, delay, due) => PassingHolds(cfg, s, f, delay, due);
    case _ => OthersHold(cfg, s, a);
  }

  lemma EnteringHolds(cfg: Config, s: State, wake: real)
    ensures SameHold(s.core, DoEnter(cfg, s, wake).core)
  {
  }

  lemma PassingHolds(cfg: Config, s: State, f: Fid, delay: real, due: real)
    requires Can(cfg, s, ScanOne(f, delay, due)) && !Productive(cfg, s, ScanOne(f, delay, due))
    ensures SameHold(s.core, Do(cfg, s, ScanOne(f, delay, due)).core)
  {
  }

  lemma OthersHold(cfg: Config, s: State, a: Action)
    requires Can(cfg, s, a) && !Productive(cfg, s, a) && !a.Enter? && !a.ScanOne?
    ensures SameHold(s.core, Do(cfg, s, a).core)
  {
  }

  // --- what the others do at one point ---

  /** How many of the others' actions are possible and productive when their turn comes. */
  ghost function SweptSteps(cfg: Config, s: State, acts: seq<Action>): nat {
    if acts == [] then 0
    else
      var t, a := Swept(cfg, s, acts[..|acts| - 1]), acts[|acts| - 1];
      SweptSteps(cfg, s, acts[..|acts| - 1])
      + if ByOthers(a) && Can(cfg, t, a) && Productive(cfg, t, a) then 1 else 0
  }

  lemma {:induction false} SweptStepsSnoc(cfg: Config, s: State, acts: seq<Action>, a: Action)
    ensures var t := Swept(cfg, s, acts);
            SweptSteps(cfg, s, acts + [a]) ==
            SweptSteps(cfg, s, acts) + if ByOthers(a) && Can(cfg, t, a) && Productive(cfg, t, a) then 1 else 0
  {
    assert (acts + [a])[..|acts|] == acts;
  }

  lemma SweptNext(cfg: Config, s: State, acts: seq<Action>, k: nat)
    requires k < |acts|
    ensures var t, a := Swept(cfg, s, acts[..k]), acts[k];
            && Swept(cfg, s, acts[..k + 1]) == (if ByOthers(a) && Can(cfg, t, a) then Do(cfg, t, a) else t)
            && SweptSteps(cfg, s, acts[..k + 1]) ==
               SweptSteps(cfg, s, acts[..k]) + if ByOthers(a) && Can(cfg, t, a) && Productive(cfg, t, a) then 1 else 0
  {
    SweptSnoc(cfg, s, acts[..k], acts[k]);
    SweptStepsSnoc(cfg, s, acts[..k], acts[k]);
    assert acts[..k + 1] == acts[..k] + [acts[k]];
  }

  lemma {:induction false} SweptStepsGrow(cfg: Config, s: State, acts: seq<Action>, k: nat)
    requires k <= |acts|
    ensures SweptSteps(cfg, s, acts[..k]) <= SweptSteps(cfg, s, acts)
  {
    if k < |acts| {
      SweptStepsGrow(cfg, s, acts[..|acts| - 1], k);
      assert acts[..|acts| - 1][..k] == acts[..k];
    } else {
      assert acts[..k] == acts;
    }
  }

  /** Its worker and the wait do for f whatever can be done. */
  predicate Serves(others: seq<Action>, done: set<Fid>, f: Fid) {
    && TakeUp(f) in others && Begin(f) in others && Finish(f, 0.0) in others && Protocol.Settle(f) in others
    && f in done
  }

  ghost predicate Ticks(others: seq<Action>, t: real) {
    exists u :: u >= t && Tick(u) in others
  }

  /** Where nothing productive happened, no future has moved. */
  lemma {:induction false} UnproductiveSweepsMoveNothing(cfg: Config, s: State, acts: seq<Action>)
    requires SweptSteps(cfg, s, acts) == 0
    ensures Swept(cfg, s, acts).core.futures == s.core.futures
    ensures Swept(cfg, s, acts).core.items == s.core.items
    ensures Swept(cfg, s, acts).core.clock >= s.core.clock
  {
    if acts != [] {
      var t, a := Swept(cfg, s, acts[..|acts| - 1]), acts[|acts| - 1];
      UnproductiveSweepsMoveNothing(cfg, s, acts[..|acts| - 1]);
      if ByOthers(a) && Can(cfg, t, a) {
        UnproductiveOthers(cfg, t, a);
      }
    }
  }

  lemma UnproductiveOthers(cfg: Config, s: State, a: Action)
    requires ByOthers(a) && Can(cfg, s, a) && !Productive(cfg, s, a)
    ensures Do(cfg, s, a).core.futures == s.core.futures && Do(cfg, s, a).core.items == s.core.items
    ensures Do(cfg, s, a).core.clock >= s.core.clock
  {
  }

  /** The action that moves f on. */
  function NextOf(p: Phase, f: Fid): Action {
    match p
    case Queued => TakeUp(f)
    case Taken => Begin(f)
    case Executing(_, _) => Finish(f, 0.0)
    case _ => Protocol.Settle(f)
  }

  predicate Unfinished(c: Core, f: Fid) {
    c.IsFuture(f) && !c.futures[f].phase.Done? && c.futures[f].phase != Withdrawn
  }

  lemma NextIsPossible(cfg: Config, s: State, f: Fid)
    requires Unfinished(s.core, f) && BegunInThePast(s.core)
    ensures var a := NextOf(s.core.futures[f].phase, f); ByOthers(a) && Can(cfg, s, a) && Productive(cfg, s, a)
  {
  }

  lemma StillUnfinished(c: Core, d: Core, f: Fid)
    requires Unfinished(c, f) && BegunInThePast(c)
    requires d.futures == c.futures && d.items == c.items && d.clock >= c.clock
    ensures Unfinished(d, f) && BegunInThePast(d)
  {
  }

  lemma PossibleActionsArePerformed(cfg: Config, s: State, acts: seq<Action>, f: Fid)
    requires Unfinished(s.core, f) && BegunInThePast(s.core) && NextOf(s.core.futures[f].phase, f) in acts
    ensures SweptSteps(cfg, s, acts) >= 1
  {
    var j :| 0 <= j < |acts| && acts[j] == NextOf(s.core.futures[f].phase, f);
    SweptStepsGrow(cfg, s, acts, j);
    SweptStepsGrow(cfg, s, acts, j + 1);
    if SweptSteps(cfg, s, acts[..j]) == 0 {
      UnproductiveSweepsMoveNothing(cfg, s, acts[..j]);
      StillUnfinished(s.core, Swept(cfg, s, acts[..j]).core, f);
      NextIsPossible(cfg, Swept(cfg, s, acts[..j]), f);
      SweptNext(cfg, s, acts, j);
    }
  }

  /** A watched future that is served moves on, unless it is done. */
  lemma ServedFuturesMove(cfg: Config, s: State, others: seq<Action>, done: set<Fid>, f: Fid)
    requires cfg.Valid() && Reachable(cfg, s) && s.pc.Waiting? && (f in s.core.inFlight || f in s.core.abandoned)
    requires Serves(others, done, f)
    ensures s.core.IsFuture(f)
    ensures s.core.futures[f].phase.Done? || SweptSteps(cfg, s, others) >= 1
  {
    WaitsCanEnd(cfg, s, f);
    ExecutionsBeganInThePast(cfg, s);
    if !s.core.futures[f].phase.Done? {
      PossibleActionsArePerformed(cfg, s, others, f);
    }
  }

  lemma {:induction false} DoneStaysDone(cfg: Config, s: State, acts: seq<Action>, f: Fid)
    requires s.core.IsFuture(f) && s.core.futures[f].phase.Done?
    ensures var d := Swept(cfg, s, acts).core; f < |d.futures| && d.futures[f].phase.Done?
    ensures |Swept(cfg, s, acts).core.futures| == |s.core.futures|
  {
    if acts != [] {
      var t, a := Swept(cfg, s, acts[..|acts| - 1]), acts[|acts| - 1];
      DoneStaysDone(cfg, s, acts[..|acts| - 1], f);
      if ByOthers(a) && Can(cfg, t, a) {
        OthersLeaveDone(cfg, t, a, f);
      }
    }
  }

  lemma OthersLeaveDone(cfg: Config, s: State, a: Action, f: Fid)
    requires ByOthers(a) && Can(cfg, s, a) && f < |s.core.futures| && s.core.futures[f].phase.Done?
    ensures var d := Do(cfg, s, a).core; |d.futures| == |s.core.futures| && d.futures[f].phase.Done?
  {
  }

  /** Either something productive happens during a wait, or every watched future that is served is done. */
  lemma WaitsMoveOn(cfg: Config, s: State, others: seq<Action>, done: set<Fid>)
    requires cfg.Valid() && Reachable(cfg, s) && s.pc.Waiting?
    ensures var d := Swept(cfg, s, others).core;
            forall f: Fid :: Serves(others, done, f) && (f in s.core.inFlight || f in s.core.abandoned) ==>
              SweptSteps(cfg, s, others) >= 1 || (f < |d.futures| && d.futures[f].phase.Done?)
  {
    forall f: Fid | Serves(others, done, f) && (f in s.core.inFlight || f in s.core.abandoned)
      ensures var d := Swept(cfg, s, others).core;
              SweptSteps(cfg, s, others) >= 1 || (f < |d.futures| && d.futures[f].phase.Done?)
    {
      ServedFuturesMove(cfg, s, others, done, f);
      if s.core.futures[f].phase.Done? {
        DoneStaysDone(cfg, s, others, f);
      }
    }
  }

  lemma {:induction false} TickingPasses(cfg: Config, s: State, acts: seq<Action>, u: real)
    requires Tick(u) in acts
    ensures Swept(cfg, s, acts).core.clock >= u
  {
    var t, a := Swept(cfg, s, acts[..|acts| - 1]), acts[|acts| - 1];
    if a != Tick(u) {
      assert Tick(u) in acts[..|acts| - 1];
      TickingPasses(cfg, s, acts[..|acts| - 1], u);
      if ByOthers(a) && Can(cfg, t, a) {
        OthersKeepTime(cfg, t, a);
      }
    }
  }

  lemma OthersKeepTime(cfg: Config, s: State, a: Action)
    requires ByOthers(a) && Can(cfg, s, a)
    ensures Do(cfg, s, a).core.clock >= s.core.clock
  {
  }

  lemma TicksPass(cfg: Config, s: State, acts: seq<Action>, t: real)
    requires Ticks(acts, t)
    ensures Swept(cfg, s, acts).core.clock >= t
  {
    var u :| u >= t && Tick(u) in acts;
    TickingPasses(cfg, s, acts, u);
  }

  lemma WatchedExists(c: Core) returns (f: Fid)
    requires Watches(c)
    ensures f in c.inFlight || f in c.abandoned
  {
    assert c.inFlight.Keys + c.abandoned != {} by {
      if c.inFlight.Keys == {} {
        assert c.inFlight == map[];
      }
    }
    f := Pick(c.inFlight.Keys + c.abandoned);
  }

  lemma SweepsKeepTime(cfg: Config, s: State, acts: seq<Action>)
    ensures forall t :: Ticks(acts, t) ==> t <= Swept(cfg, s, acts).core.clock
  {
    forall t | Ticks(acts, t) ensures t <= Swept(cfg, s, acts).core.clock {
      TicksPass(cfg, s, acts, t);
    }
  }
}

/** The coordinator's own endless loop comes to its end, if the workers work, the clock runs, and nobody
    interrupts it: total correctness of a run, and of map over it. */
module Completion {
  import opened Numbers
  import opened Retry
  import opened WorkItems
  import opened Protocol
  import opened Safety
  import opened Steps
  import opened Termination
  import opened Progress
  import opened Fairness
  import opened Causes
  import opened Consumers
  import opened Coordinator
  import Invariants
  import LoopEffects
  import opened EndToEnd

  // --- a world that does the enabled work ---

  /** From this moment on, f's worker takes every step it can, and wait() reports f once it is done. */
  ghost predicate ServedFrom(world: nat -> Moment, from: nat, f: Fid) {
    forall m :: from <= m ==> Serves(world(m).others, world(m).done, f)
  }

  ghost predicate TicksFrom(world: nat -> Moment, from: nat, t: real) {
    forall m :: from <= m ==> Ticks(world(m).others, t)
  }

  /** Every future is served and every time is reached, sooner or later; and nobody interrupts or requests
      anything. How many workers there are, how long they take and in which order they finish is open. */
  ghost predicate Fair(world: nat -> Moment) {
    && (forall m :: !world(m).interrupted && Request !in world(m).others)
    && (forall f: Fid :: EventuallyServed(world, f))
    && (forall t: real :: EventuallyReached(world, t))
  }

  ghost predicate EventuallyServed(world: nat -> Moment, f: Fid) {
    exists from :: ServedFrom(world, from, f)
  }

  ghost predicate EventuallyReached(world: nat -> Moment, t: real) {
    exists from :: TicksFrom(world, from, t)
  }

  /** There are such worlds: one in which, at moment m, the first m futures are served and it is m o'clock. */
  lemma SomeWorldIsFair()
    ensures Fair(PunctualMoment)
  {
    var world: nat -> Moment := PunctualMoment;
    forall f: Fid ensures EventuallyServed(world, f) {
      forall m: nat | f + 1 <= m ensures Serves(world(m).others, world(m).done, f) {
        ErrandsServe(m, f);
      }
      assert ServedFrom(world, f + 1, f);
    }
    forall t: real ensures EventuallyReached(world, t) {
      var from: nat := if t <= 0.0 then 0 else t.Floor + 1;
      forall m: nat | from <= m ensures Ticks(world(m).others, t) {
        assert Tick(m as real) in world(m).others && m as real >= t;
      }
      assert TicksFrom(world, from, t);
    }
    forall m: nat ensures !world(m).interrupted && Request !in world(m).others {
      ErrandsRequestNothing(m);
    }
  }

  function Errands(n: nat): seq<Action> {
    if n == 0 then []
    else Errands(n - 1) + [TakeUp(n - 1), Begin(n - 1), Finish(n - 1, 0.0), Protocol.Settle(n - 1)]
  }

  function PunctualMoment(m: nat): Moment {
    Moment(Errands(m) + [Tick(m as real)], UpTo(m), 0.0, false)
  }

  lemma {:induction false} ErrandsServe(n: nat, f: Fid)
    requires f < n
    ensures Serves(Errands(n), UpTo(n), f)
  {
    if f < n - 1 {
      ErrandsServe(n - 1, f);
    }
  }

  lemma {:induction false} ErrandsRequestNothing(n: nat)
    ensures Request !in Errands(n)
  {
    if n > 0 {
      ErrandsRequestNothing(n - 1);
    }
  }

  /** From this moment on, all that the coordinator may be waiting for happens. */
  ghost predicate Imminent(world: nat -> Moment, c: Core, from: nat) {
    && (forall f: Fid :: f in c.inFlight || f in c.abandoned ==> ServedFrom(world, from, f))
    && (forall w :: w in c.retryWait ==> TicksFrom(world, from, c.retryWait[w]))
  }

  lemma {:induction false} AllAreServed(world: nat -> Moment, fs: set<Fid>) returns (from: nat)
    requires Fair(world)
    ensures forall f :: f in fs ==> ServedFrom(world, from, f)
    decreases |fs|
  {
    if fs == {} {
      from := 0;
    } else {
      var f := Pick(fs);
      var rest := AllAreServed(world, fs - {f});
      assert EventuallyServed(world, f);
      var one: nat :| ServedFrom(world, one, f);
      from := if rest < one then one else rest;
      forall g | g in fs ensures ServedFrom(world, from, g) {
        assert ServedFrom(world, if g == f then one else rest, g);
      }
    }
  }

  lemma {:induction false} AllAreReached(world: nat -> Moment, ts: set<real>) returns (from: nat)
    requires Fair(world)
    ensures forall t :: t in ts ==> TicksFrom(world, from, t)
    decreases |ts|
  {
    if ts == {} {
      from := 0;
    } else {
      var t := Pick(ts);
      var rest := AllAreReached(world, ts - {t});
      assert EventuallyReached(world, t);
      var one: nat :| TicksFrom(world, one, t);
      from := if rest < one then one else rest;
      forall u | u in ts ensures TicksFrom(world, from, u) {
        assert TicksFrom(world, if u == t then one else rest, u);
      }
    }
  }

  lemma SomethingIsImminent(world: nat -> Moment, c: Core) returns (from: nat)
    requires Fair(world)
    ensures Imminent(world, c, from)
  {
    var a := AllAreServed(world, c.inFlight.Keys + c.abandoned);
    var b := AllAreReached(world, Dues(c));
    from := if a < b then b else a;
    forall f: Fid | f in c.inFlight || f in c.abandoned ensures ServedFrom(world, from, f) {
      assert f in c.inFlight.Keys + c.abandoned && ServedFrom(world, a, f);
    }
    forall w | w in c.retryWait ensures TicksFrom(world, from, c.retryWait[w]) {
      assert c.retryWait[w] in Dues(c) && TicksFrom(world, b, c.retryWait[w]);
    }
  }

  lemma SameHoldIsImminent(world: nat -> Moment, c: Core, d: Core, from: nat)
    requires Imminent(world, c, from) && SameHold(c, d)
    ensures Imminent(world, d, from)
  {
  }

  // --- the loop ---

  /** A turn that begins when everything waited for is happening moves the run on; any other brings that
      moment nearer. */
  method TurnOn(run: Run, ghost from: nat) returns (over: Option<Exit>, ghost next: nat)
    requires run.Valid() && run.s.pc == Head && Fair(run.world) && Imminent(run.world, run.s.core, from)
    modifies run, run.items
    ensures run.Valid() && run.Grew()
    ensures over.None? ==> run.s.pc == Head && Imminent(run.world, run.s.core, next)
    ensures over.Some? ==> run.s.pc == Cancelling(over.value, run.inFlight.Keys) && over.value != Interrupted
    ensures over.None? && run.steps == old(run.steps) ==> next == from > old(run.moment) && run.moment > old(run.moment)
  {
    ghost var c := run.s.core;
    TheMomentHasCome(run, from);
    over := run.Turn();
    next := from;
    if run.steps == old(run.steps) {
      SameHoldIsImminent(run.world, c, run.s.core, from);
    } else {
      next := SomethingIsImminent(run.world, run.s.core);
    }
  }

  lemma TheMomentHasCome(run: Run, from: nat)
    requires run.Valid() && Imminent(run.world, run.s.core, from)
    ensures from <= run.moment ==> run.Pressed(run.moment)
    ensures from <= run.moment && run.retryWait != map[] ==>
              exists w :: w in run.retryWait && Ticks(run.world(run.moment).others, run.retryWait[w])
  {
    if from <= run.moment && run.retryWait != map[] {
      assert run.retryWait.Keys != {};
      var w := Pick(run.retryWait.Keys);
      assert TicksFrom(run.world, from, run.retryWait[w]);
    }
  }

  method EndUnasked(run: Run, why: Exit) returns (leak: set<Fid>)
    requires run.Valid() && run.s.pc == Cancelling(why, run.inFlight.Keys) && Fair(run.world)
    modifies run, run.items
    ensures run.Valid() && run.s.pc == Closed(why, leak) && run.Grew()
    ensures why != CancelRaised
  {
    leak := run.Finalize(why);
    EndsAreJustified(run.cfg, run.s);
  }

  /** The loop of a run over a finite input, without a bound on its turns. In a fair world it ends, and not
      because anybody asked it to; `turns` is how many turns it took. */
  method RunToEnd(run: Run, ghost n: nat) returns (why: Exit, leak: set<Fid>, turns: nat)
    requires run.Valid() && run.s.pc == Head && HasLength(run.cfg, n) && Fair(run.world)
    modifies run, run.items
    ensures run.Valid() && run.s.pc == Closed(why, leak)
    ensures why != Interrupted && why != CancelRaised
  {
    turns := 0;
    ghost var bound := n * (7 * run.cfg.MaxAttempts() + 1) + 1;
    ghost var from: nat := SomethingIsImminent(run.world, run.s.core);
    var over: Option<Exit> := None;
    while over.None?
      invariant run.Valid() && run.Grew()
      invariant over.None? ==> run.s.pc == Head && Imminent(run.world, run.s.core, from)
      invariant over.Some? ==> run.s.pc == Cancelling(over.value, run.inFlight.Keys) && over.value != Interrupted
      decreases over.None?, bound - run.steps, if from < run.moment then 0 else from - run.moment
    {
      StepsAreBounded(run.cfg, n, run.s, run.steps);
      over, from := TurnOn(run, from);
      StepsAreBounded(run.cfg, n, run.s, run.steps);
      turns := turns + 1;
    }
    why := over.value;
    leak := EndUnasked(run, why);
  }

  // --- what that means for the readers ---

  /** The whole run, to its end: what Execute states of a run that ends, and that it ends. Over an input that
      stops, without an overall timeout and with a reader that never closes, it returns. */
  method ExecuteToEnd(run: Run, ghost n: nat) returns (why: Exit, leak: set<Fid>, turns: nat)
    requires run.Valid() && run.s == Init() && HasLength(run.cfg, n) && Fair(run.world)
    modifies run, run.items
    ensures run.Valid() && run.s.pc == Closed(why, leak)
    ensures why != Interrupted && why != CancelRaised
    ensures Unhurried(run.cfg, n) && (forall ws :: !run.reader(ws)) ==>
              why == Exit.Returned && run.nextIndex == n && |run.yielded| == n
    ensures forall k :: 0 <= k < |run.yielded| ==>
              run.yielded[k] < |run.items| && Agrees(run.cfg, run.s.core.attempts, run.items[run.yielded[k]].View())
  {
    why, leak, turns := RunToEnd(run, n);
    AllCompletionsAgree(run.cfg, run.s);
    if Unhurried(run.cfg, n) {
      UnhurriedRunsReturn(run.cfg, n, run.reader, run.s);
    }
  }

  /** The input stops after n items, and there is no overall timeout; zero is none. */
  ghost predicate Unhurried(cfg: Config, n: nat) {
    HasLength(cfg, n) && cfg.input(n) == Stop && (cfg.overallTimeout.Some? ==> cfg.overallTimeout.value == 0.0)
  }

  lemma UnhurriedRunsReturn(cfg: Config, n: nat, reader: seq<Item> -> bool, s: State)
    requires cfg.Valid() && Reachable(cfg, s) && s.pc.Closed? && Unhurried(cfg, n) && LoopEffects.Heeded(reader, s)
    requires s.pc.why != Interrupted && s.pc.why != CancelRaised
    ensures s.pc.why == Exit.Returned || (s.pc.why == ClosedByConsumer && reader(Completions(s.core)))
    ensures s.pc.why == Exit.Returned ==> s.core.nextIndex == n && |s.core.yielded| == n
  {
    EndsAreJustified(cfg, s);
    InputIsPulledInOrder(cfg, n, s);
    if s.pc.why == Exit.Returned {
      ReturningMeansEverythingWasDelivered(cfg, s);
    }
  }

  /** Total correctness of map: over an input of n items, for a total function and without timeouts, in any
      fair world, it comes to an end and gives [fn(x) for x in items]. */
  method MapToEnd(run: Run, ghost n: nat, ghost g: Value -> Value) returns (r: Result<seq<Value>>)
    requires run.Valid() && run.s == Init() && ReadBy(run, RaisingReader)
    requires HasLength(run.cfg, n) && Fair(run.world)
    modifies run, run.items
    ensures run.Valid() && run.s.pc.Closed? && MapOutcome(run.cfg, run.s, r)
    ensures Unhurried(run.cfg, n) && Applies(run.cfg, g) ==> r == Ok(Comprehension(run.cfg, g, n))
  {
    var why, leak, turns := RunToEnd(run, n);
    if Unhurried(run.cfg, n) && Applies(run.cfg, g) {
      ApplyingReturns(run.cfg, n, run.reader, run.s, g);
    }
    r := MapStream(run, why, g);
  }

  /** With such a function nothing makes map leave the run. */
  lemma ApplyingReturns(cfg: Config, n: nat, reader: seq<Item> -> bool, s: State, g: Value -> Value)
    requires cfg.Valid() && Reachable(cfg, s) && s.pc.Closed? && Unhurried(cfg, n) && LoopEffects.Heeded(reader, s)
    requires forall ws :: reader(ws) == RaisingReader(ws)
    requires s.pc.why != Interrupted && s.pc.why != CancelRaised && Applies(cfg, g)
    ensures s.pc.why == Exit.Returned && s.core.nextIndex == n
  {
    UnhurriedRunsReturn(cfg, n, reader, s);
    ApplyingSucceeds(cfg, s, g);
    SuccessesAreReadOn(Completions(s.core));
  }

  lemma SuccessesAreReadOn(ws: seq<Item>)
    requires AllSucceed(ws)
    ensures !RaisingReader(ws)
  {
    assert ws != [] ==> Succeeds(ws[|ws| - 1]);
  }

  /** No call is cancelled or raises what is no Exception. */
  ghost predicate Collectable(cfg: Config) {
    forall i: nat, a: nat :: cfg.call(i, a).Raised? ==>
      ExceptionClass in cfg.call(i, a).error.classes && CancelledClass !in cfg.call(i, a).error.classes
  }

  lemma {:induction false} LoopsEndInCalls(cfg: Config, i: nat, overran: set<nat>, a: nat) returns (last: nat)
    ensures RetryLoop(cfg, i, overran, a).1 in {Overran, Ended(cfg.call(i, last))}
    decreases cfg.MaxAttempts() - a
  {
    last := a;
    var v := if a in overran then Overran else Ended(cfg.call(i, a));
    if Invariants.Retryable(cfg, v, a) {
      last := LoopsEndInCalls(cfg, i, overran, a + 1);
    }
  }

  /** Total correctness of the collecting map: in any fair world it comes to an end, and if all failures may be
      collected it gives the batch of the sequential program over the whole input. */
  method CollectToEnd(run: Run, ghost n: nat) returns (r: Result<BatchResult>)
    requires run.Valid() && run.s == Init() && ReadBy(run, CollectingReader)
    requires HasLength(run.cfg, n) && Fair(run.world)
    modifies run, run.items
    ensures run.Valid() && run.s.pc.Closed? && CollectOutcome(run.cfg, run.s, r)
    ensures Unhurried(run.cfg, n) && Collectable(run.cfg) ==>
              n <= |run.s.core.attempts| && r == Ok(SequentialBatch(run.cfg, run.s.core.attempts, n))
  {
    var why, leak, turns := RunToEnd(run, n);
    r := CollectStream(run, why);
    if Unhurried(run.cfg, n) && Collectable(run.cfg) {
      CollectableRunsReturn(run.cfg, n, run.reader, run.s, r);
    }
  }

  lemma CollectableRunsReturn(cfg: Config, n: nat, reader: seq<Item> -> bool, s: State, r: Result<BatchResult>)
    requires cfg.Valid() && Reachable(cfg, s) && s.pc.Closed? && Unhurried(cfg, n) && LoopEffects.Heeded(reader, s)
    requires s.pc.why != Interrupted && s.pc.why != CancelRaised && Collectable(cfg) && CollectOutcome(cfg, s, r)
    ensures s.pc.why == Exit.Returned && s.core.nextIndex == n
  {
    UnhurriedRunsReturn(cfg, n, reader, s);
    if s.pc.why == ClosedByConsumer {
      var hs, i := s.core.attempts, Stream(s.core)[|s.core.yielded| - 1];
      var last := LoopsEndInCalls(cfg, i, OverranIn(hs[i]), 1);
    }
  }
}

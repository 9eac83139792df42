/** A finite input is worked off in a bounded number of productive steps, whatever the workers, the
    clock and the consumer do. */
module Termination {
  import opened Numbers
  import opened TaskStates
  import opened Retry
  import opened WorkItems
  import opened Protocol
  import opened Invariants
  import opened Preservation
  import opened Steps
  import opened Accounts

  /** The steps one execution can still go through before its index leaves the in-flight map, with
      those of its abandoned future if it is timed out. */
  function Stage(p: Phase): nat {
    match p
    case Queued => 7
    case Taken => 6
    case Executing(_, _) => 5
    case Reported(_) => 3
    case Done(_) => 2
    case Withdrawn => 0
  }

  /** The steps an abandoned future can still go through. */
  function StaleStage(p: Phase): nat {
    match p
    case Executing(_, _) => 3
    case Reported(_) => 2
    case Done(_) => 1
    case _ => 0
  }

  function WeightAt(cfg: Config, c: Core, i: nat): nat
    requires i < |c.slots|
  {
    match c.slots[i]
    case InFlight(_) => 7 * Minus(cfg.MaxAttempts(), SlotAttempts(c, i)) + Stage(SlotPhase(c, i))
    case Backoff(_) => 7 * Minus(cfg.MaxAttempts(), SlotAttempts(c, i)) + 1
    case Delivered(_) => 0
  }

  function StaleAt(c: Core, f: Fid): nat
    requires f < |c.futures|
  {
    if f in c.abandoned then StaleStage(c.futures[f].phase) else 0
  }

  function Weights(cfg: Config, c: Core): (r: seq<nat>)
    ensures |r| == |c.slots|
  {
    seq(|c.slots|, i requires 0 <= i < |c.slots| => WeightAt(cfg, c, i))
  }

  function Stales(c: Core): (r: seq<nat>)
    ensures |r| == |c.futures|
  {
    seq(|c.futures|, f requires 0 <= f < |c.futures| => StaleAt(c, f))
  }

  /** The weight of an index that has not been pulled. */
  function Fresh(cfg: Config): nat {
    7 * cfg.MaxAttempts() + 1
  }

  /** Nothing more will be pulled. */
  predicate NoMoreInput(c: Core) {
    c.exhausted || c.stopping
  }

  /** What a run over n inputs still has to do. */
  function Measure(cfg: Config, n: nat, c: Core): nat {
    Fresh(cfg) * Minus(n, c.nextIndex) + (if NoMoreInput(c) then 0 else 1)
    + Sum(Weights(cfg, c)) + Sum(Stales(c))
  }

  /** The input has exactly n items; then it stops or raises. */
  ghost predicate HasLength(cfg: Config, n: nat) {
    (forall i :: 0 <= i < n ==> cfg.input(i).Next?) && !cfg.input(n).Next?
  }

  /** A step that moves the work on: a pull, a worker's step, the collection of a future, a
      resubmission, or a scan that times an execution out. */
  predicate Productive(cfg: Config, s: State, a: Action) {
    match a
    case TakeUp(_) => true
    case Begin(_) => true
    case Finish(_, _) => true
    case Settle(_) => true
    case ResubmitOne(_) => true
    case PullOne => true
    case CollectOne(_, _, _) => true
    case ScanOne(f, _, _) =>
      && s.pc.Scanning? && cfg.taskTimeout.Some?
      && f in s.core.inFlight && s.core.inFlight[f] < |s.core.items|
      && Expired(s.core.items[s.core.inFlight[f]], s.pc.now, cfg.taskTimeout.value)
    case _ => false
  }

  ghost function ProductiveSteps(cfg: Config, s: State, acts: seq<Action>): nat
    decreases |acts|
  {
    if acts == [] || !Can(cfg, s, acts[0]) then 0
    else (if Productive(cfg, s, acts[0]) then 1 else 0)
         + ProductiveSteps(cfg, Do(cfg, s, acts[0]), acts[1..])
  }

  // --- sums ---

  lemma SameWeights(cfg: Config, c: Core, d: Core)
    requires SameSlots(c, d)
    ensures Weights(cfg, d) == Weights(cfg, c)
  {
    forall i | 0 <= i < |c.slots| ensures WeightAt(cfg, d, i) == WeightAt(cfg, c, i) {
      assert SameSlot(c, d, i);
    }
  }

  lemma OneWeight(cfg: Config, c: Core, d: Core, i: nat)
    requires OnlySlot(c, d, i)
    ensures Sum(Weights(cfg, d)) == Sum(Weights(cfg, c)) - WeightAt(cfg, c, i) + WeightAt(cfg, d, i)
  {
    forall j | 0 <= j < |c.slots| && j != i ensures WeightAt(cfg, d, j) == WeightAt(cfg, c, j) {
      assert SameSlot(c, d, j);
    }
    assert Weights(cfg, d) == Weights(cfg, c)[i := WeightAt(cfg, d, i)];
    SumUpdate(Weights(cfg, c), i, WeightAt(cfg, d, i));
  }

  lemma OneStale(c: Core, d: Core, f: Fid)
    requires f < |c.futures| == |d.futures|
    requires forall g :: 0 <= g < |c.futures| && g != f ==> StaleAt(d, g) == StaleAt(c, g)
    ensures Sum(Stales(d)) == Sum(Stales(c)) - StaleAt(c, f) + StaleAt(d, f)
  {
    assert Stales(d) == Stales(c)[f := StaleAt(d, f)];
    SumUpdate(Stales(c), f, StaleAt(d, f));
  }

  lemma SameStales(c: Core, d: Core)
    requires |d.futures| == |c.futures|
    requires forall f :: 0 <= f < |c.futures| ==> StaleAt(d, f) == StaleAt(c, f)
    ensures Stales(d) == Stales(c)
  {
  }

  // --- workers ---

  /** One future moved one phase ahead, and nothing else that is counted changed. */
  lemma WorkerStepDecreases(cfg: Config, n: nat, c: Core, d: Core, f: Fid)
    requires CoreInv(cfg, c) && Elsewhere(c, d) && f < |c.futures|
    requires c.futures[f].phase != d.futures[f].phase
    requires forall g :: 0 <= g < |c.futures| && g != f ==> d.futures[g] == c.futures[g]
    requires forall w :: 0 <= w < |c.items| ==> d.items[w].attempts == c.items[w].attempts
    ensures Measure(cfg, n, d) < Measure(cfg, n, c)
  {
    assert Moves(c.futures[f].phase, d.futures[f].phase, c.clock);
    if f in c.inFlight {
      FlightStepDecreases(cfg, n, c, d, f);
    } else {
      StaleStepDecreases(cfg, n, c, d, f);
    }
  }

  lemma FlightStepDecreases(cfg: Config, n: nat, c: Core, d: Core, f: Fid)
    requires CoreInv(cfg, c) && Elsewhere(c, d) && f in c.inFlight
    requires c.futures[f].phase != d.futures[f].phase && Moves(c.futures[f].phase, d.futures[f].phase, c.clock)
    requires forall g :: 0 <= g < |c.futures| && g != f ==> d.futures[g] == c.futures[g]
    requires forall w :: 0 <= w < |c.items| ==> d.items[w].attempts == c.items[w].attempts
    ensures Measure(cfg, n, d) < Measure(cfg, n, c)
  {
    PhaseStepSlots(cfg, c, d, f);
    OneWeight(cfg, c, d, c.items[c.inFlight[f]].index);
    SameStales(c, d);
  }

  lemma StaleStepDecreases(cfg: Config, n: nat, c: Core, d: Core, f: Fid)
    requires CoreInv(cfg, c) && Elsewhere(c, d) && f < |c.futures| && f !in c.inFlight
    requires c.futures[f].phase != d.futures[f].phase && Moves(c.futures[f].phase, d.futures[f].phase, c.clock)
    requires forall g :: 0 <= g < |c.futures| && g != f ==> d.futures[g] == c.futures[g]
    requires forall w :: 0 <= w < |c.items| ==> d.items[w].attempts == c.items[w].attempts
    ensures Measure(cfg, n, d) < Measure(cfg, n, c)
  {
    assert f in c.abandoned;
    assert StaleOk(c.futures[f].phase, c.WorkOf(f));
    QuietStepSlots(cfg, c, d);
    SameWeights(cfg, c, d);
    OneStale(c, d, f);
  }

  lemma WorkersDecrease(cfg: Config, n: nat, s: State, a: Action)
    requires Inv(cfg, s) && Can(cfg, s, a) && (a.TakeUp? || a.Begin? || a.Finish? || a.Settle?)
    ensures Measure(cfg, n, Do(cfg, s, a).core) < Measure(cfg, n, s.core)
  {
    WorkersStayElsewhere(cfg, s, a);
    WorkersMoveOneFuture(cfg, s, a);
    WorkersKeepCounts(cfg, s, a);
    WorkerStepDecreases(cfg, n, s.core, Do(cfg, s, a).core, a.f);
  }

  lemma EnvironmentIsNeutral(cfg: Config, n: nat, s: State, a: Action)
    requires Can(cfg, s, a) && (a.Tick? || a.Request?)
    ensures Measure(cfg, n, Do(cfg, s, a).core) == Measure(cfg, n, s.core)
  {
    var c, d := s.core, Do(cfg, s, a).core;
    forall i | 0 <= i < |c.slots| ensures SameSlot(c, d, i) {
    }
    SameWeights(cfg, c, d);
    SameStales(c, d);
  }

  // --- the coordinator ---

  /** A change confined to one index and to one future's abandonment. */
  lemma LocalStepDecreases(cfg: Config, n: nat, c: Core, d: Core, i: nat, f: Fid)
    requires OnlySlot(c, d, i) && d.futures == c.futures && f < |c.futures|
    requires d.nextIndex == c.nextIndex && d.exhausted == c.exhausted && d.stopping == c.stopping
    requires forall g :: g != f ==> (g in d.abandoned <==> g in c.abandoned)
    requires WeightAt(cfg, d, i) + StaleAt(d, f) < WeightAt(cfg, c, i) + StaleAt(c, f)
    ensures Measure(cfg, n, d) < Measure(cfg, n, c)
  {
    OneWeight(cfg, c, d, i);
    OneStale(c, d, f);
  }

  lemma ResubmitDecreases(cfg: Config, n: nat, c: Core, w: Wid)
    requires cfg.Valid() && CoreInv(cfg, c) && w in c.retryWait
    ensures Measure(cfg, n, c.Resubmit(w)) < Measure(cfg, n, c)
  {
    var i := c.items[w].index;
    ResubmitSlots(cfg, c, w);
    CountsAreWithinLimit(cfg, c, i);
    OneWeight(cfg, c, c.Resubmit(w), i);
    SubmissionIsNotStale(c, c.Resubmit(w), Future(w, Queued));
  }

  lemma SubmissionIsNotStale(c: Core, d: Core, fut: Future)
    requires Shape(c) && d.futures == c.futures + [fut] && d.abandoned == c.abandoned
    ensures Sum(Stales(d)) == Sum(Stales(c))
  {
    assert Stales(d) == Stales(c) + [0];
    SumSnoc(Stales(c), 0);
  }

  lemma PullDecreases(cfg: Config, n: nat, c: Core, arg: Value)
    requires cfg.Valid() && CoreInv(cfg, c) && c.nextIndex < n
    ensures Measure(cfg, n, c.PullItem(arg)) < Measure(cfg, n, c)
  {
    var d, k, m := c.PullItem(arg), c.nextIndex, cfg.MaxAttempts();
    PullSlots(cfg, c, arg);
    forall j | 0 <= j < k ensures Weights(cfg, d)[j] == Weights(cfg, c)[j] {
      assert SameSlot(c, d, j);
    }
    assert Weights(cfg, d) == Weights(cfg, c) + [7 * m];
    SumSnoc(Weights(cfg, c), 7 * m);
    SubmissionIsNotStale(c, d, Future(|c.items|, Queued));
    OneFewerFresh(cfg, n, k);
  }

  lemma OneFewerFresh(cfg: Config, n: nat, k: nat)
    requires k < n
    ensures Fresh(cfg) * Minus(n, k) == Fresh(cfg) * Minus(n, k + 1) + Fresh(cfg)
  {
    var x, y := Fresh(cfg), Minus(n, k + 1);
    assert Minus(n, k) == y + 1;
    assert x * (y + 1) == x * y + x;
  }

  lemma CollectDecreases(cfg: Config, n: nat, s: State, f: Fid, delay: real, due: real)
    requires Inv(cfg, s) && Can(cfg, s, CollectOne(f, delay, due))
    ensures Measure(cfg, n, Do(cfg, s, CollectOne(f, delay, due)).core) < Measure(cfg, n, s.core)
  {
    var c := s.core;
    CollectStep(cfg, s, f, delay, due);
    if f in c.abandoned {
      DropDecreases(cfg, n, c, f);
    } else if c.items[c.inFlight[f]].state == RetryWait {
      FlightRecord(cfg, c, f);
      ParkShelves(c, f, delay, due);
      ShelveDecreases(cfg, n, c, f, due, DelayedHistory(c.attempts[c.items[c.inFlight[f]].index], delay));
    } else {
      HandOverDecreases(cfg, n, c, f);
    }
  }

  lemma DropDecreases(cfg: Config, n: nat, c: Core, f: Fid)
    requires CoreInv(cfg, c) && f in c.abandoned && c.futures[f].phase.Done?
    ensures Measure(cfg, n, c.DropAbandoned(f)) < Measure(cfg, n, c)
  {
    QuietStepSlots(cfg, c, c.DropAbandoned(f));
    SameWeights(cfg, c, c.DropAbandoned(f));
    OneStale(c, c.DropAbandoned(f), f);
  }

  lemma ShelveDecreases(cfg: Config, n: nat, c: Core, f: Fid, due: real, h: seq<Attempt>)
    requires CoreInv(cfg, c) && f in c.inFlight && c.futures[f].phase.Done?
    ensures Measure(cfg, n, Shelved(c, f, c.inFlight[f], due, h)) < Measure(cfg, n, c)
  {
    var i := c.items[c.inFlight[f]].index;
    ShelveSlots(cfg, c, f, due, h);
    LocalStepDecreases(cfg, n, c, Shelved(c, f, c.inFlight[f], due, h), i, f);
  }

  lemma HandOverDecreases(cfg: Config, n: nat, c: Core, f: Fid)
    requires CoreInv(cfg, c) && f in c.inFlight && c.futures[f].phase.Done?
    ensures Measure(cfg, n, HandedOver(c, f)) < Measure(cfg, n, c)
  {
    HandOverSlots(cfg, c, f);
    LocalStepDecreases(cfg, n, c, HandedOver(c, f), c.items[c.inFlight[f]].index, f);
  }

  /** A timeout trades what is left of an execution for its abandoned future and, if the timeout is
      retried, a backoff. */
  lemma ScanDecreases(cfg: Config, n: nat, s: State, f: Fid, delay: real, due: real)
    requires Inv(cfg, s) && Can(cfg, s, ScanOne(f, delay, due)) && Productive(cfg, s, ScanOne(f, delay, due))
    ensures Measure(cfg, n, Do(cfg, s, ScanOne(f, delay, due)).core) < Measure(cfg, n, s.core)
  {
    var c, now, tt := s.core, s.pc.now, cfg.taskTimeout.value;
    var it := c.items[c.inFlight[f]];
    ScanStep(cfg, s, f, delay, due);
    ExpiredIsExecuting(cfg, c, f, now, tt);
    if cfg.RetriesTimeout(it.attempts) {
      ScanParkMoves(cfg, c, f, now, tt, delay, due);
      CloneDecreases(cfg, n, c, f, now, due, OverranHistory(c.attempts[it.index], now, delay));
    } else {
      ScanDeliverMoves(cfg, c, f, now, tt);
      GiveUpDecreases(cfg, n, c, f, now, OverranHistory(c.attempts[it.index], now, 0.0));
    }
  }

  lemma CloneDecreases(cfg: Config, n: nat, c: Core, f: Fid, now: real, due: real, h: seq<Attempt>)
    requires CoreInv(cfg, c) && f in c.inFlight && c.futures[f].phase.Executing?
    requires c.items[c.inFlight[f]].startedAt.Some?
    ensures Measure(cfg, n, Cloned(c, f, now, due, h)) < Measure(cfg, n, c)
  {
    CloneSlots(cfg, c, f, now, due, h);
    LocalStepDecreases(cfg, n, c, Cloned(c, f, now, due, h), c.items[c.inFlight[f]].index, f);
  }

  lemma GiveUpDecreases(cfg: Config, n: nat, c: Core, f: Fid, now: real, h: seq<Attempt>)
    requires CoreInv(cfg, c) && f in c.inFlight && c.futures[f].phase.Executing?
    requires c.items[c.inFlight[f]].startedAt.Some?
    ensures Measure(cfg, n, GivenUp(c, f, now, h)) < Measure(cfg, n, c)
  {
    GiveUpSlots(cfg, c, f, now, h);
    LocalStepDecreases(cfg, n, c, GivenUp(c, f, now, h), c.items[c.inFlight[f]].index, f);
  }

  lemma CancelDoesNotIncrease(cfg: Config, n: nat, c: Core, f: Fid)
    requires CoreInv(cfg, c) && f in c.inFlight
    ensures Measure(cfg, n, c.CancelFuture(f)) <= Measure(cfg, n, c)
  {
    CancelSlots(cfg, c, f);
    OneWeight(cfg, c, c.CancelFuture(f), c.items[c.inFlight[f]].index);
    SameStales(c, c.CancelFuture(f));
  }

  /** Everything counted is the same, except that the input may have ended. */
  ghost predicate SameCounts(c: Core, d: Core) {
    && d.inFlight == c.inFlight && d.retryWait == c.retryWait && d.abandoned == c.abandoned
    && d.slots == c.slots && d.futures == c.futures && d.nextIndex == c.nextIndex
    && (NoMoreInput(c) ==> NoMoreInput(d))
    && |d.items| == |c.items|
    && forall w :: 0 <= w < |c.items| ==> d.items[w].attempts == c.items[w].attempts
  }

  lemma SameCountsSameMeasure(cfg: Config, n: nat, c: Core, d: Core)
    requires CoreInv(cfg, c) && SameCounts(c, d)
    ensures Measure(cfg, n, d) <= Measure(cfg, n, c)
    ensures NoMoreInput(d) && !NoMoreInput(c) ==> Measure(cfg, n, d) < Measure(cfg, n, c)
  {
    QuietStepSlots(cfg, c, d);
    SameWeights(cfg, c, d);
    SameStales(c, d);
  }

  predicate Idle(cfg: Config, s: State, a: Action) {
    || a.Enter? || a.Wake? || a.Interrupt? || a.Resume? || a.CloseHere? || a.AskOne? || a.DropOne?
    || (a.ScanOne? && !Productive(cfg, s, a))
  }

  lemma IdleStepsKeepCounts(cfg: Config, s: State, a: Action)
    requires Inv(cfg, s) && Can(cfg, s, a) && Idle(cfg, s, a)
    ensures SameCounts(s.core, Do(cfg, s, a).core)
  {
    if a.ScanOne? {
      IdleScanKeepsCounts(cfg, s, a);
    } else if a.Enter? {
      EnteringKeepsCounts(cfg, s, a.wake);
    } else if a.AskOne? || a.DropOne? {
      StoppingKeepsCounts(cfg, s, a);
    }
  }

  lemma StoppingKeepsCounts(cfg: Config, s: State, a: Action)
    requires Can(cfg, s, a) && (a.AskOne? || a.DropOne?)
    ensures SameCounts(s.core, Do(cfg, s, a).core)
  {
  }

  lemma EnteringKeepsCounts(cfg: Config, s: State, wake: real)
    ensures SameCounts(s.core, DoEnter(cfg, s, wake).core)
  {
  }

  lemma IdleScanKeepsCounts(cfg: Config, s: State, a: Action)
    requires Inv(cfg, s) && Can(cfg, s, a) && a.ScanOne? && !Productive(cfg, s, a)
    ensures SameCounts(s.core, Do(cfg, s, a).core)
  {
    ScanStep(cfg, s, a.f, a.delay, a.due);
  }

  /** Every productive step decreases the measure, and no other step increases it. */
  lemma StepDecreases(cfg: Config, n: nat, s: State, a: Action)
    requires cfg.Valid() && HasLength(cfg, n) && Inv(cfg, s) && Can(cfg, s, a)
    ensures Measure(cfg, n, Do(cfg, s, a).core) <= Measure(cfg, n, s.core)
    ensures Productive(cfg, s, a) ==> Measure(cfg, n, Do(cfg, s, a).core) < Measure(cfg, n, s.core)
  {
    if a.Tick? || a.Request? {
      EnvironmentIsNeutral(cfg, n, s, a);
    } else if ByOthers(a) {
      WorkersDecrease(cfg, n, s, a);
    } else if a.CollectOne? {
      CollectDecreases(cfg, n, s, a.f, a.delay, a.due);
    } else if a.ScanOne? && Productive(cfg, s, a) {
      ScanDecreases(cfg, n, s, a.f, a.delay, a.due);
    } else if a.ResubmitOne? {
      ResubmitDecreases(cfg, n, s.core, a.w);
    } else if a.CancelOne? {
      CancelDoesNotIncrease(cfg, n, s.core, a.f);
    } else if a.PullOne? {
      PullStepDecreases(cfg, n, s);
    } else {
      IdleStepsKeepCounts(cfg, s, a);
      SameCountsSameMeasure(cfg, n, s.core, Do(cfg, s, a).core);
    }
  }

  lemma PullStepDecreases(cfg: Config, n: nat, s: State)
    requires cfg.Valid() && HasLength(cfg, n) && Inv(cfg, s) && s.pc.Pulling? && !s.core.exhausted
    ensures Measure(cfg, n, DoPull(cfg, s).core) < Measure(cfg, n, s.core)
  {
    PulledIsBelow(cfg, n, s.core);
    if s.core.nextIndex < n {
      PullDecreases(cfg, n, s.core, cfg.input(s.core.nextIndex).arg);
    } else {
      SameCountsSameMeasure(cfg, n, s.core, DoPull(cfg, s).core);
    }
  }

  lemma PulledIsBelow(cfg: Config, n: nat, c: Core)
    requires HasLength(cfg, n) && Sourced(cfg, c)
    ensures c.nextIndex <= n
  {
    assert c.nextIndex <= n || cfg.input(n).Next?;
  }

  lemma {:induction false} ProductiveStepsAreCovered(cfg: Config, n: nat, s: State, acts: seq<Action>, t: State)
    requires cfg.Valid() && HasLength(cfg, n) && Inv(cfg, s) && Path(cfg, s, acts, t)
    ensures ProductiveSteps(cfg, s, acts) + Measure(cfg, n, t.core) <= Measure(cfg, n, s.core)
    decreases |acts|
  {
    if acts != [] {
      StepKeepsInv(cfg, s, acts[0]);
      StepDecreases(cfg, n, s, acts[0]);
      ProductiveStepsAreCovered(cfg, n, Do(cfg, s, acts[0]), acts[1..], t);
    }
  }

  /** Over n inputs with at most M attempts each, no run makes more than n * (7M + 1) + 1 productive
      steps, clones and abandoned executions included. */
  lemma {:induction false} RunsAreBounded(cfg: Config, n: nat, acts: seq<Action>, t: State)
    requires cfg.Valid() && HasLength(cfg, n) && Path(cfg, Init(), acts, t)
    ensures ProductiveSteps(cfg, Init(), acts) <= n * (7 * cfg.MaxAttempts() + 1) + 1
  {
    ProductiveStepsAreCovered(cfg, n, Init(), acts, t);
    InitialMeasure(cfg, n);
  }

  lemma InitialMeasure(cfg: Config, n: nat)
    ensures Measure(cfg, n, Init().core) == n * (7 * cfg.MaxAttempts() + 1) + 1
  {
    var c, x := Init().core, Fresh(cfg);
    assert Weights(cfg, c) == [] && Stales(c) == [];
    assert x * n == n * x;
  }
}

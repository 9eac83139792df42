/** A run over a finite input can always be brought to its end, from wherever it is. */
module Progress {
  import opened Numbers
  import opened TaskStates
  import opened Retry
  import opened WorkItems
  import opened Protocol
  import opened Invariants
  import opened Preservation
  import opened Steps
  import opened Teardown
  import opened Termination

  /** There is a future to wait for. */
  predicate Watches(c: Core) {
    c.inFlight != map[] || c.abandoned != {}
  }

  /** Everything undelivered is backing off. */
  predicate Resting(c: Core) {
    !Watches(c) && c.retryWait != map[]
  }

  /** How many steps it takes at most until something productive can be done, by the loop it is in. */
  function Distance(s: State): nat {
    var c := s.core;
    match s.pc
    case Head => if !Resting(c) then 5 else if Due(c, c.clock) != {} then 2 else 3
    case Turning(now) => if !Resting(c) then 4 else if Due(c, now) != {} then 1 else 23
    case Resubmitting(_, due) => if due != {} then 0 else if Resting(c) then 22 else 3
    case Pulling => if Resting(c) then 21 else 2
    case Waiting(_, _) => if Resting(c) then 20 else 1
    case Collecting(done) => UntilCollected(c, done)
    case Scanning(_, todo) => UntilScanned(c, todo)
    case Yielding(_, OfCollect(done)) => UntilCollected(c, done) + 1
    case Yielding(_, OfScan(_, todo)) => UntilScanned(c, todo) + 1
    case Asking(todo) => |todo| + |c.inFlight| + |c.retryWait| + 3
    case Cancelling(_, todo) => |todo| + |c.retryWait| + 2
    case Dropping(_, parked) => |parked| + 1
    case Closed(_, _) => 0
  }

  function UntilCollected(c: Core, done: set<Fid>): nat {
    if done != {} then 0 else |c.inFlight| + (if Resting(c) then 5 else 7)
  }

  function UntilScanned(c: Core, todo: set<Fid>): nat {
    |todo| + (if Resting(c) then 4 else 6)
  }

  /** Nothing asks the run to stop before it returns. */
  ghost predicate Undisturbed(cfg: Config, n: nat, s: State) {
    !s.core.stopping && !s.core.requested && cfg.OverallDeadline().None? && cfg.input(n) == Stop
  }

  /** u is nearer to the end than s, and if s was undisturbed, so is u, or it returns. */
  ghost predicate Nearer(cfg: Config, n: nat, s: State, a: Action, u: State) {
    && (s.core.stopping ==> u.core.stopping)
    && (|| Productive(cfg, s, a)
        || (!s.core.stopping && u.core.stopping)
        || Distance(u) < Distance(s))
    && (Undisturbed(cfg, n, s) ==> Undisturbed(cfg, n, u) || Why(u.pc) == Some(Exit.Returned))
    && (s.core.stopping && Why(s.pc).Some? ==> Why(u.pc) == Why(s.pc))
  }

  function Why(pc: PC): Option<Exit> {
    match pc
    case Cancelling(why, _) => Some(why)
    case Dropping(why, _) => Some(why)
    case Closed(why, _) => Some(why)
    case _ => None
  }

  // --- the clock ---

  /** No execution began in the future. */
  ghost predicate BegunInThePast(c: Core) {
    forall f :: 0 <= f < |c.futures| && c.futures[f].phase.Executing? ==> c.futures[f].phase.since <= c.clock
  }

  /** The coordinator adds futures to the queue or takes them out, and moves none on. */
  ghost predicate NoneBegins(c: Core, d: Core) {
    && d.clock == c.clock && |c.futures| <= |d.futures|
    && (forall f :: 0 <= f < |c.futures| ==> d.futures[f] == c.futures[f] || d.futures[f].phase == Withdrawn)
    && (forall f :: |c.futures| <= f < |d.futures| ==> d.futures[f].phase == Queued)
  }

  lemma CoordinatorBeginsNothing(cfg: Config, s: State, a: Action)
    requires cfg.Valid() && Inv(cfg, s) && Can(cfg, s, a) && !ByOthers(a)
    ensures NoneBegins(s.core, Do(cfg, s, a).core)
  {
    match a
    case CollectOne(f, delay, due) => CollectBeginsNothing(cfg, s, f, delay, due);
    case ScanOne(f, delay, due) => ScanBeginsNothing(cfg, s, f, delay, due);
    case Enter(wake) => EnteringBeginsNothing(cfg, s, wake);
    case PullOne => PullingBeginsNothing(cfg, s);
    case _ => RestBeginsNothing(cfg, s, a);
  }

  lemma CollectBeginsNothing(cfg: Config, s: State, f: Fid, delay: real, due: real)
    requires Inv(cfg, s) && Can(cfg, s, CollectOne(f, delay, due))
    ensures NoneBegins(s.core, Do(cfg, s, CollectOne(f, delay, due)).core)
  {
    CollectStep(cfg, s, f, delay, due);
  }

  lemma RestBeginsNothing(cfg: Config, s: State, a: Action)
    requires Can(cfg, s, a)
    requires a.AskOne? || a.ResubmitOne? || a.Wake? || a.Interrupt? || a.Resume? || a.CloseHere?
             || a.CancelOne? || a.DropOne?
    ensures NoneBegins(s.core, Do(cfg, s, a).core)
  {
  }

  lemma EnteringBeginsNothing(cfg: Config, s: State, wake: real)
    ensures NoneBegins(s.core, DoEnter(cfg, s, wake).core)
  {
  }

  lemma PullingBeginsNothing(cfg: Config, s: State)
    ensures NoneBegins(s.core, DoPull(cfg, s).core)
  {
  }

  lemma ScanBeginsNothing(cfg: Config, s: State, f: Fid, delay: real, due: real)
    requires cfg.Valid() && Inv(cfg, s) && Can(cfg, s, ScanOne(f, delay, due))
    ensures NoneBegins(s.core, Do(cfg, s, ScanOne(f, delay, due)).core)
  {
    var c, now, tt := s.core, s.pc.now, cfg.taskTimeout.value;
    ScanStep(cfg, s, f, delay, due);
    if Expired(c.items[c.inFlight[f]], now, tt) {
      ScanParkMoves(cfg, c, f, now, tt, delay, due);
      ScanDeliverMoves(cfg, c, f, now, tt);
    }
  }

  lemma OthersBeginNow(cfg: Config, s: State, a: Action)
    requires Can(cfg, s, a) && ByOthers(a) && BegunInThePast(s.core)
    ensures BegunInThePast(Do(cfg, s, a).core)
  {
  }

  lemma {:induction false} PathBeginsInThePast(cfg: Config, s: State, acts: seq<Action>, t: State)
    requires cfg.Valid() && Inv(cfg, s) && BegunInThePast(s.core) && Path(cfg, s, acts, t)
    ensures BegunInThePast(t.core)
    decreases |acts|
  {
    if acts != [] {
      StepKeepsInv(cfg, s, acts[0]);
      if ByOthers(acts[0]) {
        OthersBeginNow(cfg, s, acts[0]);
      } else {
        CoordinatorBeginsNothing(cfg, s, acts[0]);
      }
      PathBeginsInThePast(cfg, Do(cfg, s, acts[0]), acts[1..], t);
    }
  }

  lemma ExecutionsBeganInThePast(cfg: Config, s: State)
    requires cfg.Valid() && Reachable(cfg, s)
    ensures BegunInThePast(s.core)
  {
    var acts :| Path(cfg, Init(), acts, s);
    PathBeginsInThePast(cfg, Init(), acts, s);
  }

  // --- one step, by the loop the coordinator is in ---

  /** A watched future that is not done can be brought nearer to it by its worker. */
  lemma WorkerCanMove(cfg: Config, s: State, f: Fid) returns (a: Action)
    requires cfg.Valid() && Reachable(cfg, s) && s.pc.Waiting? && (f in s.core.inFlight || f in s.core.abandoned)
    requires s.core.IsFuture(f) && !s.core.futures[f].phase.Done?
    ensures Can(cfg, s, a) && Productive(cfg, s, a) && ByOthers(a)
  {
    WaitsCanEnd(cfg, s, f);
    ExecutionsBeganInThePast(cfg, s);
    var p := s.core.futures[f].phase;
    a := if p.Queued? then TakeUp(f) else if p.Taken? then Begin(f)
         else if p.Executing? then Finish(f, 0.0) else Protocol.Settle(f);
  }

  /** A step by which nobody is asked to stop. */
  lemma CalmStepIsNearer(cfg: Config, n: nat, s: State, a: Action, u: State)
    requires !s.core.stopping && !u.core.stopping && u.core.requested == s.core.requested
    requires Productive(cfg, s, a) || Distance(u) < Distance(s)
    ensures Nearer(cfg, n, s, a, u)
  {
  }

  /** A step of the teardown. */
  lemma TeardownStepIsNearer(cfg: Config, n: nat, s: State, a: Action, u: State)
    requires s.core.stopping && u.core.stopping && Distance(u) < Distance(s)
    requires Why(s.pc).Some? ==> Why(u.pc) == Why(s.pc)
    ensures Nearer(cfg, n, s, a, u)
  {
  }

  lemma LoopIsNotStopping(cfg: Config, s: State)
    requires cfg.Valid() && Reachable(cfg, s)
    ensures s.core.stopping <==> s.pc.Asking? || s.pc.Cancelling? || s.pc.Dropping? || s.pc.Closed?
    ensures s.pc.Waiting? ==> Awaited(s.core)
  {
    ReachableStatesAreSound(cfg, s);
  }

  lemma WorkersAreNoHindrance(cfg: Config, s: State, a: Action)
    requires cfg.Valid() && Reachable(cfg, s) && Can(cfg, s, a) && (a.TakeUp? || a.Begin? || a.Finish? || a.Settle?)
    ensures Do(cfg, s, a).core.stopping == s.core.stopping && Do(cfg, s, a).core.requested == s.core.requested
  {
  }

  lemma WakingIsNearer(cfg: Config, n: nat, s: State, done: set<Fid>)
    requires s.pc.Waiting? && !s.core.stopping && Awaited(s.core) && Can(cfg, s, Wake(done))
    requires done == {} ==> !Watches(s.core)
    ensures Nearer(cfg, n, s, Wake(done), Do(cfg, s, Wake(done)))
  {
    var u := Do(cfg, s, Wake(done));
    assert u == s.(pc := Collecting(done));
    if done != {} {
      assert Watches(s.core);
    }
    CalmStepIsNearer(cfg, n, s, Wake(done), u);
  }

  lemma FromWaiting(cfg: Config, n: nat, s: State) returns (a: Action)
    requires cfg.Valid() && Reachable(cfg, s) && s.pc.Waiting?
    ensures Can(cfg, s, a) && Nearer(cfg, n, s, a, Do(cfg, s, a))
  {
    LoopIsNotStopping(cfg, s);
    var watched := s.core.inFlight.Keys + s.core.abandoned;
    if watched == {} {
      assert s.core.inFlight.Keys == {};
      a := Wake({});
      WakingIsNearer(cfg, n, s, {});
    } else {
      var f := Pick(watched);
      WaitsCanEnd(cfg, s, f);
      if s.core.futures[f].phase.Done? {
        a := Wake({f});
        WakingIsNearer(cfg, n, s, {f});
      } else {
        a := WorkerCanMove(cfg, s, f);
        WorkersAreNoHindrance(cfg, s, a);
        CalmStepIsNearer(cfg, n, s, a, Do(cfg, s, a));
      }
    }
  }

  lemma PullingIsNearer(cfg: Config, n: nat, s: State)
    requires cfg.Valid() && HasLength(cfg, n) && Reachable(cfg, s) && Can(cfg, s, PullOne)
    ensures Nearer(cfg, n, s, PullOne, Do(cfg, s, PullOne))
  {
    InputIsPulledInOrder(cfg, n, s);
    PulledIsNearer(cfg, n, s);
  }

  lemma InputIsPulledInOrder(cfg: Config, n: nat, s: State)
    requires cfg.Valid() && HasLength(cfg, n) && Reachable(cfg, s)
    ensures s.core.nextIndex <= n
  {
    ReachableStatesAreSound(cfg, s);
    PulledIsBelow(cfg, n, s.core);
  }

  lemma PulledIsNearer(cfg: Config, n: nat, s: State)
    requires HasLength(cfg, n) && s.core.nextIndex <= n && Can(cfg, s, PullOne)
    ensures Nearer(cfg, n, s, PullOne, Do(cfg, s, PullOne))
  {
    assert Do(cfg, s, PullOne) == DoPull(cfg, s);
  }

  lemma LeavingThePull(cfg: Config, n: nat, s: State, wake: real)
    requires s.pc.Pulling? && !s.core.stopping && Can(cfg, s, Enter(wake))
    ensures Nearer(cfg, n, s, Enter(wake), Do(cfg, s, Enter(wake)))
  {
    assert Do(cfg, s, Enter(wake)) == DoEnter(cfg, s, wake);
  }

  lemma FromPulling(cfg: Config, n: nat, s: State) returns (a: Action)
    requires cfg.Valid() && HasLength(cfg, n) && Reachable(cfg, s) && s.pc.Pulling?
    ensures Can(cfg, s, a) && Nearer(cfg, n, s, a, Do(cfg, s, a))
  {
    LoopIsNotStopping(cfg, s);
    if !s.core.exhausted && s.core.Load() < cfg.maxPending {
      a := PullOne;
      PullingIsNearer(cfg, n, s);
    } else {
      var wake := WakeTimeExists(cfg, s.core);
      a := Enter(wake);
      LeavingThePull(cfg, n, s, wake);
    }
  }

  lemma FromHead(cfg: Config, n: nat, s: State) returns (a: Action)
    requires cfg.Valid() && Reachable(cfg, s) && s.pc.Head?
    ensures Can(cfg, s, a) && Nearer(cfg, n, s, a, Do(cfg, s, a))
  {
    LoopIsNotStopping(cfg, s);
    if Resting(s.core) && Due(s.core, s.core.clock) == {} {
      a := UntilSomethingIsDue(cfg, n, s);
    } else {
      a := Enter(0.0);
      LeavingTheHead(cfg, n, s);
    }
  }

  lemma UntilSomethingIsDue(cfg: Config, n: nat, s: State) returns (a: Action)
    requires s.pc.Head? && !s.core.stopping && Resting(s.core) && Due(s.core, s.core.clock) == {}
    ensures Can(cfg, s, a) && Nearer(cfg, n, s, a, Do(cfg, s, a))
  {
    assert s.core.retryWait.Keys != {};
    var w := Pick(s.core.retryWait.Keys);
    var t := s.core.retryWait[w];
    assert w !in Due(s.core, s.core.clock);
    a := Tick(t);
    var u := Do(cfg, s, Tick(t));
    assert u == s.(core := s.core.(clock := t));
    assert w in Due(u.core, t);
    CalmStepIsNearer(cfg, n, s, a, u);
  }

  lemma LeavingTheHead(cfg: Config, n: nat, s: State)
    requires s.pc.Head? && !s.core.stopping && (Resting(s.core) ==> Due(s.core, s.core.clock) != {})
    ensures Nearer(cfg, n, s, Enter(0.0), Do(cfg, s, Enter(0.0)))
  {
    assert Do(cfg, s, Enter(0.0)) == DoEnter(cfg, s, 0.0);
  }

  lemma FromTurning(cfg: Config, n: nat, s: State)
    requires cfg.Valid() && Reachable(cfg, s) && s.pc.Turning?
    ensures Nearer(cfg, n, s, Enter(0.0), Do(cfg, s, Enter(0.0)))
  {
    LoopIsNotStopping(cfg, s);
    assert Do(cfg, s, Enter(0.0)) == DoEnter(cfg, s, 0.0);
  }

  lemma FromResubmitting(cfg: Config, n: nat, s: State) returns (a: Action)
    requires cfg.Valid() && Reachable(cfg, s) && s.pc.Resubmitting?
    ensures Can(cfg, s, a) && Nearer(cfg, n, s, a, Do(cfg, s, a))
  {
    LoopIsNotStopping(cfg, s);
    if s.pc.due == {} {
      a := Enter(0.0);
      assert Do(cfg, s, a) == s.(pc := Pulling);
    } else {
      var w := Pick(s.pc.due);
      a := ResubmitOne(w);
    }
    CalmStepIsNearer(cfg, n, s, a, Do(cfg, s, a));
  }

  lemma CollectingIsCalm(cfg: Config, s: State, f: Fid, delay: real, due: real)
    requires cfg.Valid() && Reachable(cfg, s) && Can(cfg, s, CollectOne(f, delay, due))
    ensures var u := Do(cfg, s, CollectOne(f, delay, due));
            u.core.stopping == s.core.stopping && u.core.requested == s.core.requested
  {
    ReachableStatesAreSound(cfg, s);
    CollectStep(cfg, s, f, delay, due);
  }

  /** Some delay that may be drawn for the item of f. */
  lemma DelayOf(cfg: Config, s: State, f: Fid) returns (d: real)
    requires cfg.Valid()
    ensures KeyPresent(s.core, f) ==> cfg.MayDelay(s.core.items[s.core.inFlight[f]].attempts, d)
  {
    d := SomeDelay(cfg, if KeyPresent(s.core, f) then s.core.items[s.core.inFlight[f]].attempts else 0);
  }

  lemma FromCollecting(cfg: Config, n: nat, s: State) returns (a: Action)
    requires cfg.Valid() && Reachable(cfg, s) && s.pc.Collecting?
    ensures Can(cfg, s, a) && Nearer(cfg, n, s, a, Do(cfg, s, a))
  {
    LoopIsNotStopping(cfg, s);
    if s.pc.done == {} {
      a := Enter(0.0);
      assert Do(cfg, s, a) == DoEnter(cfg, s, 0.0);
    } else {
      var f := Pick(s.pc.done);
      var d := DelayOf(cfg, s, f);
      var due := s.core.clock + d;
      a := CollectOne(f, d, due);
      CollectingIsCalm(cfg, s, f, d, due);
    }
    CalmStepIsNearer(cfg, n, s, a, Do(cfg, s, a));
  }

  lemma ScanningIsCalm(cfg: Config, s: State, f: Fid, delay: real, due: real)
    requires cfg.Valid() && Reachable(cfg, s) && Can(cfg, s, ScanOne(f, delay, due)) && !s.core.stopping
    ensures KeyPresent(s.core, f) && cfg.taskTimeout.Some?
    ensures var u := Do(cfg, s, ScanOne(f, delay, due));
            && !u.core.stopping && u.core.requested == s.core.requested
            && (Expired(s.core.items[s.core.inFlight[f]], s.pc.now, cfg.taskTimeout.value)
                || u == s.(pc := Scanning(s.pc.now, s.pc.todo - {f})))
  {
    var c := s.core;
    ReachableStatesAreSound(cfg, s);
    ScanStep(cfg, s, f, delay, due);
    if Expired(c.items[c.inFlight[f]], s.pc.now, cfg.taskTimeout.value) {
      ScanParkMoves(cfg, c, f, s.pc.now, cfg.taskTimeout.value, delay, due);
      ScanDeliverMoves(cfg, c, f, s.pc.now, cfg.taskTimeout.value);
    }
  }

  lemma ScanningIsNearer(cfg: Config, n: nat, s: State, f: Fid, delay: real, due: real)
    requires cfg.Valid() && Reachable(cfg, s) && Can(cfg, s, ScanOne(f, delay, due)) && !s.core.stopping
    ensures var a := ScanOne(f, delay, due);
            Nearer(cfg, n, s, a, Do(cfg, s, a))
  {
    var a := ScanOne(f, delay, due);
    ScanningIsCalm(cfg, s, f, delay, due);
    CalmStepIsNearer(cfg, n, s, a, Do(cfg, s, a));
  }

  lemma FromScanning(cfg: Config, n: nat, s: State) returns (a: Action)
    requires cfg.Valid() && Reachable(cfg, s) && s.pc.Scanning?
    ensures Can(cfg, s, a) && Nearer(cfg, n, s, a, Do(cfg, s, a))
  {
    LoopIsNotStopping(cfg, s);
    if s.pc.todo == {} {
      a := Enter(0.0);
      assert Do(cfg, s, a) == s.(pc := Head);
      CalmStepIsNearer(cfg, n, s, a, Do(cfg, s, a));
    } else {
      var f := Pick(s.pc.todo);
      var d := DelayOf(cfg, s, f);
      var due := s.core.clock + d;
      a := ScanOne(f, d, due);
      ScanningIsNearer(cfg, n, s, f, d, due);
    }
  }

  lemma FromYielding(cfg: Config, n: nat, s: State)
    requires cfg.Valid() && Reachable(cfg, s) && s.pc.Yielding?
    ensures Nearer(cfg, n, s, Resume, Do(cfg, s, Resume))
  {
    LoopIsNotStopping(cfg, s);
    CalmStepIsNearer(cfg, n, s, Resume, Do(cfg, s, Resume));
  }

  lemma KeysArePresent(cfg: Config, s: State)
    requires cfg.Valid() && Reachable(cfg, s)
    ensures s.pc.Asking? || s.pc.Cancelling? ==> forall f :: f in s.pc.todo ==> KeyPresent(s.core, f)
    ensures s.pc.Dropping? ==> forall w :: w in s.pc.parked ==> w < |s.core.items|
  {
    ReachableStatesAreSound(cfg, s);
  }

  lemma FromAsking(cfg: Config, n: nat, s: State) returns (a: Action)
    requires cfg.Valid() && Reachable(cfg, s) && s.pc.Asking?
    ensures Can(cfg, s, a) && Nearer(cfg, n, s, a, Do(cfg, s, a))
  {
    LoopIsNotStopping(cfg, s);
    KeysArePresent(cfg, s);
    if f :| f in s.pc.todo {
      a := AskOne(f);
    } else {
      a := Enter(0.0);
      assert Do(cfg, s, a) == Leave(s.core, CancelRaised);
    }
    TeardownStepIsNearer(cfg, n, s, a, Do(cfg, s, a));
  }

  lemma FromCancelling(cfg: Config, n: nat, s: State) returns (a: Action)
    requires cfg.Valid() && Reachable(cfg, s) && s.pc.Cancelling?
    ensures Can(cfg, s, a) && Nearer(cfg, n, s, a, Do(cfg, s, a))
  {
    LoopIsNotStopping(cfg, s);
    KeysArePresent(cfg, s);
    if f :| f in s.pc.todo {
      a := CancelOne(f);
    } else {
      a := Enter(0.0);
      assert Do(cfg, s, a) == s.(pc := Dropping(s.pc.why, s.core.retryWait.Keys));
    }
    TeardownStepIsNearer(cfg, n, s, a, Do(cfg, s, a));
  }

  lemma FromDropping(cfg: Config, n: nat, s: State) returns (a: Action)
    requires cfg.Valid() && Reachable(cfg, s) && s.pc.Dropping?
    ensures Can(cfg, s, a) && Nearer(cfg, n, s, a, Do(cfg, s, a))
  {
    LoopIsNotStopping(cfg, s);
    KeysArePresent(cfg, s);
    if w :| w in s.pc.parked {
      a := DropOne(w);
    } else {
      a := Enter(0.0);
      assert Do(cfg, s, a) == s.(pc := Closed(s.pc.why, s.core.Leaks()));
    }
    TeardownStepIsNearer(cfg, n, s, a, Do(cfg, s, a));
  }

  /** Until it is closed, a run can take a step that brings it nearer to its end. */
  lemma NextStep(cfg: Config, n: nat, s: State) returns (a: Action)
    requires cfg.Valid() && HasLength(cfg, n) && Reachable(cfg, s) && !s.pc.Closed?
    ensures Can(cfg, s, a) && Nearer(cfg, n, s, a, Do(cfg, s, a))
  {
    match s.pc
    case Head => a := FromHead(cfg, n, s);
    case Asking(_) => a := FromAsking(cfg, n, s);
    case Resubmitting(_, _) => a := FromResubmitting(cfg, n, s);
    case Pulling => a := FromPulling(cfg, n, s);
    case Waiting(_, _) => a := FromWaiting(cfg, n, s);
    case Collecting(_) => a := FromCollecting(cfg, n, s);
    case Scanning(_, _) => a := FromScanning(cfg, n, s);
    case Cancelling(_, _) => a := FromCancelling(cfg, n, s);
    case Dropping(_, _) => a := FromDropping(cfg, n, s);
    case Turning(_) =>
      a := Enter(0.0);
      FromTurning(cfg, n, s);
    case Yielding(_, _) =>
      a := Resume;
      FromYielding(cfg, n, s);
  }

  // --- to the end ---

  /** From every reachable state of a run over a finite input some continuation closes it; and unless
      something has asked it to stop, some continuation makes it return, with everything delivered. */
  lemma {:induction false} RunsCanEnd(cfg: Config, n: nat, s: State) returns (acts: seq<Action>, t: State)
    requires cfg.Valid() && HasLength(cfg, n) && Reachable(cfg, s)
    ensures Path(cfg, s, acts, t) && t.pc.Closed?
    ensures Undisturbed(cfg, n, s) || Why(s.pc) == Some(Exit.Returned) ==> t.pc.why == Exit.Returned
    decreases Measure(cfg, n, s.core), if s.core.stopping then 0 else 1, Distance(s)
  {
    LoopIsNotStopping(cfg, s);
    if s.pc.Closed? {
      acts, t := [], s;
    } else {
      var a := NextStep(cfg, n, s);
      var u := Do(cfg, s, a);
      ReachableSnoc(cfg, s, a);
      MeasureShrinks(cfg, n, s, a);
      var rest;
      rest, t := RunsCanEnd(cfg, n, u);
      acts := [a] + rest;
      assert acts[1..] == rest;
    }
  }

  lemma MeasureShrinks(cfg: Config, n: nat, s: State, a: Action)
    requires cfg.Valid() && HasLength(cfg, n) && Reachable(cfg, s) && Can(cfg, s, a)
    ensures Measure(cfg, n, Do(cfg, s, a).core) <= Measure(cfg, n, s.core)
    ensures Productive(cfg, s, a) ==> Measure(cfg, n, Do(cfg, s, a).core) < Measure(cfg, n, s.core)
  {
    ReachableStatesAreSound(cfg, s);
    StepDecreases(cfg, n, s, a);
  }
}

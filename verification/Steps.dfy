/** Every action of a run keeps the invariant, so it holds in every reachable state. */
module Steps {
  import opened TaskStates
  import opened Numbers
  import opened Retry
  import opened WorkItems
  import opened Protocol
  import opened Invariants
  import opened Preservation

  // --- workers and the environment ---

  /** A future moves at most one phase ahead; an execution begins no earlier than `clock`. */
  predicate Moves(p: Phase, q: Phase, clock: real) {
    || p == q
    || (p.Queued? && q.Taken?)
    || (p.Taken? && q.Executing? && q.since >= clock)
    || (p.Executing? && q.Reported?)
    || (p.Reported? && q == Done(p.escaped))
  }

  /** What the coordinator owns is left alone. */
  ghost predicate Elsewhere(c: Core, d: Core) {
    && d.inFlight == c.inFlight && d.retryWait == c.retryWait && d.abandoned == c.abandoned
    && d.nextIndex == c.nextIndex && d.exhausted == c.exhausted
    && d.stopping == c.stopping && d.yielded == c.yielded && d.slots == c.slots
    && c.clock <= d.clock
    && |d.futures| == |c.futures| && |d.items| == |c.items|
    && (forall f :: 0 <= f < |c.futures| ==>
          d.futures[f].work == c.futures[f].work && Moves(c.futures[f].phase, d.futures[f].phase, c.clock))
    && (forall w :: w in c.retryWait && w < |c.items| ==> d.items[w] == c.items[w])
  }

  lemma ElsewhereKeepsPc(cfg: Config, s: State, d: Core)
    requires CoreInv(cfg, s.core) && PcInv(cfg, s) && Elsewhere(s.core, d)
    ensures PcInv(cfg, s.(core := d))
  {
    var c := s.core;
    match s.pc
    case Waiting(from, wake) => WaitSurvives(cfg, c, d, from, wake);
    case Collecting(done) => CollectSurvives(c, d, done);
    case Yielding(_, OfCollect(done)) => CollectSurvives(c, d, done);
    case Cancelling(_, todo) => TeardownSurvives(c, d, todo, {}, c.retryWait.Keys);
    case Dropping(_, parked) => TeardownSurvives(c, d, {}, parked, parked);
    case Closed(_, leak) =>
      TeardownSurvives(c, d, {}, {}, {});
      LeakSurvives(c, d, leak);
    case _ =>
  }

  lemma CollectSurvives(c: Core, d: Core, done: set<Fid>)
    requires Elsewhere(c, d) && CollectOk(c, done)
    ensures CollectOk(d, done)
  {
  }

  lemma TeardownSurvives(c: Core, d: Core, todo: set<Fid>, dropped: set<Wid>, parked: set<Wid>)
    requires Elsewhere(c, d) && Drained(c, todo) && Untouched(c, parked)
    ensures Drained(d, todo) && Untouched(d, parked)
    ensures Emptied(c, dropped) ==> Emptied(d, dropped)
  {
    forall f | f in d.inFlight && f !in todo && f < |d.futures| ensures d.futures[f].phase != Queued {
      assert c.futures[f].phase != Queued;
      assert Moves(c.futures[f].phase, d.futures[f].phase, c.clock);
    }
  }

  lemma LeakSurvives(c: Core, d: Core, leak: set<Fid>)
    requires Elsewhere(c, d) && LeakOk(c, leak)
    ensures LeakOk(d, leak)
  {
    assert forall f :: f in c.inFlight && f < |c.futures| ==>
      Moves(c.futures[f].phase, d.futures[f].phase, c.clock);
  }

  lemma WaitSurvives(cfg: Config, c: Core, d: Core, from: real, wake: real)
    requires Shape(c) && Elsewhere(c, d) && WaitOk(cfg, c, from, wake)
    ensures WaitOk(cfg, d, from, wake)
  {
  }

  /** The item of a future that a worker is busy with is not parked. */
  lemma BusyIsNotParked(cfg: Config, c: Core, f: Fid)
    requires CoreInv(cfg, c) && c.IsFuture(f) && !c.futures[f].phase.Done? && f !in c.abandoned
    ensures f in c.inFlight && c.futures[f].work !in c.retryWait
  {
    FlightIsAlone(c, f);
  }

  predicate ByOthers(a: Action) {
    a.Tick? || a.Request? || a.TakeUp? || a.Begin? || a.Finish? || a.Settle?
  }

  lemma WorkersKeepInv(cfg: Config, s: State, a: Action)
    requires Inv(cfg, s) && Can(cfg, s, a) && ByOthers(a)
    ensures Inv(cfg, Do(cfg, s, a))
  {
    WorkersKeepCoreInv(cfg, s, a);
    WorkersStayElsewhere(cfg, s, a);
    ElsewhereKeepsPc(cfg, s, Do(cfg, s, a).core);
  }

  lemma WorkersKeepCoreInv(cfg: Config, s: State, a: Action)
    requires CoreInv(cfg, s.core) && Can(cfg, s, a) && ByOthers(a)
    ensures CoreInv(cfg, Do(cfg, s, a).core)
  {
    match a
    case Tick(t) => TickKeepsInv(cfg, s.core, t);
    case Request => RequestKeepsInv(cfg, s.core);
    case TakeUp(f) => TakeKeepsInv(cfg, s.core, f);
    case Begin(f) => StartKeepsInv(cfg, s.core, f);
    case Finish(f, spent) => ReportKeepsInv(cfg, s.core, f, spent);
    case Settle(f) => SettleKeepsInv(cfg, s.core, f);
  }

  lemma WorkersStayElsewhere(cfg: Config, s: State, a: Action)
    requires CoreInv(cfg, s.core) && Can(cfg, s, a) && ByOthers(a)
    ensures Elsewhere(s.core, Do(cfg, s, a).core) && Do(cfg, s, a) == s.(core := Do(cfg, s, a).core)
  {
    match a
    case Begin(f) => BeginIsElsewhere(cfg, s.core, f);
    case Finish(f, spent) => FinishIsElsewhere(cfg, s.core, f, spent);
    case _ =>
  }

  lemma BeginIsElsewhere(cfg: Config, c: Core, f: Fid)
    requires CoreInv(cfg, c) && c.IsFuture(f) && c.futures[f].phase == Taken
    ensures Elsewhere(c, c.Start(f))
  {
    BusyIsNotParked(cfg, c, f);
  }

  lemma FinishIsElsewhere(cfg: Config, c: Core, f: Fid, spent: real)
    requires CoreInv(cfg, c) && c.IsFuture(f) && c.futures[f].phase.Executing?
    ensures Elsewhere(c, c.Report(cfg, f, spent))
  {
    if f in c.abandoned {
      StaleReportChangesNothing(cfg, c, f, spent);
    } else {
      BusyIsNotParked(cfg, c, f);
    }
  }

  // --- the coordinator ---

  lemma LeaveKeepsInv(cfg: Config, c: Core, why: Exit)
    requires CoreInv(cfg, c) && ReturnOk(c, why) && Untouched(c, c.retryWait.Keys)
    ensures Inv(cfg, Leave(c, why))
  {
    StoppingKeepsInv(cfg, c);
    assert Drained(c, c.inFlight.Keys);
  }

  lemma NothingParkedIsCancelled(cfg: Config, c: Core)
    requires CoreInv(cfg, c) && !c.stopping
    ensures Untouched(c, c.retryWait.Keys)
  {
    forall w | w in c.retryWait ensures c.items[w].state == RetryWait {
      assert ParkedOk(cfg, c.items[w], c.retryWait[w], c.attempts[c.items[w].index], c.stopping);
    }
  }

  /** With work still to do, there is something to wait for: the window holds at least one future
      when input remains. */
  lemma SomethingIsAwaited(cfg: Config, c: Core)
    requires cfg.maxPending >= 1
    requires c.exhausted || c.Load() >= cfg.maxPending
    requires !(c.inFlight == map[] && c.retryWait == map[] && c.exhausted)
    ensures Awaited(c)
  {
  }

  lemma WaitBegins(cfg: Config, c: Core, wake: real)
    requires cfg.Valid() && CoreInv(cfg, c) && !c.stopping && WakesAt(cfg, c, wake)
    ensures WaitOk(cfg, c, c.clock, wake)
  {
    if Candidates(cfg, c) == {} {
      NoCandidates(cfg, c);
    } else {
      var t :| IsMin(t, Candidates(cfg, c)) && wake == c.clock + Min(Max(0.0, t - c.clock), MAX_WAIT_SLICE);
      WaitSparesDueTimes(cfg, c, t);
      if cfg.taskTimeout.Some? {
        forall f | f in c.inFlight
          ensures OverrunAfter(cfg.taskTimeout.value, c.futures[f].phase, c.clock, wake)
        {
          WaitSparesFlight(cfg, c, t, wake, f);
        }
      }
    }
  }

  lemma NoCandidates(cfg: Config, c: Core)
    requires Candidates(cfg, c) == {}
    ensures c.retryWait == map[] && cfg.OverallDeadline().None?
    ensures cfg.taskTimeout.Some? ==> c.inFlight == map[]
  {
    assert forall w :: w in c.retryWait ==> c.retryWait[w] in Candidates(cfg, c);
    assert OverallDeadlines(cfg) == {};
    NoOverallDeadline(cfg);
  }

  lemma NoOverallDeadline(cfg: Config)
    ensures cfg.OverallDeadline().None? <==> OverallDeadlines(cfg) == {}
  {
    if cfg.OverallDeadline().Some? {
      assert cfg.OverallDeadline().value in OverallDeadlines(cfg);
    }
  }

  lemma WaitSparesDueTimes(cfg: Config, c: Core, t: real)
    requires IsMin(t, Candidates(cfg, c))
    ensures forall w :: w in c.retryWait ==> t <= c.retryWait[w]
    ensures cfg.OverallDeadline().Some? ==> t <= cfg.OverallDeadline().value
  {
    assert forall w :: w in c.retryWait ==> c.retryWait[w] in Candidates(cfg, c);
  }

  /** While the loop is running, an in-flight item is Running exactly if its worker is inside the
      task function, and its deadline counts from when that began. */
  lemma RunningIsExecuting(cfg: Config, c: Core, f: Fid, taskTimeout: real)
    requires CoreInv(cfg, c) && !c.stopping && f in c.inFlight
    ensures var p := c.futures[f].phase;
            && RunningDeadline(c.items[c.inFlight[f]], taskTimeout)
               == (if p.Executing? then Some(p.since + taskTimeout) else None)
            && (p.Executing? ==> p.since <= c.clock)
  {
    FlightRecord(cfg, c, f);
  }

  lemma WaitSparesFlight(cfg: Config, c: Core, t: real, wake: real, f: Fid)
    requires CoreInv(cfg, c) && !c.stopping && f in c.inFlight
    requires cfg.taskTimeout.Some? && cfg.taskTimeout.value > 0.0
    requires IsMin(t, Candidates(cfg, c))
    requires wake == c.clock + Min(Max(0.0, t - c.clock), MAX_WAIT_SLICE)
    ensures OverrunAfter(cfg.taskTimeout.value, c.futures[f].phase, c.clock, wake)
  {
    var tt := cfg.taskTimeout.value;
    RunningIsExecuting(cfg, c, f, tt);
    var deadlines := Deadlines(c, tt);
    assert TaskDeadlines(cfg, c) <= Candidates(cfg, c);
    if c.futures[f].phase.Executing? {
      assert c.futures[f].phase.since + tt in deadlines;
      assert t <= c.futures[f].phase.since + tt;
    } else if deadlines != {} {
      var u :| u in deadlines;
      var g :| g in c.inFlight && RunningDeadline(c.items[c.inFlight[g]], tt) == Some(u);
      RunningIsExecuting(cfg, c, g, tt);
      assert t <= u <= c.clock + tt;
    } else {
      assert t <= c.clock + tt;
    }
  }

  lemma EnterKeepsInv(cfg: Config, s: State, wake: real)
    requires cfg.Valid() && Inv(cfg, s) && CanEnter(cfg, s, wake)
    ensures Inv(cfg, DoEnter(cfg, s, wake))
  {
    if s.pc.Turning? {
      TurningKeepsInv(cfg, s.core, s.pc.now, wake);
    } else if s.pc.Pulling? {
      PullingEndsWell(cfg, s.core, wake);
    } else {
      LoopsEndWell(cfg, s, wake);
    }
  }

  lemma LoopsEndWell(cfg: Config, s: State, wake: real)
    requires Inv(cfg, s) && CanEnter(cfg, s, wake) && !s.pc.Turning? && !s.pc.Pulling?
    ensures Inv(cfg, DoEnter(cfg, s, wake))
  {
    match s.pc
    case Asking(_) => LeaveKeepsInv(cfg, s.core, CancelRaised);
    case Dropping(_, _) => assert LeakOk(s.core, s.core.Leaks());
    case _ =>
  }

  lemma TurningKeepsInv(cfg: Config, c: Core, now: real, wake: real)
    requires CoreInv(cfg, c) && !c.stopping && now <= c.clock
    ensures Inv(cfg, DoEnter(cfg, State(c, Turning(now)), wake))
  {
    NothingParkedIsCancelled(cfg, c);
    if c.requested {
      StoppingKeepsInv(cfg, c);
    } else if cfg.OverallDeadline().Some? && now >= cfg.OverallDeadline().value {
      LeaveKeepsInv(cfg, c, OverallTimeoutRaised);
    }
  }

  lemma PullingEndsWell(cfg: Config, c: Core, wake: real)
    requires cfg.Valid() && CoreInv(cfg, c) && !c.stopping && CanEnter(cfg, State(c, Pulling), wake)
    ensures Inv(cfg, DoEnter(cfg, State(c, Pulling), wake))
  {
    if c.inFlight == map[] && c.retryWait == map[] && c.exhausted {
      NothingParkedIsCancelled(cfg, c);
      LeaveKeepsInv(cfg, c, Exit.Returned);
    } else {
      SomethingIsAwaited(cfg, c);
      WaitBegins(cfg, c, wake);
    }
  }

  lemma AskStepKeepsInv(cfg: Config, c: Core, todo: set<Fid>, f: Fid)
    requires Inv(cfg, State(c, Asking(todo))) && f in todo
    ensures f in c.inFlight
    ensures Inv(cfg, State(c.Ask(f), Asking(todo - {f})))
  {
    AskKeepsInv(cfg, c, f);
    AskTouchesNothingParked(c, f);
  }

  lemma AskTouchesNothingParked(c: Core, f: Fid)
    requires Shape(c) && Placed(c) && f in c.inFlight && Untouched(c, c.retryWait.Keys)
    ensures Untouched(c.Ask(f), c.retryWait.Keys)
  {
    FlightIsAlone(c, f);
    assert c.inFlight[f] !in c.retryWait;
  }

  lemma ResubmitStepKeepsInv(cfg: Config, c: Core, now: real, due: set<Wid>, w: Wid)
    requires Inv(cfg, State(c, Resubmitting(now, due))) && w in due
    ensures w in c.retryWait
    ensures Inv(cfg, State(c.Resubmit(w), Resubmitting(now, due - {w})))
  {
    ResubmitKeepsInv(cfg, c, w);
  }

  lemma PullStepKeepsInv(cfg: Config, s: State)
    requires Inv(cfg, s) && s.pc.Pulling? && !s.core.exhausted
    ensures Inv(cfg, DoPull(cfg, s))
  {
    match cfg.input(s.core.nextIndex)
    case Next(arg) => PullKeepsInv(cfg, s.core, arg);
    case Stop => ExhaustKeepsInv(cfg, s.core);
    case Broken(e) =>
      NothingParkedIsCancelled(cfg, s.core);
      LeaveKeepsInv(cfg, s.core, InputRaised(e));
  }

  lemma CollectStepKeepsInv(cfg: Config, s: State, f: Fid, delay: real, due: real)
    requires Inv(cfg, s) && Can(cfg, s, CollectOne(f, delay, due))
    ensures Inv(cfg, Do(cfg, s, CollectOne(f, delay, due)))
  {
    var c := s.core;
    CollectStep(cfg, s, f, delay, due);
    if f in c.abandoned {
      DropStepOfCollect(cfg, c, s.pc.done, f);
    } else if c.items[c.inFlight[f]].state == RetryWait {
      ParkStepOfCollect(cfg, c, s.pc.done, f, delay, due);
    } else {
      DeliverStepOfCollect(cfg, c, s.pc.done, f);
    }
  }

  lemma DropStepOfCollect(cfg: Config, c: Core, done: set<Fid>, f: Fid)
    requires Inv(cfg, State(c, Collecting(done))) && f in done && f in c.abandoned
    ensures Inv(cfg, State(c.DropAbandoned(f), Collecting(done - {f})))
  {
    DropAbandonedKeepsInv(cfg, c, f);
  }

  lemma ParkStepOfCollect(cfg: Config, c: Core, done: set<Fid>, f: Fid, delay: real, due: real)
    requires Inv(cfg, State(c, Collecting(done))) && f in done && f in c.inFlight && due == c.clock + delay
    requires c.items[c.inFlight[f]].state == RetryWait && cfg.MayDelay(c.items[c.inFlight[f]].attempts, delay)
    ensures Inv(cfg, State(c.(inFlight := c.inFlight - {f}).Park(c.inFlight[f], delay, due), Collecting(done - {f})))
  {
    CollectParkKeepsInv(cfg, c, f, delay, due);
  }

  lemma DeliverStepOfCollect(cfg: Config, c: Core, done: set<Fid>, f: Fid)
    requires Inv(cfg, State(c, Collecting(done))) && f in done && f in c.inFlight
    requires c.items[c.inFlight[f]].state != RetryWait
    ensures Inv(cfg, State(c.(inFlight := c.inFlight - {f}).Deliver(c.inFlight[f]),
                           Yielding(c.inFlight[f], OfCollect(done - {f}))))
  {
    CollectDeliverKeepsInv(cfg, c, f);
    DeliveryKeepsPc(cfg, c, done, f);
  }

  lemma DeliveryKeepsPc(cfg: Config, c: Core, done: set<Fid>, f: Fid)
    requires Shape(c) && PcInv(cfg, State(c, Collecting(done))) && f in c.inFlight
    ensures PcInv(cfg, State(c.(inFlight := c.inFlight - {f}).Deliver(c.inFlight[f]),
                             Yielding(c.inFlight[f], OfCollect(done - {f}))))
  {
  }

  lemma RetryWaitNeedsPolicy(cfg: Config, c: Core, f: Fid)
    requires CoreInv(cfg, c) && f in c.inFlight && c.futures[f].phase.Done?
    ensures c.items[c.inFlight[f]].state == RetryWait ==> cfg.retry.Some?
  {
    FlightRecord(cfg, c, f);
  }

  /** The three things that can happen to a completed future. */
  lemma CollectStep(cfg: Config, s: State, f: Fid, delay: real, due: real)
    requires Inv(cfg, s) && Can(cfg, s, CollectOne(f, delay, due))
    ensures f in s.core.abandoned || f in s.core.inFlight
    ensures Do(cfg, s, CollectOne(f, delay, due)) ==
            var c, rest := s.core, s.pc.done - {f};
            if f in c.abandoned then State(c.DropAbandoned(f), Collecting(rest))
            else
              var w := c.inFlight[f];
              var e := c.(inFlight := c.inFlight - {f});
              if c.items[w].state == RetryWait then State(e.Park(w, delay, due), Collecting(rest))
              else State(e.Deliver(w), Yielding(w, OfCollect(rest)))
  {
    if f !in s.core.abandoned {
      RecordingFindsNothing(cfg, s.core, f);
      RetryWaitNeedsPolicy(cfg, s.core, f);
      CollectInFlight(cfg, s, f, delay, due);
    }
  }

  lemma CollectInFlight(cfg: Config, s: State, f: Fid, delay: real, due: real)
    requires s.pc.Collecting? && KeyPresent(s.core, f) && s.core.futures[f].phase.Done? && !s.core.broken
    requires s.core.Retire(f) == s.core.(inFlight := s.core.inFlight - {f})
    requires s.core.items[s.core.inFlight[f]].state == RetryWait ==> cfg.retry.Some?
    ensures var w, rest := s.core.inFlight[f], s.pc.done - {f};
            var e := s.core.(inFlight := s.core.inFlight - {f});
            DoCollect(cfg, s, f, delay, due)
            == if s.core.items[w].state == RetryWait then State(e.Park(w, delay, due), Collecting(rest))
               else State(e.Deliver(w), Yielding(w, OfCollect(rest)))
  {
    var e := s.core.(inFlight := s.core.inFlight - {f});
    assert cfg.retry.Some? ==> e.(broken := e.broken || cfg.retry.None?) == e;
  }

  lemma ScanStepKeepsInv(cfg: Config, s: State, f: Fid, delay: real, due: real)
    requires cfg.Valid() && Inv(cfg, s) && Can(cfg, s, ScanOne(f, delay, due))
    ensures Inv(cfg, Do(cfg, s, ScanOne(f, delay, due)))
  {
    var c, now, tt := s.core, s.pc.now, cfg.taskTimeout.value;
    ScanStep(cfg, s, f, delay, due);
    if Expired(c.items[c.inFlight[f]], now, tt) {
      if cfg.RetriesTimeout(c.items[c.inFlight[f]].attempts) {
        ScanParkStepKeepsInv(cfg, c, now, s.pc.todo, f, delay, due);
      } else {
        ScanDeliverStepKeepsInv(cfg, c, now, s.pc.todo, f);
      }
    }
  }

  lemma ScanParkStepKeepsInv(cfg: Config, c: Core, now: real, todo: set<Fid>, f: Fid, delay: real, due: real)
    requires cfg.Valid() && Inv(cfg, State(c, Scanning(now, todo))) && f in todo && due == c.clock + delay
    requires Expired(c.items[c.inFlight[f]], now, cfg.taskTimeout.value)
    requires cfg.RetriesTimeout(c.items[c.inFlight[f]].attempts)
    requires cfg.MayDelay(c.items[c.inFlight[f]].attempts, delay)
    ensures Inv(cfg, State(c.Abandon(f, now, cfg.taskTimeout.value).ParkClone(c.inFlight[f], delay, due),
                           Scanning(now, todo - {f})))
  {
    ScanParkKeepsInv(cfg, c, f, now, delay, due);
    ScanParkMoves(cfg, c, f, now, cfg.taskTimeout.value, delay, due);
  }

  lemma ScanDeliverStepKeepsInv(cfg: Config, c: Core, now: real, todo: set<Fid>, f: Fid)
    requires cfg.Valid() && Inv(cfg, State(c, Scanning(now, todo))) && f in todo
    requires Expired(c.items[c.inFlight[f]], now, cfg.taskTimeout.value)
    requires !cfg.RetriesTimeout(c.items[c.inFlight[f]].attempts)
    ensures Inv(cfg, State(c.Abandon(f, now, cfg.taskTimeout.value).Deliver(c.inFlight[f]),
                           Yielding(c.inFlight[f], OfScan(now, todo - {f}))))
  {
    ScanDeliverKeepsInv(cfg, c, f, now);
    ScanDeliverMoves(cfg, c, f, now, cfg.taskTimeout.value);
  }

  lemma ScanParkMoves(cfg: Config, c: Core, f: Fid, now: real, taskTimeout: real, delay: real, due: real)
    requires CoreInv(cfg, c) && f in c.inFlight && Expired(c.items[c.inFlight[f]], now, taskTimeout)
    ensures c.attempts[c.items[c.inFlight[f]].index] != []
    ensures var d := c.Abandon(f, now, taskTimeout).ParkClone(c.inFlight[f], delay, due);
            && d.inFlight == c.inFlight - {f} && d.abandoned == c.abandoned + {f}
            && d.retryWait == c.retryWait[|c.items| := due]
            && d.clock == c.clock && d.stopping == c.stopping && d.yielded == c.yielded
            && d.futures == c.futures && d.nextIndex == c.nextIndex && d.exhausted == c.exhausted
            && d == Cloned(c, f, now, due, OverranHistory(c.attempts[c.items[c.inFlight[f]].index], now, delay))
  {
    AbandonSevers(cfg, c, f, now, taskTimeout);
    ParkCloneClones(c, f, now, delay, due);
  }

  lemma ScanDeliverMoves(cfg: Config, c: Core, f: Fid, now: real, taskTimeout: real)
    requires CoreInv(cfg, c) && f in c.inFlight && Expired(c.items[c.inFlight[f]], now, taskTimeout)
    ensures c.attempts[c.items[c.inFlight[f]].index] != []
    ensures var d := c.Abandon(f, now, taskTimeout).Deliver(c.inFlight[f]);
            && d.inFlight == c.inFlight - {f} && d.abandoned == c.abandoned + {f}
            && d.retryWait == c.retryWait
            && d.clock == c.clock && d.stopping == c.stopping && d.yielded == c.yielded + [c.inFlight[f]]
            && d.futures == c.futures && d.nextIndex == c.nextIndex && d.exhausted == c.exhausted
            && d == GivenUp(c, f, now, OverranHistory(c.attempts[c.items[c.inFlight[f]].index], now, 0.0))
  {
    AbandonSevers(cfg, c, f, now, taskTimeout);
  }

  /** The three things that can happen to a scanned execution. */
  lemma ScanStep(cfg: Config, s: State, f: Fid, delay: real, due: real)
    requires Inv(cfg, s) && Can(cfg, s, ScanOne(f, delay, due))
    ensures f in s.core.inFlight && cfg.taskTimeout.Some?
    ensures Do(cfg, s, ScanOne(f, delay, due)) ==
            var c, now, rest, tt := s.core, s.pc.now, s.pc.todo - {f}, cfg.taskTimeout.value;
            var w := c.inFlight[f];
            if !Expired(c.items[w], now, tt) then s.(pc := Scanning(now, rest))
            else if cfg.RetriesTimeout(c.items[w].attempts) then
              State(c.Abandon(f, now, tt).ParkClone(w, delay, due), Scanning(now, rest))
            else
              State(c.Abandon(f, now, tt).Deliver(w), Yielding(w, OfScan(now, rest)))
  {
    var c := s.core;
    if Expired(c.items[c.inFlight[f]], s.pc.now, cfg.taskTimeout.value) {
      AbandonSevers(cfg, c, f, s.pc.now, cfg.taskTimeout.value);
    }
  }

  lemma CancelStepKeepsInv(cfg: Config, c: Core, why: Exit, todo: set<Fid>, f: Fid)
    requires Inv(cfg, State(c, Cancelling(why, todo))) && f in todo
    ensures f in c.inFlight
    ensures Inv(cfg, State(c.CancelFuture(f), Cancelling(why, todo - {f})))
  {
    CancelFutureKeepsInv(cfg, c, f);
    CancelledIsDrained(cfg, c, f, todo);
  }

  lemma CancelledIsDrained(cfg: Config, c: Core, f: Fid, todo: set<Fid>)
    requires CoreInv(cfg, c) && c.stopping && f in c.inFlight
    requires Drained(c, todo) && Untouched(c, c.retryWait.Keys)
    ensures var d := c.CancelFuture(f);
            && d.inFlight == c.inFlight && d.retryWait == c.retryWait && d.exhausted == c.exhausted
            && d.stopping == c.stopping
            && Drained(d, todo - {f}) && Untouched(d, d.retryWait.Keys)
  {
    FlightIsAlone(c, f);
    assert c.inFlight[f] !in c.retryWait;
  }

  lemma DropStepKeepsInv(cfg: Config, c: Core, why: Exit, parked: set<Wid>, w: Wid)
    requires Inv(cfg, State(c, Dropping(why, parked))) && w in parked
    ensures w < |c.items|
    ensures Inv(cfg, State(c.CancelParked(w), Dropping(why, parked - {w})))
  {
    CancelParkedKeepsInv(cfg, c, w);
    DroppedIsCancelled(c, parked, w);
  }

  lemma DroppedIsCancelled(c: Core, parked: set<Wid>, w: Wid)
    requires Untouched(c, parked) && Emptied(c, parked) && w in parked
    ensures Untouched(c.CancelParked(w), parked - {w}) && Emptied(c.CancelParked(w), parked - {w})
  {
  }

  lemma LoopStepsKeepInv(cfg: Config, s: State, a: Action)
    requires Inv(cfg, s) && Can(cfg, s, a) && (a.AskOne? || a.ResubmitOne?)
    ensures Inv(cfg, Do(cfg, s, a))
  {
    match a
    case AskOne(f) => AskStepKeepsInv(cfg, s.core, s.pc.todo, f);
    case ResubmitOne(w) => ResubmitStepKeepsInv(cfg, s.core, s.pc.now, s.pc.due, w);
  }

  lemma ConsumerStepsKeepInv(cfg: Config, s: State, a: Action)
    requires cfg.Valid() && Inv(cfg, s) && Can(cfg, s, a)
    requires a.Wake? || a.Interrupt? || a.Resume? || a.CloseHere?
    ensures Inv(cfg, Do(cfg, s, a))
  {
    if a.Interrupt? || a.CloseHere? {
      NothingParkedIsCancelled(cfg, s.core);
      LeaveKeepsInv(cfg, s.core, if a.Interrupt? then Interrupted else ClosedByConsumer);
    }
  }

  lemma TeardownStepsKeepInv(cfg: Config, s: State, a: Action)
    requires Inv(cfg, s) && Can(cfg, s, a) && (a.CancelOne? || a.DropOne?)
    ensures Inv(cfg, Do(cfg, s, a))
  {
    match a
    case CancelOne(f) => CancelStepKeepsInv(cfg, s.core, s.pc.why, s.pc.todo, f);
    case DropOne(w) => DropStepKeepsInv(cfg, s.core, s.pc.why, s.pc.parked, w);
  }

  /** No action takes a run out of the invariant. */
  lemma StepKeepsInv(cfg: Config, s: State, a: Action)
    requires cfg.Valid() && Inv(cfg, s) && Can(cfg, s, a)
    ensures Inv(cfg, Do(cfg, s, a))
  {
    if ByOthers(a) {
      WorkersKeepInv(cfg, s, a);
    } else if a.CollectOne? {
      CollectStepKeepsInv(cfg, s, a.f, a.delay, a.due);
    } else if a.ScanOne? {
      ScanStepKeepsInv(cfg, s, a.f, a.delay, a.due);
    } else if a.CancelOne? || a.DropOne? {
      TeardownStepsKeepInv(cfg, s, a);
    } else if a.Wake? || a.Interrupt? || a.Resume? || a.CloseHere? {
      ConsumerStepsKeepInv(cfg, s, a);
    } else if a.Enter? {
      EnterKeepsInv(cfg, s, a.wake);
    } else if a.PullOne? {
      PullStepKeepsInv(cfg, s);
    } else {
      LoopStepsKeepInv(cfg, s, a);
    }
  }

  lemma {:induction false} PathKeepsInv(cfg: Config, s: State, acts: seq<Action>, t: State)
    requires cfg.Valid() && Inv(cfg, s) && Path(cfg, s, acts, t)
    ensures Inv(cfg, t)
    decreases |acts|
  {
    if acts != [] {
      StepKeepsInv(cfg, s, acts[0]);
      PathKeepsInv(cfg, Do(cfg, s, acts[0]), acts[1..], t);
    }
  }

  /** The invariant holds at every moment of every run. */
  lemma ReachableStatesAreSound(cfg: Config, s: State)
    requires cfg.Valid() && Reachable(cfg, s)
    ensures Inv(cfg, s)
  {
    var acts :| Path(cfg, Init(), acts, s);
    PathKeepsInv(cfg, Init(), acts, s);
  }
}

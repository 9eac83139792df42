/** What each action does to the fields of a run that are not history: the equations between the
    protocol and the code that carries it out. None of the moves made on an item is illegal. */
module Effects {
  import opened TaskStates
  import opened Numbers
  import opened Retry
  import opened WorkItems
  import opened Protocol
  import opened Invariants
  import opened Preservation
  import opened Steps
  import opened Safety

  /** d differs from c at most in items, futures and history. */
  predicate SameBooks(c: Core, d: Core) {
    && d.clock == c.clock && d.requested == c.requested
    && d.inFlight == c.inFlight && d.retryWait == c.retryWait && d.abandoned == c.abandoned
    && d.nextIndex == c.nextIndex && d.exhausted == c.exhausted && d.yielded == c.yielded
  }

  // --- workers ---

  lemma BeginEffect(cfg: Config, s: State, f: Fid)
    requires cfg.Valid() && Reachable(cfg, s) && Can(cfg, s, Begin(f))
    ensures var c, d := s.core, Do(cfg, s, Begin(f)).core;
            var m := StartExecution(c.WorkOf(f), c.clock);
            && m.legal && SameBooks(c, d)
            && d.items == c.items[c.futures[f].work := m.item]
            && d.futures == c.At(f, Executing(c.clock, c.WorkOf(f).attempts))
  {
    TakenIsPending(cfg, s, f);
  }

  lemma TakenIsPending(cfg: Config, s: State, f: Fid)
    requires cfg.Valid() && Reachable(cfg, s) && Can(cfg, s, Begin(f))
    ensures var it := s.core.WorkOf(f);
            && it.state == Pending && it.index < |s.core.attempts|
            && it.attempts == |s.core.attempts[it.index]| + 1
  {
    ReachableStatesAreSound(cfg, s);
    BusyIsNotParked(cfg, s.core, f);
    FlightRecord(cfg, s.core, f);
  }

  lemma FinishEffect(cfg: Config, s: State, f: Fid, spent: real, o: Outcome)
    requires cfg.Valid() && Reachable(cfg, s) && Can(cfg, s, Finish(f, spent))
    requires o == cfg.call(s.core.WorkOf(f).index, s.core.futures[f].phase.nth)
    ensures var c, d := s.core, Do(cfg, s, Finish(f, spent)).core;
            var m := FinishWith(c.WorkOf(f), o, spent, cfg.retry);
            && m.legal && SameBooks(c, d)
            && d.items == c.items[c.futures[f].work := m.item]
            && d.futures == c.At(f, Reported(EscapeOf(o)))
  {
    var d := Do(cfg, s, Finish(f, spent)).core;
    ReachableSnoc(cfg, s, Finish(f, spent));
    NothingBreaks(cfg, Do(cfg, s, Finish(f, spent)));
  }

  lemma OthersEffect(cfg: Config, s: State, a: Action)
    requires cfg.Valid() && Reachable(cfg, s) && Can(cfg, s, a) && ByOthers(a)
    ensures Do(cfg, s, a).pc == s.pc
    ensures SameOwned(s.core, Do(cfg, s, a).core)
  {
  }

  /** What only the coordinator changes. */
  predicate SameOwned(c: Core, d: Core) {
    && d.inFlight == c.inFlight && d.retryWait == c.retryWait && d.abandoned == c.abandoned
    && d.nextIndex == c.nextIndex && d.exhausted == c.exhausted && d.yielded == c.yielded
    && c.clock <= d.clock && (c.requested ==> d.requested)
  }

  /** These actions one after the other, those skipped that are not the others' or not possible when
      their turn comes. */
  ghost function Swept(cfg: Config, s: State, acts: seq<Action>): State {
    if acts == [] then s
    else
      var t, a := Swept(cfg, s, acts[..|acts| - 1]), acts[|acts| - 1];
      if ByOthers(a) && Can(cfg, t, a) then Do(cfg, t, a) else t
  }

  lemma {:induction false} SweptSnoc(cfg: Config, s: State, acts: seq<Action>, a: Action)
    ensures var t := Swept(cfg, s, acts);
            Swept(cfg, s, acts + [a]) == if ByOthers(a) && Can(cfg, t, a) then Do(cfg, t, a) else t
  {
    assert (acts + [a])[..|acts|] == acts;
  }

  lemma {:induction false} SweptIsReachable(cfg: Config, s: State, acts: seq<Action>)
    requires Reachable(cfg, s)
    ensures Reachable(cfg, Swept(cfg, s, acts))
  {
    if acts != [] {
      var t, a := Swept(cfg, s, acts[..|acts| - 1]), acts[|acts| - 1];
      SweptIsReachable(cfg, s, acts[..|acts| - 1]);
      if ByOthers(a) && Can(cfg, t, a) {
        ReachableSnoc(cfg, t, a);
      }
    }
  }

  // --- what the others do to an execution in flight ---

  predicate UnderWay(p: Phase) {
    p.Executing? || p.Reported? || p.Done?
  }

  /** The item of f, whose execution was under way, is not running any more. */
  predicate Stopped(c: Core, f: Fid) {
    KeyPresent(c, f) && UnderWay(c.futures[f].phase) && c.items[c.inFlight[f]].state !in {Pending, Running}
  }

  /** The item of f had not run for the whole timeout at `now`. */
  predicate InTime(c: Core, f: Fid, now: real, taskTimeout: real) {
    && KeyPresent(c, f)
    && var it := c.items[c.inFlight[f]];
       !(it.state == Running && it.startedAt.Some? && now - it.startedAt.value >= taskTimeout)
  }

  /** A worker's step leaves the item of another future alone; it begins only what is pending, and
      reports only a final state or a failure to be repeated. */
  lemma FlightAfterOthers(cfg: Config, s: State, a: Action, f: Fid)
    requires cfg.Valid() && Reachable(cfg, s) && Can(cfg, s, a) && ByOthers(a) && f in s.core.inFlight
    ensures FlightMoved(s.core, Do(cfg, s, a).core, f)
  {
    ReachableStatesAreSound(cfg, s);
    match a
    case Begin(g) => BeginTouchesItsOwn(cfg, s.core, g, f);
    case Finish(g, spent) => FinishTouchesItsOwn(cfg, s.core, g, spent, f);
    case _ => OnlyPhasesMove(cfg, s, a, f);
  }

  predicate FlightMoved(c: Core, d: Core, f: Fid) {
    && KeyPresent(c, f) && KeyPresent(d, f) && d.inFlight[f] == c.inFlight[f]
    && (UnderWay(c.futures[f].phase) ==> UnderWay(d.futures[f].phase))
    && var it, it' := c.items[c.inFlight[f]], d.items[d.inFlight[f]];
       || it' == it
       || (it.state == Pending && it'.state == Running && it'.startedAt == Some(c.clock))
       || it'.state in {Success, Failed, RetryWait}
  }

  lemma OnlyPhasesMove(cfg: Config, s: State, a: Action, f: Fid)
    requires Shape(s.core) && Can(cfg, s, a) && (a.Tick? || a.Request? || a.TakeUp? || a.Settle?)
    requires f in s.core.inFlight
    ensures FlightMoved(s.core, Do(cfg, s, a).core, f)
  {
  }

  lemma BeginTouchesItsOwn(cfg: Config, c: Core, g: Fid, f: Fid)
    requires CoreInv(cfg, c) && c.IsFuture(g) && c.futures[g].phase == Taken && f in c.inFlight
    ensures FlightMoved(c, c.Start(g), f)
  {
    BusyIsNotParked(cfg, c, g);
    FlightRecord(cfg, c, g);
  }

  lemma FinishTouchesItsOwn(cfg: Config, c: Core, g: Fid, spent: real, f: Fid)
    requires CoreInv(cfg, c) && c.IsFuture(g) && c.futures[g].phase.Executing? && f in c.inFlight
    ensures FlightMoved(c, c.Report(cfg, g, spent), f)
  {
    if g in c.abandoned {
      StaleReportChangesNothing(cfg, c, g, spent);
    } else {
      BusyIsNotParked(cfg, c, g);
      FlightRecord(cfg, c, g);
      ReportsDecide(c.WorkOf(g), cfg.call(c.WorkOf(g).index, c.futures[g].phase.nth), spent, cfg.retry);
    }
  }

  lemma ReportsDecide(it: Item, o: Outcome, spent: real, retry: Option<RetryPolicy>)
    requires it.state == Running || it.state == CancellationRequested
    ensures FinishWith(it, o, spent, retry).item.state in {Success, Failed, RetryWait}
  {
  }

  /** Whatever the others do meanwhile: what has stopped stays stopped, and what was in time at `now`
      is not late for `now` afterwards. */
  lemma {:induction false} SweptFlight(cfg: Config, s: State, acts: seq<Action>, f: Fid, now: real, taskTimeout: real)
    requires cfg.Valid() && Reachable(cfg, s) && f in s.core.inFlight && now <= s.core.clock && taskTimeout > 0.0
    ensures var c, d := s.core, Swept(cfg, s, acts).core;
            && SameOwned(c, d) && Swept(cfg, s, acts).pc == s.pc && KeyPresent(c, f) && KeyPresent(d, f)
            && (Stopped(c, f) ==> Stopped(d, f))
            && (UnderWay(c.futures[f].phase) ==> UnderWay(d.futures[f].phase))
            && (InTime(c, f, now, taskTimeout) ==> InTime(d, f, now, taskTimeout))
  {
    if acts == [] {
      InFlightKeyExists(cfg, s, f);
    } else {
      var before, a := acts[..|acts| - 1], acts[|acts| - 1];
      var t := Swept(cfg, s, before);
      SweptFlight(cfg, s, before, f, now, taskTimeout);
      SweptIsReachable(cfg, s, before);
      if ByOthers(a) && Can(cfg, t, a) {
        OthersEffect(cfg, t, a);
        FlightAfterOthers(cfg, t, a, f);
      }
    }
  }

  lemma InFlightKeyExists(cfg: Config, s: State, f: Fid)
    requires cfg.Valid() && Reachable(cfg, s) && f in s.core.inFlight
    ensures KeyPresent(s.core, f)
  {
    ReachableStatesAreSound(cfg, s);
  }

  // --- the coordinator ---

  lemma AskEffect(cfg: Config, s: State, f: Fid)
    requires cfg.Valid() && Reachable(cfg, s) && Can(cfg, s, AskOne(f))
    ensures KeyPresent(s.core, f)
    ensures var c, d := s.core, Do(cfg, s, AskOne(f)).core;
            var m := RequestCancellation(c.items[c.inFlight[f]]);
            m.legal && d == c.(items := c.items[c.inFlight[f] := m.item])
  {
    ReachableStatesAreSound(cfg, s);
    ReachableSnoc(cfg, s, AskOne(f));
    NothingBreaks(cfg, Do(cfg, s, AskOne(f)));
  }

  lemma PullEffect(cfg: Config, s: State, arg: Value)
    requires Can(cfg, s, PullOne) && cfg.input(s.core.nextIndex) == Next(arg)
    ensures Do(cfg, s, PullOne) == s.(core := s.core.PullItem(arg))
  {
  }

  lemma ResubmitEffect(cfg: Config, s: State, w: Wid)
    requires cfg.Valid() && Reachable(cfg, s) && Can(cfg, s, ResubmitOne(w))
    ensures w in s.core.retryWait && w < |s.core.items|
    ensures Do(cfg, s, ResubmitOne(w)) == State(s.core.Resubmit(w), Resubmitting(s.pc.now, s.pc.due - {w}))
    ensures Rearm(s.core.items[w]).legal
  {
    ReachableStatesAreSound(cfg, s);
    ReachableSnoc(cfg, s, ResubmitOne(w));
    NothingBreaks(cfg, Do(cfg, s, ResubmitOne(w)));
  }

  /** What a completed future is found to be, before anything is decided about it. */
  lemma CompletionIsKnown(cfg: Config, s: State, f: Fid)
    requires cfg.Valid() && Reachable(cfg, s) && s.pc.Collecting? && f in s.pc.done
    ensures if f in s.core.abandoned then f !in s.core.inFlight
            else
              && KeyPresent(s.core, f) && s.core.futures[f].phase.Done?
              && var it := s.core.items[s.core.inFlight[f]];
                 && RecordEscaped(it, s.core.futures[f].phase.escaped) == Moved(it, true)
                 && (it.state == RetryWait ==> cfg.retry.Some?)
                 && (it.state == RetryWait || it.state.Terminal())
  {
    ReachableStatesAreSound(cfg, s);
    if f !in s.core.abandoned {
      DoneRecord(cfg, s.core, f);
    }
  }

  lemma ScannedIsInFlight(cfg: Config, s: State, f: Fid)
    requires cfg.Valid() && Reachable(cfg, s) && s.pc.Scanning? && f in s.pc.todo
    ensures KeyPresent(s.core, f) && cfg.taskTimeout.Some?
  {
    ReachableStatesAreSound(cfg, s);
  }

  /** d is c without the in-flight future f, and with these parked items and deliveries. */
  predicate Retired(c: Core, d: Core, f: Fid, retryWait: map<Wid, real>, yielded: seq<Wid>) {
    && d.futures == c.futures && d.clock == c.clock && d.requested == c.requested
    && d.nextIndex == c.nextIndex && d.exhausted == c.exhausted
    && d.inFlight == c.inFlight - {f} && d.abandoned == c.abandoned
    && d.items == c.items && d.retryWait == retryWait && d.yielded == yielded
  }

  lemma CollectEffect(cfg: Config, s: State, f: Fid, delay: real, due: real)
    requires cfg.Valid() && Reachable(cfg, s) && Can(cfg, s, CollectOne(f, delay, due))
    ensures f in s.core.abandoned || KeyPresent(s.core, f)
    ensures var c, rest, t := s.core, s.pc.done - {f}, Do(cfg, s, CollectOne(f, delay, due));
            if f in c.abandoned then t == State(c.DropAbandoned(f), Collecting(rest))
            else
              var w := c.inFlight[f];
              if c.items[w].state == RetryWait then
                Retired(c, t.core, f, c.retryWait[w := due], c.yielded) && t.pc == Collecting(rest)
              else
                Retired(c, t.core, f, c.retryWait, c.yielded + [w]) && t.pc == Yielding(w, OfCollect(rest))
  {
    ReachableStatesAreSound(cfg, s);
    CollectStep(cfg, s, f, delay, due);
  }

  lemma ScanPassEffect(cfg: Config, s: State, f: Fid, delay: real, due: real)
    requires cfg.Valid() && Reachable(cfg, s) && Can(cfg, s, ScanOne(f, delay, due))
    requires KeyPresent(s.core, f) && cfg.taskTimeout.Some?
    requires !Expired(s.core.items[s.core.inFlight[f]], s.pc.now, cfg.taskTimeout.value)
    ensures Do(cfg, s, ScanOne(f, delay, due)) == State(s.core, Scanning(s.pc.now, s.pc.todo - {f}))
  {
  }

  lemma DoneRecord(cfg: Config, c: Core, f: Fid)
    requires CoreInv(cfg, c) && f in c.inFlight && c.futures[f].phase.Done?
    ensures var it := c.items[c.inFlight[f]];
            && RecordEscaped(it, c.futures[f].phase.escaped) == Moved(it, true)
            && (it.state == RetryWait ==> cfg.retry.Some?)
            && (it.state == RetryWait || it.state.Terminal())
  {
    FlightRecord(cfg, c, f);
  }

  /** d is c with f abandoned, and these items, parked items and deliveries. */
  predicate GaveUp(c: Core, d: Core, f: Fid, items: seq<Item>, retryWait: map<Wid, real>, yielded: seq<Wid>) {
    && d.futures == c.futures && d.clock == c.clock && d.requested == c.requested
    && d.nextIndex == c.nextIndex && d.exhausted == c.exhausted
    && d.inFlight == c.inFlight - {f} && d.abandoned == c.abandoned + {f}
    && d.items == items && d.retryWait == retryWait && d.yielded == yielded
  }

  /** A clone of the timed-out item is parked. */
  lemma ScanParkEffect(cfg: Config, s: State, f: Fid, delay: real, due: real)
    requires cfg.Valid() && Reachable(cfg, s) && Can(cfg, s, ScanOne(f, delay, due))
    requires KeyPresent(s.core, f) && cfg.taskTimeout.Some?
    requires Expired(s.core.items[s.core.inFlight[f]], s.pc.now, cfg.taskTimeout.value)
    requires cfg.RetriesTimeout(s.core.items[s.core.inFlight[f]].attempts)
    ensures var c, t := s.core, Do(cfg, s, ScanOne(f, delay, due));
            var w := c.inFlight[f];
            var it := TimeOutIfExpired(c.items[w], s.pc.now, cfg.taskTimeout.value).item;
            && GaveUp(c, t.core, f, c.items[w := it] + [RetryClone(it)], c.retryWait[|c.items| := due], c.yielded)
            && t.pc == Scanning(s.pc.now, s.pc.todo - {f})
  {
    ReachableStatesAreSound(cfg, s);
    ScanStep(cfg, s, f, delay, due);
    ScanParkMoves(cfg, s.core, f, s.pc.now, cfg.taskTimeout.value, delay, due);
  }

  /** The timed-out item is delivered. */
  lemma ScanDeliverEffect(cfg: Config, s: State, f: Fid, delay: real, due: real)
    requires cfg.Valid() && Reachable(cfg, s) && Can(cfg, s, ScanOne(f, delay, due))
    requires KeyPresent(s.core, f) && cfg.taskTimeout.Some?
    requires Expired(s.core.items[s.core.inFlight[f]], s.pc.now, cfg.taskTimeout.value)
    requires !cfg.RetriesTimeout(s.core.items[s.core.inFlight[f]].attempts)
    ensures var c, t := s.core, Do(cfg, s, ScanOne(f, delay, due));
            var w := c.inFlight[f];
            var it := TimeOutIfExpired(c.items[w], s.pc.now, cfg.taskTimeout.value).item;
            && GaveUp(c, t.core, f, c.items[w := it], c.retryWait, c.yielded + [w])
            && t.pc == Yielding(w, OfScan(s.pc.now, s.pc.todo - {f}))
  {
    ReachableStatesAreSound(cfg, s);
    ScanStep(cfg, s, f, delay, due);
    ScanDeliverMoves(cfg, s.core, f, s.pc.now, cfg.taskTimeout.value);
  }

  lemma CancelEffect(cfg: Config, s: State, f: Fid)
    requires cfg.Valid() && Reachable(cfg, s) && Can(cfg, s, CancelOne(f))
    ensures KeyPresent(s.core, f)
    ensures var c, d := s.core, Do(cfg, s, CancelOne(f)).core;
            var m := Cancel(c.items[c.inFlight[f]]);
            if c.futures[f].phase == Queued then
              m.legal && d == c.(futures := c.At(f, Withdrawn), items := c.items[c.inFlight[f] := m.item])
            else d == c
  {
    ReachableStatesAreSound(cfg, s);
    ReachableSnoc(cfg, s, CancelOne(f));
    NothingBreaks(cfg, Do(cfg, s, CancelOne(f)));
  }

  lemma DropEffect(cfg: Config, s: State, w: Wid)
    requires cfg.Valid() && Reachable(cfg, s) && Can(cfg, s, DropOne(w))
    ensures w < |s.core.items|
    ensures var c, d := s.core, Do(cfg, s, DropOne(w)).core;
            var m := Cancel(c.items[w]);
            m.legal && d == c.(items := c.items[w := m.item])
  {
    ReachableStatesAreSound(cfg, s);
    ReachableSnoc(cfg, s, DropOne(w));
    NothingBreaks(cfg, Do(cfg, s, DropOne(w)));
  }

  // --- the wait ---

  /** The deadlines of the running items among these futures. */
  function DeadlinesOf(c: Core, taskTimeout: real, fs: set<Fid>): set<real> {
    set f | f in fs && f in c.inFlight && c.inFlight[f] < |c.items|
            && RunningDeadline(c.items[c.inFlight[f]], taskTimeout).Some?
          :: RunningDeadline(c.items[c.inFlight[f]], taskTimeout).value
  }

  lemma OneMoreDeadline(c: Core, taskTimeout: real, fs: set<Fid>, f: Fid)
    requires f in c.inFlight && c.inFlight[f] < |c.items|
    ensures var d := RunningDeadline(c.items[c.inFlight[f]], taskTimeout);
            DeadlinesOf(c, taskTimeout, fs + {f})
            == DeadlinesOf(c, taskTimeout, fs) + if d.Some? then {d.value} else {}
  {
  }

  lemma AllDeadlines(c: Core, taskTimeout: real)
    ensures DeadlinesOf(c, taskTimeout, c.inFlight.Keys) == Deadlines(c, taskTimeout)
  {
  }

  /** t is the least of ts, if there are any. */
  ghost predicate Earliest(t: Option<real>, ts: set<real>) {
    if t.None? then ts == {} else IsMin(t.value, ts)
  }

  function Sooner(a: Option<real>, b: Option<real>): Option<real> {
    if a.None? then b else if b.None? then a else Some(if b.value < a.value then b.value else a.value)
  }

  lemma SoonerIsEarliest(a: Option<real>, ts: set<real>, b: Option<real>, us: set<real>)
    requires Earliest(a, ts) && Earliest(b, us)
    ensures Earliest(Sooner(a, b), ts + us)
  {
    if a.Some? && b.Some? {
      MinOfUnion(ts, a.value, us, b.value);
    } else if a.None? {
      assert ts + us == us;
    } else {
      assert ts + us == ts;
    }
  }

  lemma CandidatesAreThese(cfg: Config, c: Core, due: Option<real>, deadline: Option<real>)
    requires Earliest(due, Dues(c)) && Earliest(deadline, TaskDeadlines(cfg, c))
    ensures Earliest(Sooner(Sooner(due, cfg.OverallDeadline()), deadline), Candidates(cfg, c))
  {
    var overall := OverallDeadlines(cfg);
    assert Earliest(cfg.OverallDeadline(), overall);
    SoonerIsEarliest(due, Dues(c), cfg.OverallDeadline(), overall);
    SoonerIsEarliest(Sooner(due, cfg.OverallDeadline()), Dues(c) + overall, deadline, TaskDeadlines(cfg, c));
  }

  lemma InFlightKeysExist(cfg: Config, s: State)
    requires cfg.Valid() && Reachable(cfg, s)
    ensures forall f :: f in s.core.inFlight ==> KeyPresent(s.core, f)
  {
    ReachableStatesAreSound(cfg, s);
  }

  /** Each pull fills the window further or finds the input at its end. */
  lemma PullingFills(cfg: Config, s: State)
    requires cfg.Valid() && Reachable(cfg, s) && Can(cfg, s, PullOne)
    ensures var c, d := s.core, Do(cfg, s, PullOne).core;
            d.exhausted || d.Load() == c.Load() + 1 || cfg.input(c.nextIndex).Broken?
    ensures !cfg.input(s.core.nextIndex).Broken? ==> Do(cfg, s, PullOne).pc == s.pc
  {
    ReachableStatesAreSound(cfg, s);
    if cfg.input(s.core.nextIndex).Next? {
      assert |s.core.futures| !in s.core.inFlight;
    }
  }

  lemma YieldedItemsExist(cfg: Config, s: State)
    requires cfg.Valid() && Reachable(cfg, s)
    ensures forall k :: 0 <= k < |s.core.yielded| ==> s.core.yielded[k] < |s.core.items|
  {
    ReachableStatesAreSound(cfg, s);
  }
}

/** What a run guarantees: nothing is lost or delivered twice, every item moves only along the
    table, the first finalizer of an item is the last to touch it, and what the consumer gets is
    what a sequential retry loop would have got. */
module Safety {
  import opened TaskStates
  import opened Numbers
  import opened Retry
  import opened WorkItems
  import opened Protocol
  import opened Invariants
  import opened Preservation
  import opened Steps

  // --- conservation ---

  function YieldedIndices(c: Core): set<nat> {
    set k | 0 <= k < |c.yielded| && c.yielded[k] < |c.items| :: c.items[c.yielded[k]].index
  }

  function InFlightIndices(c: Core): set<nat> {
    set f | f in c.inFlight && c.inFlight[f] < |c.items| :: c.items[c.inFlight[f]].index
  }

  function ParkedIndices(c: Core): set<nat> {
    set w | w in c.retryWait && w < |c.items| :: c.items[w].index
  }

  /** Different entries of a container stand for different indices. */
  ghost predicate OncePerIndex(c: Core)
    requires Shape(c)
  {
    && (forall j, k :: 0 <= j < k < |c.yielded| ==>
          c.items[c.yielded[j]].index != c.items[c.yielded[k]].index)
    && (forall f, g :: f in c.inFlight && g in c.inFlight && f != g ==>
          c.items[c.inFlight[f]].index != c.items[c.inFlight[g]].index)
    && (forall v, w :: v in c.retryWait && w in c.retryWait && v != w ==>
          c.items[v].index != c.items[w].index)
  }

  /** The pulled indices are the disjoint union of those delivered, in flight and backing off. */
  ghost predicate Conserved(c: Core) {
    && YieldedIndices(c) !! InFlightIndices(c) !! ParkedIndices(c)
    && YieldedIndices(c) + InFlightIndices(c) + ParkedIndices(c) == UpTo(c.nextIndex)
  }

  lemma PlacesAreApart(c: Core)
    requires Shape(c) && Placed(c)
    ensures OncePerIndex(c)
  {
    forall j, k | 0 <= j < k < |c.yielded| ensures c.items[c.yielded[j]].index != c.items[c.yielded[k]].index {
      assert c.slots[c.items[c.yielded[j]].index] == Delivered(j);
      assert c.slots[c.items[c.yielded[k]].index] == Delivered(k);
    }
    forall f, g | f in c.inFlight && g in c.inFlight && f != g
      ensures c.items[c.inFlight[f]].index != c.items[c.inFlight[g]].index
    {
      FlightsAreApart(c, f, g);
    }
  }

  lemma PlacesArePartitioned(c: Core)
    requires Shape(c) && Placed(c)
    ensures Conserved(c)
  {
    forall i: nat {
      PlaceOfIndex(c, i);
    }
    KindsPartition(c.slots, YieldedIndices(c), InFlightIndices(c), ParkedIndices(c));
  }

  lemma {:induction false} KindsPartition(slots: seq<Slot>, ys: set<nat>, fs: set<nat>, ps: set<nat>)
    requires forall i: nat :: i in ys <==> i < |slots| && slots[i].Delivered?
    requires forall i: nat :: i in fs <==> i < |slots| && slots[i].InFlight?
    requires forall i: nat :: i in ps <==> i < |slots| && slots[i].Backoff?
    ensures ys !! fs !! ps && ys + fs + ps == UpTo(|slots|)
  {
  }

  lemma PlaceOfIndex(c: Core, i: nat)
    requires Shape(c) && Placed(c)
    ensures i in YieldedIndices(c) <==> i < c.nextIndex && c.slots[i].Delivered?
    ensures i in InFlightIndices(c) <==> i < c.nextIndex && c.slots[i].InFlight?
    ensures i in ParkedIndices(c) <==> i < c.nextIndex && c.slots[i].Backoff?
  {
  }

  /** At every moment every pulled index is in exactly one place, and is there once. */
  lemma IndicesAreConserved(cfg: Config, s: State)
    requires cfg.Valid() && Reachable(cfg, s)
    ensures Shape(s.core) && OncePerIndex(s.core)
    ensures Conserved(s.core)
  {
    ReachableStatesAreSound(cfg, s);
    PlacesAreApart(s.core);
    PlacesArePartitioned(s.core);
  }

  /** The indices of the delivered items, in the order of delivery. */
  function Stream(c: Core): seq<nat> {
    seq(|c.yielded|, k requires 0 <= k < |c.yielded| =>
      if c.yielded[k] < |c.items| then c.items[c.yielded[k]].index else 0)
  }

  /** A run that returns has delivered its whole input, whatever abandoned executions still run. */
  lemma ReturningMeansEverythingWasDelivered(cfg: Config, s: State)
    requires cfg.Valid() && Reachable(cfg, s)
    requires s.pc.Closed? && s.pc.why == Exit.Returned
    ensures cfg.input(s.core.nextIndex) == Stop
    ensures forall i :: 0 <= i < s.core.nextIndex ==> cfg.input(i).Next?
    ensures YieldedIndices(s.core) == UpTo(s.core.nextIndex)
    ensures |s.core.yielded| == s.core.nextIndex
  {
    ReachableStatesAreSound(cfg, s);
    AllWasDelivered(cfg, s.core);
  }

  lemma AllWasDelivered(cfg: Config, c: Core)
    requires Shape(c) && Placed(c) && Sourced(cfg, c)
    requires c.inFlight == map[] && c.retryWait == map[] && c.exhausted
    ensures YieldedIndices(c) == UpTo(c.nextIndex)
    ensures |c.yielded| == c.nextIndex
  {
    PlacesArePartitioned(c);
    NothingHeldElsewhere(c);
    DeliveriesAreCounted(c);
  }

  lemma NothingHeldElsewhere(c: Core)
    requires Conserved(c) && c.inFlight == map[] && c.retryWait == map[]
    ensures YieldedIndices(c) == UpTo(c.nextIndex)
  {
    assert InFlightIndices(c) == {} && ParkedIndices(c) == {};
  }

  lemma DeliveriesAreCounted(c: Core)
    requires Shape(c) && Placed(c)
    ensures |YieldedIndices(c)| == |c.yielded|
  {
    PlacesAreApart(c);
    DistinctNumbersCount(Stream(c));
    assert Elements(Stream(c)) == YieldedIndices(c) by {
      forall i | i in YieldedIndices(c) ensures i in Stream(c) {
        var k :| 0 <= k < |c.yielded| && c.yielded[k] < |c.items| && c.items[c.yielded[k]].index == i;
        assert Stream(c)[k] == i;
      }
    }
  }

  // --- legal moves and single finalization ---

  /** No reachable interleaving attempts a transition outside the table or trips an internal
      assertion or a dictionary lookup of the coordinator. */
  lemma NothingBreaks(cfg: Config, s: State)
    requires cfg.Valid() && Reachable(cfg, s)
    ensures !s.core.broken
  {
    ReachableStatesAreSound(cfg, s);
  }

  /** One item, before and after: unchanged, or not yet final and moved along the table at most once. */
  predicate MovesLegally(before: Item, after: Item) {
    || after == before
    || (&& !before.state.Terminal()
        && after.index == before.index && after.arg == before.arg
        && (after.state == before.state || Legal(before.state, after.state))
        && (after.state == Cancelled ==> before.state == Pending || before.state == RetryWait))
  }

  ghost predicate ItemsMoveLegally(c: Core, d: Core) {
    && |c.items| <= |d.items|
    && (forall w :: 0 <= w < |c.items| ==> MovesLegally(c.items[w], d.items[w]))
    && (forall w :: |c.items| <= w < |d.items| ==> d.items[w].state == Pending || d.items[w].state == RetryWait)
  }

  /** Rewriting one item by a legal move, in a run whose other items stay. */
  lemma OneMoveIsLegal(c: Core, d: Core, w: Wid, it: Item)
    requires w < |c.items| && MovesLegally(c.items[w], it) && d.items == c.items[w := it]
    ensures ItemsMoveLegally(c, d)
  {
  }

  /** In any sound state, one action by anyone leaves every final item exactly as it is, and moves
      every other item along the table. */
  lemma StepsMoveItemsLegally(cfg: Config, s: State, a: Action)
    requires cfg.Valid() && Inv(cfg, s) && Can(cfg, s, a)
    ensures ItemsMoveLegally(s.core, Do(cfg, s, a).core)
  {
    if ByOthers(a) {
      WorkersMoveItemsLegally(cfg, s, a);
    } else if a.AskOne? || a.CancelOne? || a.DropOne? {
      TeardownMovesItemsLegally(cfg, s, a);
    } else {
      LoopMovesItemsLegally(cfg, s, a);
    }
  }

  lemma LoopMovesItemsLegally(cfg: Config, s: State, a: Action)
    requires cfg.Valid() && Inv(cfg, s) && Can(cfg, s, a)
    requires !ByOthers(a) && !a.AskOne? && !a.CancelOne? && !a.DropOne?
    ensures ItemsMoveLegally(s.core, Do(cfg, s, a).core)
  {
    match a
    case ResubmitOne(w) => ResubmitMovesItemsLegally(cfg, s.core, w);
    case CollectOne(f, delay, due) => CollectMovesNoItem(cfg, s, f, delay, due);
    case ScanOne(f, delay, due) => ScanMovesItemsLegally(cfg, s, f, delay, due);
    case Enter(wake) => EnteringMovesNoItem(cfg, s, wake);
    case PullOne => PullingMovesNoItem(cfg, s);
    case _ => ControlMovesNoItem(cfg, s, a);
  }

  lemma CollectMovesNoItem(cfg: Config, s: State, f: Fid, delay: real, due: real)
    requires Inv(cfg, s) && Can(cfg, s, CollectOne(f, delay, due))
    ensures Do(cfg, s, CollectOne(f, delay, due)).core.items == s.core.items
  {
    CollectStep(cfg, s, f, delay, due);
  }

  lemma ControlMovesNoItem(cfg: Config, s: State, a: Action)
    requires Can(cfg, s, a) && (a.Wake? || a.Interrupt? || a.Resume? || a.CloseHere?)
    ensures Do(cfg, s, a).core.items == s.core.items
  {
  }

  lemma TeardownMovesItemsLegally(cfg: Config, s: State, a: Action)
    requires Inv(cfg, s) && Can(cfg, s, a) && (a.AskOne? || a.CancelOne? || a.DropOne?)
    ensures ItemsMoveLegally(s.core, Do(cfg, s, a).core)
  {
    match a
    case AskOne(f) => AskMovesItemsLegally(cfg, s.core, f);
    case CancelOne(f) => CancelMovesItemsLegally(cfg, s.core, f);
    case DropOne(w) => DropMovesItemsLegally(s.core, w);
  }

  lemma WorkersMoveItemsLegally(cfg: Config, s: State, a: Action)
    requires Inv(cfg, s) && Can(cfg, s, a) && ByOthers(a)
    ensures ItemsMoveLegally(s.core, Do(cfg, s, a).core)
  {
    match a
    case Begin(f) => BeginMovesItemsLegally(cfg, s.core, f);
    case Finish(f, spent) => FinishMovesItemsLegally(cfg, s.core, f, spent);
    case _ =>
  }

  lemma EnteringMovesNoItem(cfg: Config, s: State, wake: real)
    ensures DoEnter(cfg, s, wake).core.items == s.core.items
  {
  }

  lemma PullingMovesNoItem(cfg: Config, s: State)
    ensures ItemsMoveLegally(s.core, DoPull(cfg, s).core)
  {
  }

  lemma AskMovesItemsLegally(cfg: Config, c: Core, f: Fid)
    requires CoreInv(cfg, c) && f in c.inFlight
    ensures ItemsMoveLegally(c, c.Ask(f))
  {
    OneMoveIsLegal(c, c.Ask(f), c.inFlight[f], RequestCancellation(c.items[c.inFlight[f]]).item);
  }

  lemma CancelMovesItemsLegally(cfg: Config, c: Core, f: Fid)
    requires CoreInv(cfg, c) && f in c.inFlight
    ensures ItemsMoveLegally(c, c.CancelFuture(f))
  {
    if c.futures[f].phase == Queued {
      OneMoveIsLegal(c, c.CancelFuture(f), c.inFlight[f], Cancel(c.items[c.inFlight[f]]).item);
    }
  }

  lemma DropMovesItemsLegally(c: Core, w: Wid)
    requires w < |c.items|
    ensures ItemsMoveLegally(c, c.CancelParked(w))
  {
    OneMoveIsLegal(c, c.CancelParked(w), w, Cancel(c.items[w]).item);
  }

  lemma ResubmitMovesItemsLegally(cfg: Config, c: Core, w: Wid)
    requires CoreInv(cfg, c) && !c.stopping && w in c.retryWait
    ensures ItemsMoveLegally(c, c.Resubmit(w))
  {
    assert ParkedOk(cfg, c.items[w], c.retryWait[w], c.attempts[c.items[w].index], c.stopping);
    OneMoveIsLegal(c, c.Resubmit(w), w, Rearm(c.items[w]).item);
  }

  lemma BeginMovesItemsLegally(cfg: Config, c: Core, f: Fid)
    requires CoreInv(cfg, c) && c.IsFuture(f) && c.futures[f].phase == Taken
    ensures ItemsMoveLegally(c, c.Start(f))
  {
    BusyIsNotParked(cfg, c, f);
    FlightRecord(cfg, c, f);
    OneMoveIsLegal(c, c.Start(f), c.futures[f].work, StartExecution(c.WorkOf(f), c.clock).item);
  }

  lemma FinishMovesItemsLegally(cfg: Config, c: Core, f: Fid, spent: real)
    requires CoreInv(cfg, c) && c.IsFuture(f) && c.futures[f].phase.Executing?
    ensures ItemsMoveLegally(c, c.Report(cfg, f, spent))
  {
    if f in c.abandoned {
      StaleReportChangesNothing(cfg, c, f, spent);
    } else {
      BusyIsNotParked(cfg, c, f);
      FlightRecord(cfg, c, f);
      var it := c.WorkOf(f);
      var o := cfg.call(it.index, c.futures[f].phase.nth);
      FinishIsFaithful(cfg, it, o, spent);
      ReportsAreLegalMoves(it, o, spent, cfg.retry);
      OneMoveIsLegal(c, c.Report(cfg, f, spent), c.futures[f].work, FinishWith(it, o, spent, cfg.retry).item);
    }
  }

  lemma ReportsAreLegalMoves(it: Item, o: Outcome, spent: real, retry: Option<RetryPolicy>)
    requires it.state == Running || it.state == CancellationRequested
    ensures MovesLegally(it, FinishWith(it, o, spent, retry).item)
  {
  }

  lemma ScanMovesItemsLegally(cfg: Config, s: State, f: Fid, delay: real, due: real)
    requires cfg.Valid() && Inv(cfg, s) && Can(cfg, s, ScanOne(f, delay, due))
    ensures ItemsMoveLegally(s.core, Do(cfg, s, ScanOne(f, delay, due)).core)
  {
    var c, now, tt := s.core, s.pc.now, cfg.taskTimeout.value;
    ScanStep(cfg, s, f, delay, due);
    if Expired(c.items[c.inFlight[f]], now, tt) {
      if cfg.RetriesTimeout(c.items[c.inFlight[f]].attempts) {
        ScanParkMoves(cfg, c, f, now, tt, delay, due);
        TimedOutMovesLegally(c, f, now);
      } else {
        ScanDeliverMoves(cfg, c, f, now, tt);
        TimedOutMovesLegally(c, f, now);
      }
    }
  }

  lemma TimedOutMovesLegally(c: Core, f: Fid, now: real)
    requires Shape(c) && f in c.inFlight
    requires c.items[c.inFlight[f]].state == Running && c.items[c.inFlight[f]].startedAt.Some?
    ensures forall h :: ItemsMoveLegally(c, GivenUp(c, f, now, h))
    ensures forall h, due :: ItemsMoveLegally(c, Cloned(c, f, now, due, h))
  {
  }

  /** Once an item is final, its state, value, exception, attempts and elapsed never change again,
      whatever the workers and the coordinator go on to do. */
  lemma {:induction false} FinalItemsNeverChange(cfg: Config, s: State, acts: seq<Action>, t: State, w: Wid)
    requires cfg.Valid() && Inv(cfg, s) && Path(cfg, s, acts, t)
    requires w < |s.core.items| && s.core.items[w].state.Terminal()
    ensures w < |t.core.items| && t.core.items[w] == s.core.items[w]
    decreases |acts|
  {
    if acts != [] {
      var u := Do(cfg, s, acts[0]);
      StepsMoveItemsLegally(cfg, s, acts[0]);
      assert MovesLegally(s.core.items[w], u.core.items[w]);
      StepKeepsInv(cfg, s, acts[0]);
      FinalItemsNeverChange(cfg, u, acts[1..], t, w);
    }
  }

  // --- what a final item carries ---

  /** Success carries a value and no exception; failure and timeout carry an exception and no value;
      and no other item carries a value. */
  predicate Whole(it: Item) {
    match it.state
    case Success => it.value.Some? && it.exception == None
    case Failed => it.exception.Some? && it.value == None
    case TimedOut => it.exception == Some(TIMEOUT_ERROR) && it.value == None
    case _ => it.value == None
  }

  ghost predicate AllWhole(c: Core) {
    forall w :: 0 <= w < |c.items| ==> Whole(c.items[w])
  }

  lemma WorkerMovesKeepWhole(it: Item, now: real, o: Outcome, spent: real, retry: Option<RetryPolicy>)
    requires Whole(it)
    ensures StartExecution(it, now).legal ==> Whole(StartExecution(it, now).item)
    ensures FinishWith(it, o, spent, retry).legal ==> Whole(FinishWith(it, o, spent, retry).item)
  {
  }

  lemma CoordinatorMovesKeepWhole(it: Item, now: real, taskTimeout: real)
    requires Whole(it)
    ensures Whole(Cancel(it).item) && Whole(RequestCancellation(it).item) && Whole(RetryClone(it))
    ensures Rearm(it).legal ==> Whole(Rearm(it).item)
    ensures Whole(TimeOutIfExpired(it, now, taskTimeout).item)
  {
  }

  lemma OneWholeItem(c: Core, d: Core, w: Wid, it: Item)
    requires AllWhole(c) && w < |c.items| && Whole(it) && d.items == c.items[w := it]
    ensures AllWhole(d)
  {
  }

  lemma BeginKeepsWhole(cfg: Config, s: State, f: Fid)
    requires CoreInv(cfg, s.core) && AllWhole(s.core) && Can(cfg, s, Begin(f))
    ensures AllWhole(s.core.Start(f))
  {
    var c := s.core;
    StartKeepsInv(cfg, c, f);
    WorkerMovesKeepWhole(c.WorkOf(f), c.clock, Outcome.Returned(0), 0.0, None);
    OneWholeItem(c, c.Start(f), c.futures[f].work, StartExecution(c.WorkOf(f), c.clock).item);
  }

  lemma FinishKeepsWhole(cfg: Config, s: State, f: Fid, spent: real)
    requires CoreInv(cfg, s.core) && AllWhole(s.core) && Can(cfg, s, Finish(f, spent))
    ensures AllWhole(s.core.Report(cfg, f, spent))
  {
    var c := s.core;
    ReportKeepsInv(cfg, c, f, spent);
    var o := cfg.call(c.WorkOf(f).index, c.futures[f].phase.nth);
    WorkerMovesKeepWhole(c.WorkOf(f), 0.0, o, spent, cfg.retry);
    OneWholeItem(c, c.Report(cfg, f, spent), c.futures[f].work, FinishWith(c.WorkOf(f), o, spent, cfg.retry).item);
  }

  lemma WorkersKeepWhole(cfg: Config, s: State, a: Action)
    requires CoreInv(cfg, s.core) && AllWhole(s.core) && Can(cfg, s, a) && ByOthers(a)
    ensures AllWhole(Do(cfg, s, a).core)
  {
    match a
    case Begin(f) => BeginKeepsWhole(cfg, s, f);
    case Finish(f, spent) => FinishKeepsWhole(cfg, s, f, spent);
    case _ =>
  }

  lemma TeardownKeepsWhole(cfg: Config, s: State, a: Action)
    requires AllWhole(s.core) && Can(cfg, s, a) && (a.AskOne? || a.CancelOne? || a.DropOne?)
    ensures AllWhole(Do(cfg, s, a).core)
  {
    if a.DropOne? {
      DroppingKeepsWhole(cfg, s, a.w);
    } else if KeyPresent(s.core, a.f) {
      var it := s.core.items[s.core.inFlight[a.f]];
      CoordinatorMovesKeepWhole(it, 0.0, 0.0);
      assert Whole(Cancel(it).item) && Whole(RequestCancellation(it).item);
    }
  }

  lemma DroppingKeepsWhole(cfg: Config, s: State, w: Wid)
    requires AllWhole(s.core) && Can(cfg, s, DropOne(w))
    ensures AllWhole(Do(cfg, s, DropOne(w)).core)
  {
    if w < |s.core.items| {
      CoordinatorMovesKeepWhole(s.core.items[w], 0.0, 0.0);
    }
  }

  lemma ResubmitKeepsWhole(cfg: Config, s: State, w: Wid)
    requires cfg.Valid() && Inv(cfg, s) && AllWhole(s.core) && Can(cfg, s, ResubmitOne(w))
    ensures AllWhole(Do(cfg, s, ResubmitOne(w)).core)
  {
    ResubmitStepKeepsInv(cfg, s.core, s.pc.now, s.pc.due, w);
    CoordinatorMovesKeepWhole(s.core.items[w], 0.0, 0.0);
  }

  lemma TimingOutKeepsWhole(c: Core, f: Fid, now: real, due: real, h: seq<Attempt>)
    requires Shape(c) && AllWhole(c) && f in c.inFlight
    requires c.items[c.inFlight[f]].state == Running && c.items[c.inFlight[f]].startedAt.Some?
    ensures AllWhole(GivenUp(c, f, now, h)) && AllWhole(Cloned(c, f, now, due, h))
  {
    assert Whole(c.items[c.inFlight[f]]);
    OneWholeItem(c, GivenUp(c, f, now, h), c.inFlight[f], TimedOutItem(c.items[c.inFlight[f]], now));
  }

  lemma ScanKeepsWhole(cfg: Config, s: State, f: Fid, delay: real, due: real)
    requires cfg.Valid() && Inv(cfg, s) && AllWhole(s.core) && Can(cfg, s, ScanOne(f, delay, due))
    ensures AllWhole(Do(cfg, s, ScanOne(f, delay, due)).core)
  {
    var c, now, tt := s.core, s.pc.now, cfg.taskTimeout.value;
    ScanStep(cfg, s, f, delay, due);
    var it := c.items[c.inFlight[f]];
    if Expired(it, now, tt) {
      var h := c.attempts[it.index];
      if cfg.RetriesTimeout(it.attempts) {
        ScanParkMoves(cfg, c, f, now, tt, delay, due);
        TimingOutKeepsWhole(c, f, now, due, OverranHistory(h, now, delay));
      } else {
        ScanDeliverMoves(cfg, c, f, now, tt);
        TimingOutKeepsWhole(c, f, now, due, OverranHistory(h, now, 0.0));
      }
    }
  }

  lemma CollectKeepsWhole(cfg: Config, s: State, f: Fid, delay: real, due: real)
    requires Inv(cfg, s) && AllWhole(s.core) && Can(cfg, s, CollectOne(f, delay, due))
    ensures AllWhole(Do(cfg, s, CollectOne(f, delay, due)).core)
  {
    CollectStep(cfg, s, f, delay, due);
  }

  lemma QuietKeepsWhole(cfg: Config, s: State, a: Action)
    requires AllWhole(s.core) && Can(cfg, s, a)
    requires a.PullOne? || a.Wake? || a.Interrupt? || a.Resume? || a.CloseHere?
    ensures AllWhole(Do(cfg, s, a).core)
  {
  }

  lemma EnteringKeepsWhole(cfg: Config, s: State, wake: real)
    requires AllWhole(s.core) && Can(cfg, s, Enter(wake))
    ensures AllWhole(Do(cfg, s, Enter(wake)).core)
  {
    EnteringMovesNoItem(cfg, s, wake);
  }

  lemma LoopKeepsWhole(cfg: Config, s: State, a: Action)
    requires cfg.Valid() && Inv(cfg, s) && AllWhole(s.core) && Can(cfg, s, a)
    requires a.ResubmitOne? || a.ScanOne? || a.CollectOne? || a.Enter?
    ensures AllWhole(Do(cfg, s, a).core)
  {
    match a
    case ResubmitOne(w) => ResubmitKeepsWhole(cfg, s, w);
    case ScanOne(f, delay, due) => ScanKeepsWhole(cfg, s, f, delay, due);
    case CollectOne(f, delay, due) => CollectKeepsWhole(cfg, s, f, delay, due);
    case Enter(wake) => EnteringKeepsWhole(cfg, s, wake);
  }

  lemma StepKeepsWhole(cfg: Config, s: State, a: Action)
    requires cfg.Valid() && Inv(cfg, s) && AllWhole(s.core) && Can(cfg, s, a)
    ensures AllWhole(Do(cfg, s, a).core)
  {
    if ByOthers(a) {
      WorkersKeepWhole(cfg, s, a);
    } else if a.AskOne? || a.CancelOne? || a.DropOne? {
      TeardownKeepsWhole(cfg, s, a);
    } else if a.ResubmitOne? || a.ScanOne? || a.CollectOne? || a.Enter? {
      LoopKeepsWhole(cfg, s, a);
    } else {
      QuietKeepsWhole(cfg, s, a);
    }
  }

  lemma {:induction false} PathKeepsWhole(cfg: Config, s: State, acts: seq<Action>, t: State)
    requires cfg.Valid() && Inv(cfg, s) && AllWhole(s.core) && Path(cfg, s, acts, t)
    ensures AllWhole(t.core)
    decreases |acts|
  {
    if acts != [] {
      StepKeepsInv(cfg, s, acts[0]);
      StepKeepsWhole(cfg, s, acts[0]);
      PathKeepsWhole(cfg, Do(cfg, s, acts[0]), acts[1..], t);
    }
  }

  /** At every moment every item, delivered or not, the timed-out originals of clones included: success
      carries no exception, failure and timeout carry one, and only success carries a value. */
  lemma FinalItemsAreWhole(cfg: Config, s: State, w: Wid)
    requires cfg.Valid() && Reachable(cfg, s) && w < |s.core.items|
    ensures var it := s.core.items[w];
            && (it.state == Success ==> it.value.Some? && it.exception == None)
            && (it.state == Failed || it.state == TimedOut ==> it.exception.Some?)
            && (it.state == TimedOut ==> it.exception == Some(TIMEOUT_ERROR))
            && (it.state != Success ==> it.value == None)
  {
    var acts :| Path(cfg, Init(), acts, s);
    PathKeepsWhole(cfg, Init(), acts, s);
    assert Whole(s.core.items[w]);
  }

  /** What a timed-out execution does afterwards reaches no item, no container and no history:
      only its own future. */
  lemma StaleExecutionsAreIsolated(cfg: Config, s: State, a: Action)
    requires cfg.Valid() && Reachable(cfg, s) && Can(cfg, s, a)
    requires a.TakeUp? || a.Begin? || a.Finish? || a.Settle?
    requires a.f in s.core.abandoned
    ensures a.Finish? || a.Settle?
    ensures Do(cfg, s, a) == s.(core := s.core.(futures := Do(cfg, s, a).core.futures))
    ensures forall g :: 0 <= g < |s.core.futures| && g != a.f ==>
              Do(cfg, s, a).core.futures[g] == s.core.futures[g]
  {
    ReachableStatesAreSound(cfg, s);
    assert StaleOk(s.core.futures[a.f].phase, s.core.WorkOf(a.f));
    if a.Finish? {
      StaleReportChangesNothing(cfg, s.core, a.f, a.spent);
    }
  }

  // --- refinement of the sequential retry loop ---

  /** Execute; if the failure or timeout is to be repeated, execute again. `overran` are the
      executions that the coordinator timed out. The answer is how many executions it took, and
      how the last one ended. */
  function RetryLoop(cfg: Config, i: nat, overran: set<nat>, a: nat): (nat, Verdict)
    decreases cfg.MaxAttempts() - a
  {
    var v := if a in overran then Overran else Ended(cfg.call(i, a));
    if Retryable(cfg, v, a) then RetryLoop(cfg, i, overran, a + 1) else (a, v)
  }

  function OverranIn(h: seq<Attempt>): set<nat> {
    set k | 0 <= k < |h| && h[k].verdict == Overran :: k + 1
  }

  lemma {:induction false} HistoryIsRetryLoop(cfg: Config, i: nat, h: seq<Attempt>, a: nat)
    requires 1 <= a <= |h| && Genuine(cfg, i, h) && AllRetried(cfg, h, |h| - 1)
    requires Last(h).verdict != Open && !Retryable(cfg, Last(h).verdict, |h|)
    ensures RetryLoop(cfg, i, OverranIn(h), a) == (|h|, Last(h).verdict)
    decreases |h| - a
  {
    assert GenuineAt(cfg, i, h, a - 1);
    assert a in OverranIn(h) <==> h[a - 1].verdict == Overran;
    if a < |h| {
      assert Retryable(cfg, h[a - 1].verdict, a);
      HistoryIsRetryLoop(cfg, i, h, a + 1);
    }
  }

  /** A delivered item is what the sequential retry loop over its index gives: the same number of
      executions, and the outcome of the last of them. It is the loop over the executions that were
      really begun, no more and no fewer. */
  lemma {:induction false} DeliveredItemsAreRetryLoops(cfg: Config, s: State, k: nat)
    requires cfg.Valid() && Reachable(cfg, s) && k < |s.core.yielded|
    ensures s.core.yielded[k] < |s.core.items|
    ensures var it := s.core.items[s.core.yielded[k]];
            && it.index < |s.core.attempts|
            && var h := s.core.attempts[it.index];
               var (n, v) := RetryLoop(cfg, it.index, OverranIn(h), 1);
               && it.attempts == n == |h|
               && Concluded(it, v)
               && cfg.input(it.index) == Next(it.arg)
  {
    ReachableStatesAreSound(cfg, s);
    var it := s.core.items[s.core.yielded[k]];
    var h := s.core.attempts[it.index];
    assert DeliveredOk(cfg, it, h) && Genuine(cfg, it.index, h);
    assert GenuineAt(cfg, it.index, h, |h| - 1);
    assert Last(h).verdict != Open;
    HistoryIsRetryLoop(cfg, it.index, h, 1);
  }

  /** Without a task timeout no execution is timed out, so the result depends on the outcomes alone. */
  lemma WithoutTimeoutNothingOverran(cfg: Config, s: State, i: nat)
    requires cfg.Valid() && Reachable(cfg, s) && cfg.taskTimeout.None? && i < |s.core.attempts|
    ensures OverranIn(s.core.attempts[i]) == {}
  {
    ReachableStatesAreSound(cfg, s);
    var h := s.core.attempts[i];
    assert Genuine(cfg, i, h);
    forall k | 0 <= k < |h| ensures h[k].verdict != Overran {
      assert GenuineAt(cfg, i, h, k);
    }
  }

  // --- the retry decision ---

  /** An execution is followed by another only if the policy asks for it: it raised an Exception that is no
      cancellation and is an instance of a class in retry_on, or it overran and a TimeoutError (which is an
      OSError) is such an instance; and max_attempts leaves room for one more. */
  lemma RepeatedOnlyOnRequest(cfg: Config, s: State, i: nat, k: nat)
    requires cfg.Valid() && Reachable(cfg, s) && i < |s.core.attempts| && k + 1 < |s.core.attempts[i]|
    ensures cfg.retry.Some? && k + 1 < cfg.retry.value.maxAttempts
    ensures match s.core.attempts[i][k].verdict
            case Ended(Raised(e)) =>
              && ExceptionClass in e.classes && CancelledClass !in e.classes
              && exists x :: x in e.classes && x in cfg.retry.value.retryOn
            case Overran =>
              exists x :: x in {ExceptionClass, OSErrorClass, TimeoutErrorClass} && x in cfg.retry.value.retryOn
            case _ => false
  {
    ReachableStatesAreSound(cfg, s);
    HistoryIsRetried(cfg, s.core, i);
    var v := s.core.attempts[i][k].verdict;
    assert Retryable(cfg, v, k + 1);
    match v
    case Ended(Raised(e)) => CommonClass(e.classes, cfg.retry.value.retryOn);
    case Overran => CommonClass(TIMEOUT_ERROR.classes, cfg.retry.value.retryOn);
    case _ =>
  }

  lemma CommonClass(a: set<ExcClass>, b: set<ExcClass>)
    requires a * b != {}
    ensures exists x :: x in a && x in b
  {
    var x := Pick(a * b);
  }

  /** The consumer is given only successes, failures and timeouts; a success carries no exception,
      the others carry one; and a failure or timeout is given only if the policy does not ask for another
      execution: there is none, or no room for one more, or nothing in retry_on matches. */
  lemma OnlyDefinitiveOutcomesAreYielded(cfg: Config, s: State, k: nat)
    requires cfg.Valid() && Reachable(cfg, s) && k < |s.core.yielded|
    ensures s.core.yielded[k] < |s.core.items|
    ensures var it := s.core.items[s.core.yielded[k]];
            match it.state
            case Success =>
              && it.value.Some? && it.exception == None
              && cfg.call(it.index, it.attempts) == Outcome.Returned(it.value.value)
            case Failed =>
              && it.exception.Some? && it.value == None
              && cfg.call(it.index, it.attempts) == Raised(it.exception.value)
              && var e := it.exception.value;
                 || ExceptionClass !in e.classes || CancelledClass in e.classes
                 || cfg.retry.None? || it.attempts >= cfg.retry.value.maxAttempts
                 || e.classes * cfg.retry.value.retryOn == {}
            case TimedOut =>
              && it.exception == Some(TIMEOUT_ERROR) && it.value == None
              && cfg.taskTimeout.Some?
              && (|| cfg.retry.None? || it.attempts >= cfg.retry.value.maxAttempts
                  || {ExceptionClass, OSErrorClass, TimeoutErrorClass} * cfg.retry.value.retryOn == {})
            case _ => false
  {
    ReachableStatesAreSound(cfg, s);
    var it := s.core.items[s.core.yielded[k]];
    var h := s.core.attempts[it.index];
    assert DeliveredOk(cfg, it, h) && Genuine(cfg, it.index, h);
    assert GenuineAt(cfg, it.index, h, |h| - 1);
  }

  /** A future whose worker has returned carries an exception exactly if the call raised what is no Exception,
      and then that one; everything else travels on the item alone. */
  lemma FuturesCarryEscapes(cfg: Config, s: State, f: Fid, carried: Option<Exc>)
    requires cfg.Valid() && Reachable(cfg, s) && f in s.core.inFlight
    requires f < |s.core.futures| && s.core.futures[f].phase in {Reported(carried), Done(carried)}
    ensures s.core.inFlight[f] < |s.core.items|
    ensures var it := s.core.items[s.core.inFlight[f]];
            match cfg.call(it.index, it.attempts)
            case Raised(e) => carried == if ExceptionClass in e.classes then None else Some(e)
            case Returned(_) => carried == None
  {
    ReachableStatesAreSound(cfg, s);
    FlightRecord(cfg, s.core, f);
    var it := s.core.items[s.core.inFlight[f]];
    var h := s.core.attempts[it.index];
    assert GenuineAt(cfg, it.index, h, |h| - 1);
  }

  // --- attempts ---

  lemma RetriedHistoriesAreShort(cfg: Config, h: seq<Attempt>)
    requires cfg.Valid() && h != [] && AllRetried(cfg, h, |h| - 1)
    ensures |h| <= cfg.MaxAttempts()
  {
    if |h| >= 2 {
      assert Retryable(cfg, h[|h| - 2].verdict, |h| - 1);
    }
  }

  /** No index is ever executed more often than the policy allows, and without a policy not more
      than once. */
  lemma ExecutionsAreBounded(cfg: Config, s: State, i: nat)
    requires cfg.Valid() && Reachable(cfg, s) && i < |s.core.attempts|
    ensures |s.core.attempts[i]| <= cfg.MaxAttempts()
    ensures |s.core.attempts[i]| <= if cfg.retry.Some? then cfg.retry.value.maxAttempts else 1
  {
    ReachableStatesAreSound(cfg, s);
    HistoryIsRetried(cfg, s.core, i);
    if s.core.attempts[i] != [] {
      RetriedHistoriesAreShort(cfg, s.core.attempts[i]);
    }
  }
}

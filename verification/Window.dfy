/** How many futures a run can have outstanding at once. */
module Window {
  import opened Numbers
  import opened TaskStates
  import opened Retry
  import opened WorkItems
  import opened Protocol
  import opened Invariants
  import opened Preservation
  import opened Steps
  import opened Accounts

  /** 1 for an index that is in flight or backing off. */
  function LiveAt(c: Core, i: nat): nat
    requires i < |c.slots|
  {
    if c.slots[i].Delivered? then 0 else 1
  }

  /** How many executions of index i may still come to occupy a window slot: its remaining attempts,
      the current one included. */
  function RoomAt(cfg: Config, c: Core, i: nat): nat
    requires i < |c.slots|
  {
    match c.slots[i]
    case InFlight(_) => Minus(cfg.MaxAttempts() + 1, SlotAttempts(c, i))
    case Backoff(_) => Minus(cfg.MaxAttempts(), SlotAttempts(c, i))
    case Delivered(_) => 0
  }

  function Lives(c: Core): (r: seq<nat>)
    ensures |r| == |c.slots|
  {
    seq(|c.slots|, i requires 0 <= i < |c.slots| => LiveAt(c, i))
  }

  function Rooms(cfg: Config, c: Core): (r: seq<nat>)
    ensures |r| == |c.slots|
  {
    seq(|c.slots|, i requires 0 <= i < |c.slots| => RoomAt(cfg, c, i))
  }

  /** The potential: abandoned executions, and all that may yet be abandoned. */
  function Potential(cfg: Config, c: Core): nat {
    |c.abandoned| + Sum(Rooms(cfg, c))
  }

  /** The timeout of some execution leads to another one. */
  predicate TimeoutsAreRetried(cfg: Config) {
    cfg.taskTimeout.Some? && cfg.RetriesTimeout(1)
  }

  ghost predicate WindowInv(cfg: Config, c: Core) {
    && Sum(Lives(c)) == |c.inFlight| + |c.retryWait| <= cfg.maxPending
    && Potential(cfg, c) <= cfg.MaxAttempts() * cfg.maxPending
    && Potential(cfg, c) <= cfg.MaxAttempts() * |c.slots|
    && (!TimeoutsAreRetried(cfg) ==> c.Load() <= cfg.maxPending)
  }

  // --- sums ---

  lemma SameSlotsSameSums(cfg: Config, c: Core, d: Core)
    requires SameSlots(c, d)
    ensures Lives(d) == Lives(c) && Rooms(cfg, d) == Rooms(cfg, c)
  {
    forall i | 0 <= i < |c.slots| ensures RoomAt(cfg, d, i) == RoomAt(cfg, c, i) && LiveAt(d, i) == LiveAt(c, i) {
      assert SameSlot(c, d, i);
    }
  }

  lemma OneSlotSums(cfg: Config, c: Core, d: Core, i: nat)
    requires OnlySlot(c, d, i)
    ensures Sum(Lives(d)) == Sum(Lives(c)) - LiveAt(c, i) + LiveAt(d, i)
    ensures Sum(Rooms(cfg, d)) == Sum(Rooms(cfg, c)) - RoomAt(cfg, c, i) + RoomAt(cfg, d, i)
  {
    forall j | 0 <= j < |c.slots| && j != i
      ensures RoomAt(cfg, d, j) == RoomAt(cfg, c, j) && LiveAt(d, j) == LiveAt(c, j)
    {
      assert SameSlot(c, d, j);
    }
    assert Lives(d) == Lives(c)[i := LiveAt(d, i)];
    assert Rooms(cfg, d) == Rooms(cfg, c)[i := RoomAt(cfg, d, i)];
    SumUpdate(Lives(c), i, LiveAt(d, i));
    SumUpdate(Rooms(cfg, c), i, RoomAt(cfg, d, i));
  }

  /** Every live index has at least one slot and at most all its attempts. */
  lemma RoomsCoverLives(cfg: Config, c: Core)
    requires cfg.Valid() && CoreInv(cfg, c)
    ensures Sum(Lives(c)) <= Sum(Rooms(cfg, c)) <= cfg.MaxAttempts() * Sum(Lives(c))
  {
    var m := cfg.MaxAttempts();
    forall i | 0 <= i < |c.slots| ensures Lives(c)[i] <= Rooms(cfg, c)[i] <= m * Lives(c)[i] {
      CountsAreWithinLimit(cfg, c, i);
      assert m * 0 == 0 && m * 1 == m;
    }
    SumBetween(Rooms(cfg, c), Lives(c), m);
  }

  // --- each change ---

  /** A change confined to index i: the containers follow its place, and what it gives up covers what
      the abandoned set gains. */
  ghost predicate Trades(cfg: Config, c: Core, d: Core, i: nat) {
    && OnlySlot(c, d, i)
    && |d.inFlight| + |d.retryWait| + LiveAt(c, i) == |c.inFlight| + |c.retryWait| + LiveAt(d, i)
    && LiveAt(d, i) <= LiveAt(c, i)
    && |d.abandoned| + RoomAt(cfg, d, i) <= |c.abandoned| + RoomAt(cfg, c, i)
    && (d.Load() <= c.Load() || TimeoutsAreRetried(cfg))
  }

  lemma TradesKeepWindow(cfg: Config, c: Core, d: Core, i: nat)
    requires WindowInv(cfg, c) && Trades(cfg, c, d, i)
    ensures WindowInv(cfg, d)
  {
    OneSlotSums(cfg, c, d, i);
  }

  lemma BackoffToFlightTrades(cfg: Config, c: Core, d: Core, i: nat)
    requires OnlySlot(c, d, i) && c.slots[i].Backoff? && d.slots[i].InFlight?
    requires SlotAttempts(d, i) == SlotAttempts(c, i) + 1 && d.abandoned == c.abandoned
    requires |d.inFlight| == |c.inFlight| + 1 && |d.retryWait| == |c.retryWait| - 1
    ensures Trades(cfg, c, d, i)
  {
  }

  lemma FlightToBackoffTrades(cfg: Config, c: Core, d: Core, i: nat, gained: nat)
    requires OnlySlot(c, d, i) && c.slots[i].InFlight? && d.slots[i].Backoff?
    requires SlotAttempts(d, i) == SlotAttempts(c, i)
    requires |d.inFlight| == |c.inFlight| - 1 && |d.retryWait| == |c.retryWait| + 1
    requires |d.abandoned| == |c.abandoned| + gained
    requires gained == 0 || (gained == 1 && TimeoutsAreRetried(cfg) && SlotAttempts(c, i) <= cfg.MaxAttempts())
    ensures Trades(cfg, c, d, i)
  {
  }

  lemma FlightToDeliveredTrades(cfg: Config, c: Core, d: Core, i: nat, gained: nat)
    requires OnlySlot(c, d, i) && c.slots[i].InFlight? && d.slots[i].Delivered?
    requires |d.inFlight| == |c.inFlight| - 1 && |d.retryWait| == |c.retryWait|
    requires |d.abandoned| == |c.abandoned| + gained && gained <= 1
    requires SlotAttempts(c, i) <= cfg.MaxAttempts()
    ensures Trades(cfg, c, d, i)
  {
  }

  lemma ResubmitTrades(cfg: Config, c: Core, w: Wid)
    requires CoreInv(cfg, c) && w in c.retryWait
    ensures Trades(cfg, c, c.Resubmit(w), c.items[w].index)
  {
    ResubmitSlots(cfg, c, w);
    ResubmitMoves(c, w);
    BackoffToFlightTrades(cfg, c, c.Resubmit(w), c.items[w].index);
  }

  lemma ResubmitMoves(c: Core, w: Wid)
    requires Shape(c) && w in c.retryWait
    ensures var d := c.Resubmit(w);
            && |d.inFlight| == |c.inFlight| + 1
            && |d.retryWait| == |c.retryWait| - 1
            && d.abandoned == c.abandoned
  {
    assert |c.futures| !in c.inFlight;
  }

  /** The window is refilled only while it has room, counting abandoned executions too. */
  lemma PullKeepsWindow(cfg: Config, c: Core, arg: Value)
    requires cfg.Valid() && CoreInv(cfg, c) && WindowInv(cfg, c) && c.Load() < cfg.maxPending
    ensures WindowInv(cfg, c.PullItem(arg))
  {
    PullSums(cfg, c, arg);
    PullKeepsPotential(cfg, c, arg);
    PullMoves(c, arg);
  }

  lemma PullMoves(c: Core, arg: Value)
    requires Shape(c)
    ensures var d := c.PullItem(arg);
            |d.inFlight| == |c.inFlight| + 1 && d.retryWait == c.retryWait && d.abandoned == c.abandoned
  {
    assert |c.futures| !in c.inFlight;
  }

  lemma PullKeepsPotential(cfg: Config, c: Core, arg: Value)
    requires cfg.Valid() && CoreInv(cfg, c) && WindowInv(cfg, c) && c.Load() < cfg.maxPending
    ensures var d := c.PullItem(arg);
            && Potential(cfg, d) <= cfg.MaxAttempts() * cfg.maxPending
            && Potential(cfg, d) <= cfg.MaxAttempts() * |d.slots|
  {
    PullSums(cfg, c, arg);
    RoomsCoverLives(cfg, c);
    PotentialFits(cfg.MaxAttempts(), |c.abandoned|, Sum(Lives(c)), Sum(Rooms(cfg, c)), cfg.maxPending);
    OneMoreIndex(cfg.MaxAttempts(), |c.slots|);
  }

  lemma PullSums(cfg: Config, c: Core, arg: Value)
    requires CoreInv(cfg, c)
    ensures Sum(Lives(c.PullItem(arg))) == Sum(Lives(c)) + 1
    ensures Sum(Rooms(cfg, c.PullItem(arg))) == Sum(Rooms(cfg, c)) + cfg.MaxAttempts()
  {
    var d, m := c.PullItem(arg), cfg.MaxAttempts();
    PullSlots(cfg, c, arg);
    forall j | 0 <= j < c.nextIndex ensures Lives(d)[j] == Lives(c)[j] && Rooms(cfg, d)[j] == Rooms(cfg, c)[j] {
      assert SameSlot(c, d, j);
    }
    assert Lives(d) == Lives(c) + [1];
    assert Rooms(cfg, d) == Rooms(cfg, c) + [m];
    SumSnoc(Lives(c), 1);
    SumSnoc(Rooms(cfg, c), m);
  }

  lemma PotentialFits(m: nat, abandoned: nat, live: nat, rooms: nat, window: nat)
    requires m >= 1 && rooms <= m * live && live + abandoned < window
    ensures abandoned + rooms + m <= m * window
  {
    var spare := window - (live + abandoned + 1);
    ProductsGrow(m, abandoned);
    ProductsGrow(m, spare);
    assert m * window == m * live + m * abandoned + m + m * spare;
  }

  lemma OneMoreIndex(m: nat, k: nat)
    ensures m * (k + 1) == m * k + m
  {
  }

  lemma ProductsGrow(m: nat, x: nat)
    requires m >= 1
    ensures x <= m * x
  {
  }

  lemma DropKeepsWindow(cfg: Config, c: Core, f: Fid)
    requires CoreInv(cfg, c) && WindowInv(cfg, c) && f in c.abandoned
    ensures WindowInv(cfg, c.DropAbandoned(f))
  {
    QuietStepSlots(cfg, c, c.DropAbandoned(f));
    assert |c.abandoned - {f}| == |c.abandoned| - 1;
    FewerAbandonedKeepWindow(cfg, c, c.DropAbandoned(f));
  }

  lemma FewerAbandonedKeepWindow(cfg: Config, c: Core, d: Core)
    requires WindowInv(cfg, c) && SameSlots(c, d)
    requires d.inFlight == c.inFlight && d.retryWait == c.retryWait && |d.abandoned| <= |c.abandoned|
    ensures WindowInv(cfg, d)
  {
    SameSlotsSameSums(cfg, c, d);
  }

  lemma ShelveTrades(cfg: Config, c: Core, f: Fid, due: real, h: seq<Attempt>)
    requires CoreInv(cfg, c) && f in c.inFlight
    ensures Trades(cfg, c, Shelved(c, f, c.inFlight[f], due, h), c.items[c.inFlight[f]].index)
  {
    ShelveSlots(cfg, c, f, due, h);
    ShelveMoves(c, f, due, h);
    FlightToBackoffTrades(cfg, c, Shelved(c, f, c.inFlight[f], due, h), c.items[c.inFlight[f]].index, 0);
  }

  lemma ShelveMoves(c: Core, f: Fid, due: real, h: seq<Attempt>)
    requires Shape(c) && Placed(c) && f in c.inFlight
    ensures var d := Shelved(c, f, c.inFlight[f], due, h);
            |d.inFlight| == |c.inFlight| - 1 && |d.retryWait| == |c.retryWait| + 1
  {
    FlightIsAlone(c, f);
    assert c.inFlight[f] !in c.retryWait;
  }

  lemma HandOverTrades(cfg: Config, c: Core, f: Fid)
    requires cfg.Valid() && CoreInv(cfg, c) && f in c.inFlight
    ensures Trades(cfg, c, HandedOver(c, f), c.items[c.inFlight[f]].index)
  {
    HandOverSlots(cfg, c, f);
    CountsAreWithinLimit(cfg, c, c.items[c.inFlight[f]].index);
    HandOverMoves(c, f);
    FlightToDeliveredTrades(cfg, c, HandedOver(c, f), c.items[c.inFlight[f]].index, 0);
  }

  lemma HandOverMoves(c: Core, f: Fid)
    requires Shape(c) && f in c.inFlight
    ensures var d := HandedOver(c, f);
            |d.inFlight| == |c.inFlight| - 1 && d.retryWait == c.retryWait && d.abandoned == c.abandoned
  {
  }

  lemma CloneTrades(cfg: Config, c: Core, f: Fid, now: real, due: real, h: seq<Attempt>)
    requires cfg.Valid() && CoreInv(cfg, c) && f in c.inFlight
    requires c.items[c.inFlight[f]].startedAt.Some? && TimeoutsAreRetried(cfg)
    ensures Trades(cfg, c, Cloned(c, f, now, due, h), c.items[c.inFlight[f]].index)
  {
    CloneSlots(cfg, c, f, now, due, h);
    CountsAreWithinLimit(cfg, c, c.items[c.inFlight[f]].index);
    CloneMoves(c, f, now, due, h);
    FlightToBackoffTrades(cfg, c, Cloned(c, f, now, due, h), c.items[c.inFlight[f]].index, 1);
  }

  lemma CloneMoves(c: Core, f: Fid, now: real, due: real, h: seq<Attempt>)
    requires Shape(c) && f in c.inFlight && c.items[c.inFlight[f]].startedAt.Some?
    ensures var d := Cloned(c, f, now, due, h);
            && |d.inFlight| == |c.inFlight| - 1 && |d.retryWait| == |c.retryWait| + 1
            && |d.abandoned| == |c.abandoned| + 1
  {
    assert |c.items| !in c.retryWait;
  }

  lemma GiveUpTrades(cfg: Config, c: Core, f: Fid, now: real, h: seq<Attempt>)
    requires cfg.Valid() && CoreInv(cfg, c) && f in c.inFlight
    requires c.items[c.inFlight[f]].startedAt.Some?
    ensures Trades(cfg, c, GivenUp(c, f, now, h), c.items[c.inFlight[f]].index)
  {
    GiveUpSlots(cfg, c, f, now, h);
    CountsAreWithinLimit(cfg, c, c.items[c.inFlight[f]].index);
    GiveUpMoves(c, f, now, h);
    FlightToDeliveredTrades(cfg, c, GivenUp(c, f, now, h), c.items[c.inFlight[f]].index, 1);
  }

  lemma GiveUpMoves(c: Core, f: Fid, now: real, h: seq<Attempt>)
    requires Shape(c) && f in c.inFlight && c.items[c.inFlight[f]].startedAt.Some?
    ensures var d := GivenUp(c, f, now, h);
            && |d.inFlight| == |c.inFlight| - 1 && d.retryWait == c.retryWait
            && |d.abandoned| == |c.abandoned| + 1
  {
  }

  // --- every action ---

  lemma WorkersKeepWindow(cfg: Config, s: State, a: Action)
    requires Inv(cfg, s) && WindowInv(cfg, s.core) && Can(cfg, s, a) && ByOthers(a)
    ensures WindowInv(cfg, Do(cfg, s, a).core)
  {
    WorkersStayElsewhere(cfg, s, a);
    WorkersKeepCounts(cfg, s, a);
    SameHoldingsSameWindow(cfg, s.core, Do(cfg, s, a).core);
  }

  lemma CollectKeepsWindow(cfg: Config, s: State, f: Fid, delay: real, due: real)
    requires cfg.Valid() && Inv(cfg, s) && WindowInv(cfg, s.core) && Can(cfg, s, CollectOne(f, delay, due))
    ensures WindowInv(cfg, Do(cfg, s, CollectOne(f, delay, due)).core)
  {
    var c, d := s.core, Do(cfg, s, CollectOne(f, delay, due)).core;
    CollectStep(cfg, s, f, delay, due);
    if f in c.abandoned {
      DropKeepsWindow(cfg, c, f);
    } else {
      CollectTrades(cfg, s, f, delay, due);
      TradesKeepWindow(cfg, c, d, c.items[c.inFlight[f]].index);
    }
  }

  lemma CollectTrades(cfg: Config, s: State, f: Fid, delay: real, due: real)
    requires cfg.Valid() && Inv(cfg, s) && Can(cfg, s, CollectOne(f, delay, due)) && f !in s.core.abandoned
    ensures f in s.core.inFlight
    ensures Trades(cfg, s.core, Do(cfg, s, CollectOne(f, delay, due)).core, s.core.items[s.core.inFlight[f]].index)
  {
    var c := s.core;
    CollectStep(cfg, s, f, delay, due);
    if c.items[c.inFlight[f]].state == RetryWait {
      FlightRecord(cfg, c, f);
      ParkShelves(c, f, delay, due);
      ShelveTrades(cfg, c, f, due, DelayedHistory(c.attempts[c.items[c.inFlight[f]].index], delay));
    } else {
      HandOverTrades(cfg, c, f);
    }
  }

  lemma ScanKeepsWindow(cfg: Config, s: State, f: Fid, delay: real, due: real)
    requires cfg.Valid() && Inv(cfg, s) && WindowInv(cfg, s.core) && Can(cfg, s, ScanOne(f, delay, due))
    ensures WindowInv(cfg, Do(cfg, s, ScanOne(f, delay, due)).core)
  {
    var c, d := s.core, Do(cfg, s, ScanOne(f, delay, due)).core;
    ScanStep(cfg, s, f, delay, due);
    var it := c.items[c.inFlight[f]];
    if Expired(it, s.pc.now, cfg.taskTimeout.value) {
      ScanTrades(cfg, s, f, delay, due);
      TradesKeepWindow(cfg, c, d, it.index);
    }
  }

  lemma ScanTrades(cfg: Config, s: State, f: Fid, delay: real, due: real)
    requires cfg.Valid() && Inv(cfg, s) && Can(cfg, s, ScanOne(f, delay, due))
    requires f in s.core.inFlight && cfg.taskTimeout.Some?
    requires Expired(s.core.items[s.core.inFlight[f]], s.pc.now, cfg.taskTimeout.value)
    ensures Trades(cfg, s.core, Do(cfg, s, ScanOne(f, delay, due)).core, s.core.items[s.core.inFlight[f]].index)
  {
    ScanStep(cfg, s, f, delay, due);
    if cfg.RetriesTimeout(s.core.items[s.core.inFlight[f]].attempts) {
      ScanParkTrades(cfg, s.core, f, s.pc.now, delay, due);
    } else {
      ScanDeliverTrades(cfg, s.core, f, s.pc.now);
    }
  }

  lemma ScanParkTrades(cfg: Config, c: Core, f: Fid, now: real, delay: real, due: real)
    requires cfg.Valid() && CoreInv(cfg, c) && f in c.inFlight && cfg.taskTimeout.Some?
    requires Expired(c.items[c.inFlight[f]], now, cfg.taskTimeout.value)
    requires cfg.RetriesTimeout(c.items[c.inFlight[f]].attempts)
    ensures Trades(cfg, c, c.Abandon(f, now, cfg.taskTimeout.value).ParkClone(c.inFlight[f], delay, due),
                   c.items[c.inFlight[f]].index)
  {
    ScanParkMoves(cfg, c, f, now, cfg.taskTimeout.value, delay, due);
    FlightHasAttempts(cfg, c, f);
    CloneTrades(cfg, c, f, now, due, OverranHistory(c.attempts[c.items[c.inFlight[f]].index], now, delay));
  }

  lemma FlightHasAttempts(cfg: Config, c: Core, f: Fid)
    requires CoreInv(cfg, c) && f in c.inFlight
    ensures cfg.RetriesTimeout(c.items[c.inFlight[f]].attempts) && c.futures[f].phase.Executing? ==>
              cfg.RetriesTimeout(1)
    ensures c.items[c.inFlight[f]].state == Running ==> c.futures[f].phase.Executing?
  {
    FlightRecord(cfg, c, f);
  }

  lemma ScanDeliverTrades(cfg: Config, c: Core, f: Fid, now: real)
    requires cfg.Valid() && CoreInv(cfg, c) && f in c.inFlight && cfg.taskTimeout.Some?
    requires Expired(c.items[c.inFlight[f]], now, cfg.taskTimeout.value)
    ensures Trades(cfg, c, c.Abandon(f, now, cfg.taskTimeout.value).Deliver(c.inFlight[f]),
                   c.items[c.inFlight[f]].index)
  {
    ScanDeliverMoves(cfg, c, f, now, cfg.taskTimeout.value);
    GiveUpTrades(cfg, c, f, now, OverranHistory(c.attempts[c.items[c.inFlight[f]].index], now, 0.0));
  }

  lemma TeardownKeepsWindow(cfg: Config, s: State, a: Action)
    requires Inv(cfg, s) && WindowInv(cfg, s.core) && Can(cfg, s, a)
    requires a.AskOne? || a.CancelOne? || a.DropOne?
    ensures WindowInv(cfg, Do(cfg, s, a).core)
  {
    CancellationKeepsCounts(cfg, s, a);
    SameHoldingsSameWindow(cfg, s.core, Do(cfg, s, a).core);
  }

  /** The containers, the places and the attempt counts are the same. */
  ghost predicate SameHoldings(c: Core, d: Core) {
    && d.inFlight == c.inFlight && d.retryWait == c.retryWait && d.abandoned == c.abandoned
    && d.slots == c.slots && |d.items| == |c.items|
    && forall w :: 0 <= w < |c.items| ==> d.items[w].attempts == c.items[w].attempts
  }

  lemma CancellationKeepsCounts(cfg: Config, s: State, a: Action)
    requires Can(cfg, s, a) && (a.AskOne? || a.CancelOne? || a.DropOne?)
    ensures SameHoldings(s.core, Do(cfg, s, a).core)
  {
    match a
    case AskOne(f) => assert SameHoldings(s.core, Do(cfg, s, AskOne(f)).core);
    case CancelOne(f) => CancelKeepsCounts(cfg, s, f);
    case DropOne(w) => assert SameHoldings(s.core, Do(cfg, s, DropOne(w)).core);
  }

  lemma CancelKeepsCounts(cfg: Config, s: State, f: Fid)
    requires Can(cfg, s, CancelOne(f))
    ensures SameHoldings(s.core, Do(cfg, s, CancelOne(f)).core)
  {
  }

  lemma SameHoldingsSameWindow(cfg: Config, c: Core, d: Core)
    requires Shape(c) && WindowInv(cfg, c) && SameHoldings(c, d)
    ensures WindowInv(cfg, d)
  {
    SameHoldingsSameRooms(cfg, c, d);
    assert Lives(d) == Lives(c);
  }

  lemma SameHoldingsSameRooms(cfg: Config, c: Core, d: Core)
    requires Shape(c) && SameHoldings(c, d)
    ensures Rooms(cfg, d) == Rooms(cfg, c)
  {
    forall i | 0 <= i < |c.slots| ensures RoomAt(cfg, d, i) == RoomAt(cfg, c, i) {
      assert d.slots[i] == c.slots[i];
      assert SlotAttempts(d, i) == SlotAttempts(c, i);
    }
  }

  lemma StepKeepsWindow(cfg: Config, s: State, a: Action)
    requires cfg.Valid() && Inv(cfg, s) && WindowInv(cfg, s.core) && Can(cfg, s, a)
    ensures WindowInv(cfg, Do(cfg, s, a).core)
  {
    if ByOthers(a) {
      WorkersKeepWindow(cfg, s, a);
    } else if a.CollectOne? {
      CollectKeepsWindow(cfg, s, a.f, a.delay, a.due);
    } else if a.ScanOne? {
      ScanKeepsWindow(cfg, s, a.f, a.delay, a.due);
    } else if a.AskOne? || a.CancelOne? || a.DropOne? {
      TeardownKeepsWindow(cfg, s, a);
    } else {
      LoopKeepsWindow(cfg, s, a);
    }
  }

  lemma LoopKeepsWindow(cfg: Config, s: State, a: Action)
    requires cfg.Valid() && Inv(cfg, s) && WindowInv(cfg, s.core) && Can(cfg, s, a)
    requires a.ResubmitOne? || a.PullOne? || a.Enter? || a.Wake? || a.Interrupt? || a.Resume? || a.CloseHere?
    ensures WindowInv(cfg, Do(cfg, s, a).core)
  {
    if a.ResubmitOne? {
      ResubmitStepTrades(cfg, s, a.w);
      TradesKeepWindow(cfg, s.core, Do(cfg, s, a).core, s.core.items[a.w].index);
    } else if a.PullOne? {
      PullStepKeepsWindow(cfg, s);
    } else {
      ControlKeepsHoldings(cfg, s, a);
      SameHoldingsSameWindow(cfg, s.core, Do(cfg, s, a).core);
    }
  }

  lemma ResubmitStepTrades(cfg: Config, s: State, w: Wid)
    requires CoreInv(cfg, s.core) && Can(cfg, s, ResubmitOne(w)) && w in s.core.retryWait
    ensures w < |s.core.items|
    ensures Trades(cfg, s.core, Do(cfg, s, ResubmitOne(w)).core, s.core.items[w].index)
  {
    ResubmitTrades(cfg, s.core, w);
    ResubmitIsResubmit(cfg, s, w);
  }

  lemma ResubmitIsResubmit(cfg: Config, s: State, w: Wid)
    requires Can(cfg, s, ResubmitOne(w)) && w in s.core.retryWait && w < |s.core.items|
    ensures Do(cfg, s, ResubmitOne(w)).core == s.core.Resubmit(w)
  {
  }

  lemma PullStepKeepsWindow(cfg: Config, s: State)
    requires cfg.Valid() && Inv(cfg, s) && WindowInv(cfg, s.core) && s.core.Load() < cfg.maxPending
    ensures WindowInv(cfg, DoPull(cfg, s).core)
  {
    if cfg.input(s.core.nextIndex).Next? {
      PullKeepsWindow(cfg, s.core, cfg.input(s.core.nextIndex).arg);
    } else {
      FailedPullKeepsHoldings(cfg, s);
      SameHoldingsSameWindow(cfg, s.core, DoPull(cfg, s).core);
    }
  }

  lemma FailedPullKeepsHoldings(cfg: Config, s: State)
    requires !cfg.input(s.core.nextIndex).Next?
    ensures SameHoldings(s.core, DoPull(cfg, s).core)
  {
  }

  lemma ControlKeepsHoldings(cfg: Config, s: State, a: Action)
    requires Can(cfg, s, a)
    requires a.Enter? || a.Wake? || a.Interrupt? || a.Resume? || a.CloseHere?
    ensures SameHoldings(s.core, Do(cfg, s, a).core)
  {
    if a.Enter? {
      EnteringKeepsHoldings(cfg, s, a.wake);
    }
  }

  lemma EnteringKeepsHoldings(cfg: Config, s: State, wake: real)
    ensures SameHoldings(s.core, DoEnter(cfg, s, wake).core)
  {
  }

  lemma InitHasWindow(cfg: Config)
    requires cfg.Valid()
    ensures Inv(cfg, Init()) && WindowInv(cfg, Init().core)
  {
    assert Lives(Init().core) == [] && Rooms(cfg, Init().core) == [];
    assert cfg.MaxAttempts() * cfg.maxPending >= 0;
  }

  lemma {:induction false} PathKeepsWindow(cfg: Config, s: State, acts: seq<Action>, t: State)
    requires cfg.Valid() && Inv(cfg, s) && WindowInv(cfg, s.core) && Path(cfg, s, acts, t)
    ensures WindowInv(cfg, t.core)
    decreases |acts|
  {
    if acts != [] {
      StepKeepsInv(cfg, s, acts[0]);
      StepKeepsWindow(cfg, s, acts[0]);
      PathKeepsWindow(cfg, Do(cfg, s, acts[0]), acts[1..], t);
    }
  }

  /** The window of a run. Indices in flight and backing off never exceed max_pending. With the
      abandoned executions, the total never exceeds max_pending if timeouts are not retried, and
      never exceeds max_attempts for each slot of the window, or for each index pulled, if they are. */
  lemma WindowIsBounded(cfg: Config, s: State)
    requires cfg.Valid() && Reachable(cfg, s)
    ensures |s.core.inFlight| + |s.core.retryWait| <= cfg.maxPending
    ensures !TimeoutsAreRetried(cfg) ==> |s.core.inFlight| + |s.core.retryWait| + |s.core.abandoned| <= cfg.maxPending
    ensures |s.core.inFlight| + |s.core.retryWait| + |s.core.abandoned| <= cfg.MaxAttempts() * cfg.maxPending
    ensures |s.core.inFlight| + |s.core.retryWait| + |s.core.abandoned| <= cfg.MaxAttempts() * s.core.nextIndex
  {
    ReachableKeepsWindow(cfg, s);
    LoadIsCovered(cfg, s);
    IndicesHaveSlots(cfg, s);
  }

  /** Not more indices are in flight or backing off than were pulled. */
  lemma LiveIndicesWerePulled(cfg: Config, s: State)
    requires cfg.Valid() && Reachable(cfg, s)
    ensures |s.core.inFlight| + |s.core.retryWait| <= s.core.nextIndex
  {
    ReachableKeepsWindow(cfg, s);
    ReachableStatesAreSound(cfg, s);
    OnesAddUp(Lives(s.core));
  }

  lemma ReachableKeepsWindow(cfg: Config, s: State)
    requires cfg.Valid() && Reachable(cfg, s)
    ensures WindowInv(cfg, s.core)
  {
    var acts :| Path(cfg, Init(), acts, s);
    InitHasWindow(cfg);
    PathKeepsWindow(cfg, Init(), acts, s);
  }

  lemma {:induction false} OnesAddUp(xs: seq<nat>)
    requires forall k :: 0 <= k < |xs| ==> xs[k] <= 1
    ensures Sum(xs) <= |xs|
  {
    if xs != [] {
      OnesAddUp(xs[..|xs| - 1]);
    }
  }

  lemma IndicesHaveSlots(cfg: Config, s: State)
    requires cfg.Valid() && Reachable(cfg, s)
    ensures |s.core.slots| == s.core.nextIndex
  {
    ReachableStatesAreSound(cfg, s);
  }

  lemma LoadIsCovered(cfg: Config, s: State)
    requires cfg.Valid() && Reachable(cfg, s) && WindowInv(cfg, s.core)
    ensures s.core.Load() <= Potential(cfg, s.core)
  {
    ReachableStatesAreSound(cfg, s);
    RoomsCoverLives(cfg, s.core);
  }
}

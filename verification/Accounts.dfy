/** What each change of a run's data does to the place of each index: the bookkeeping shared by the
    window bound and the termination argument. */
module Accounts {
  import opened Numbers
  import opened TaskStates
  import opened Retry
  import opened WorkItems
  import opened Protocol
  import opened Invariants
  import opened Preservation
  import opened Steps

  function Minus(a: nat, b: nat): nat {
    if a >= b then a - b else 0
  }

  /** The attempt count of the item that stands for index i. */
  function SlotAttempts(c: Core, i: nat): nat
    requires i < |c.slots|
  {
    match c.slots[i]
    case InFlight(f) => if f in c.inFlight && c.inFlight[f] < |c.items| then c.items[c.inFlight[f]].attempts else 0
    case Backoff(w) => if w < |c.items| then c.items[w].attempts else 0
    case Delivered(_) => 0
  }

  function SlotPhase(c: Core, i: nat): Phase
    requires i < |c.slots|
  {
    match c.slots[i]
    case InFlight(f) => if f < |c.futures| then c.futures[f].phase else Queued
    case _ => Queued
  }

  predicate SameSlot(c: Core, d: Core, j: nat)
    requires j < |c.slots| && j < |d.slots|
  {
    && d.slots[j] == c.slots[j]
    && SlotAttempts(d, j) == SlotAttempts(c, j)
    && SlotPhase(d, j) == SlotPhase(c, j)
  }

  ghost predicate SameSlots(c: Core, d: Core) {
    && |d.slots| == |c.slots|
    && forall j :: 0 <= j < |c.slots| ==> SameSlot(c, d, j)
  }

  /** Only the place of index i may differ. */
  ghost predicate OnlySlot(c: Core, d: Core, i: nat) {
    && i < |c.slots| == |d.slots|
    && forall j :: 0 <= j < |c.slots| && j != i ==> SameSlot(c, d, j)
  }

  // --- worker steps ---

  /** A worker's step on an execution in flight changes only the phase its index is in. */
  lemma PhaseStepSlots(cfg: Config, c: Core, d: Core, f: Fid)
    requires CoreInv(cfg, c) && f in c.inFlight && Elsewhere(c, d)
    requires forall g :: 0 <= g < |c.futures| && g != f ==> d.futures[g] == c.futures[g]
    requires forall w :: 0 <= w < |c.items| ==> d.items[w].attempts == c.items[w].attempts
    ensures var i := c.items[c.inFlight[f]].index;
            && OnlySlot(c, d, i)
            && d.slots[i] == c.slots[i] == InFlight(f)
            && SlotAttempts(d, i) == SlotAttempts(c, i) == c.items[c.inFlight[f]].attempts
            && SlotPhase(c, i) == c.futures[f].phase && SlotPhase(d, i) == d.futures[f].phase
  {
    var i := c.items[c.inFlight[f]].index;
    assert c.slots[i] == InFlight(f);
    forall j | 0 <= j < |c.slots| && j != i ensures SameSlot(c, d, j) {
      if c.slots[j].InFlight? {
        assert c.slots[j].f != f;
      }
    }
  }

  /** A step that moves no future of an index in flight, and no item's count, changes no place. */
  lemma QuietStepSlots(cfg: Config, c: Core, d: Core)
    requires CoreInv(cfg, c)
    requires d.slots == c.slots && d.inFlight == c.inFlight && |d.items| == |c.items| && |d.futures| == |c.futures|
    requires forall g :: g in c.inFlight ==> d.futures[g].phase == c.futures[g].phase
    requires forall w :: 0 <= w < |c.items| ==> d.items[w].attempts == c.items[w].attempts
    ensures SameSlots(c, d)
  {
  }

  /** A worker's step moves the phase of its own future, and no item's attempt count. */
  lemma WorkersMoveOneFuture(cfg: Config, s: State, a: Action)
    requires Inv(cfg, s) && Can(cfg, s, a) && (a.TakeUp? || a.Begin? || a.Finish? || a.Settle?)
    ensures var c, d := s.core, Do(cfg, s, a).core;
            && a.f < |c.futures| == |d.futures|
            && c.futures[a.f].phase != d.futures[a.f].phase
            && (forall g :: 0 <= g < |c.futures| && g != a.f ==> d.futures[g] == c.futures[g])
  {
  }

  lemma WorkersKeepCounts(cfg: Config, s: State, a: Action)
    requires Inv(cfg, s) && Can(cfg, s, a) && ByOthers(a)
    ensures |Do(cfg, s, a).core.items| == |s.core.items|
    ensures forall w :: 0 <= w < |s.core.items| ==> Do(cfg, s, a).core.items[w].attempts == s.core.items[w].attempts
  {
    if a.Finish? {
      ReportKeepsCounts(cfg, s.core, a.f, a.spent);
    }
  }

  lemma ReportKeepsCounts(cfg: Config, c: Core, f: Fid, spent: real)
    requires c.IsFuture(f) && c.futures[f].phase.Executing?
    ensures |c.Report(cfg, f, spent).items| == |c.items|
    ensures forall w :: 0 <= w < |c.items| ==> c.Report(cfg, f, spent).items[w].attempts == c.items[w].attempts
  {
  }

  // --- coordinator steps ---

  lemma ResubmitSlots(cfg: Config, c: Core, w: Wid)
    requires CoreInv(cfg, c) && w in c.retryWait
    ensures var d, i := c.Resubmit(w), c.items[w].index;
            && OnlySlot(c, d, i)
            && c.slots[i] == Backoff(w) && d.slots[i] == InFlight(|c.futures|)
            && SlotAttempts(d, i) == SlotAttempts(c, i) + 1 && SlotPhase(d, i) == Queued
  {
    var d, i := c.Resubmit(w), c.items[w].index;
    assert c.slots[i] == Backoff(w);
    forall j | 0 <= j < |c.slots| && j != i ensures SameSlot(c, d, j) {
      if c.slots[j].Backoff? {
        assert c.slots[j].w != w;
      }
    }
  }

  lemma PullSlots(cfg: Config, c: Core, arg: Value)
    requires CoreInv(cfg, c)
    ensures var d, i := c.PullItem(arg), c.nextIndex;
            && |d.slots| == |c.slots| + 1
            && (forall j :: 0 <= j < |c.slots| ==> SameSlot(c, d, j))
            && d.slots[i] == InFlight(|c.futures|)
            && SlotAttempts(d, i) == 1 && SlotPhase(d, i) == Queued
  {
    var d := c.PullItem(arg);
    forall j | 0 <= j < |c.slots| ensures SameSlot(c, d, j) {
      assert d.slots[j] == c.slots[j];
    }
  }

  lemma ShelveSlots(cfg: Config, c: Core, f: Fid, due: real, h: seq<Attempt>)
    requires CoreInv(cfg, c) && f in c.inFlight
    ensures var d, i := Shelved(c, f, c.inFlight[f], due, h), c.items[c.inFlight[f]].index;
            && OnlySlot(c, d, i)
            && c.slots[i] == InFlight(f) && d.slots[i] == Backoff(c.inFlight[f])
            && SlotAttempts(d, i) == SlotAttempts(c, i) && SlotPhase(c, i) == c.futures[f].phase
  {
    assert c.slots[c.items[c.inFlight[f]].index] == InFlight(f);
  }

  lemma HandOverSlots(cfg: Config, c: Core, f: Fid)
    requires CoreInv(cfg, c) && f in c.inFlight
    ensures var d, i := HandedOver(c, f), c.items[c.inFlight[f]].index;
            && OnlySlot(c, d, i)
            && c.slots[i] == InFlight(f) && d.slots[i].Delivered? && SlotPhase(c, i) == c.futures[f].phase
  {
    assert c.slots[c.items[c.inFlight[f]].index] == InFlight(f);
  }

  lemma CloneSlots(cfg: Config, c: Core, f: Fid, now: real, due: real, h: seq<Attempt>)
    requires CoreInv(cfg, c) && f in c.inFlight && c.items[c.inFlight[f]].startedAt.Some?
    ensures var d, i := Cloned(c, f, now, due, h), c.items[c.inFlight[f]].index;
            && OnlySlot(c, d, i)
            && c.slots[i] == InFlight(f) && d.slots[i] == Backoff(|c.items|)
            && SlotAttempts(d, i) == SlotAttempts(c, i) && SlotPhase(c, i) == c.futures[f].phase
  {
    var d, i := Cloned(c, f, now, due, h), c.items[c.inFlight[f]].index;
    assert c.slots[i] == InFlight(f);
    forall j | 0 <= j < |c.slots| && j != i ensures SameSlot(c, d, j) {
      assert d.slots[j] == c.slots[j];
    }
  }

  lemma GiveUpSlots(cfg: Config, c: Core, f: Fid, now: real, h: seq<Attempt>)
    requires CoreInv(cfg, c) && f in c.inFlight && c.items[c.inFlight[f]].startedAt.Some?
    ensures var d, i := GivenUp(c, f, now, h), c.items[c.inFlight[f]].index;
            && OnlySlot(c, d, i)
            && c.slots[i] == InFlight(f) && d.slots[i].Delivered? && SlotPhase(c, i) == c.futures[f].phase
  {
    var d, i := GivenUp(c, f, now, h), c.items[c.inFlight[f]].index;
    assert c.slots[i] == InFlight(f);
    forall j | 0 <= j < |c.slots| && j != i ensures SameSlot(c, d, j) {
      assert d.slots[j] == c.slots[j];
    }
  }

  lemma CancelSlots(cfg: Config, c: Core, f: Fid)
    requires CoreInv(cfg, c) && f in c.inFlight
    ensures var d, i := c.CancelFuture(f), c.items[c.inFlight[f]].index;
            && OnlySlot(c, d, i)
            && d.slots == c.slots && c.slots[i] == InFlight(f)
            && SlotAttempts(d, i) == SlotAttempts(c, i)
            && SlotPhase(c, i) == c.futures[f].phase
            && SlotPhase(d, i) == (if c.futures[f].phase == Queued then Withdrawn else c.futures[f].phase)
  {
    var d, i := c.CancelFuture(f), c.items[c.inFlight[f]].index;
    assert c.slots[i] == InFlight(f);
    forall j | 0 <= j < |c.slots| && j != i ensures SameSlot(c, d, j) {
      if c.slots[j].InFlight? {
        assert c.slots[j].f != f;
      }
    }
  }

  /** The attempt counts stay within the policy. */
  lemma CountsAreWithinLimit(cfg: Config, c: Core, i: nat)
    requires cfg.Valid() && CoreInv(cfg, c) && i < |c.slots|
    ensures c.slots[i].InFlight? ==> 1 <= SlotAttempts(c, i) <= cfg.MaxAttempts()
    ensures c.slots[i].Backoff? ==> 1 <= SlotAttempts(c, i) < cfg.MaxAttempts()
  {
    var h := c.attempts[i];
    match c.slots[i]
    case InFlight(f) =>
      FlightRecord(cfg, c, f);
      if |h| >= 1 && SlotAttempts(c, i) == |h| + 1 {
        assert Retryable(cfg, h[|h| - 1].verdict, |h|);
      } else if |h| >= 2 {
        assert Retryable(cfg, h[|h| - 2].verdict, |h| - 1);
      }
    case Backoff(w) =>
      assert ParkedOk(cfg, c.items[w], c.retryWait[w], h, c.stopping);
      assert Retryable(cfg, h[|h| - 1].verdict, |h|);
    case Delivered(_) =>
  }
}

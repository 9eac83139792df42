/** What an overall deadline leaves of the retries: nothing is executed again unless it was due before the
    deadline, so an index can overrun only as often as there is time for. */
module Punctuality {
  import opened Numbers
  import opened TaskStates
  import opened Retry
  import opened WorkItems
  import opened Protocol
  import opened Invariants
  import opened Preservation
  import opened Steps
  import opened Accounts
  import opened Holdings
  import opened Timing
  import opened Window

  /** What index i holds and may still come to hold, its abandoned executions left aside. */
  function SpareAt(cfg: Config, c: Core, i: nat): nat
    requires i < |c.slots| && i < |c.attempts|
  {
    if c.slots[i].Delivered? then 0 else Minus(Holdable(cfg), Overruns(c.attempts[i]))
  }

  function Spares(cfg: Config, c: Core): (r: seq<nat>)
    requires |c.slots| == |c.attempts|
    ensures |r| == |c.slots|
  {
    seq(|c.slots|, i requires 0 <= i < |c.slots| => SpareAt(cfg, c, i))
  }

  ghost predicate Covered(cfg: Config, c: Core) {
    && |c.slots| == |c.attempts|
    && |c.abandoned| + Sum(Spares(cfg, c)) <= Holdable(cfg) * cfg.maxPending
    && |c.abandoned| + Sum(Spares(cfg, c)) <= Holdable(cfg) * |c.slots|
  }

  /** An execution in flight follows only attempts that were over in time. */
  predicate FlightIn(c: Core, f: Fid) {
    f in c.inFlight && c.inFlight[f] < |c.items| && c.items[c.inFlight[f]].index < |c.attempts|
  }

  /** All that was executed again, or is about to be, was over in time, and the abandoned executions are
      covered by what every slot of the window, or every index, can hold. */
  ghost predicate Tracked(cfg: Config, c: Core) {
    && Covered(cfg, c)
    && (forall i :: 0 <= i < |c.attempts| ==> Punctual(cfg, c.attempts[i], |c.attempts[i]| - 1))
    && (forall f :: f in c.inFlight ==>
          && FlightIn(c, f)
          && Punctual(cfg, c.attempts[c.items[c.inFlight[f]].index], c.items[c.inFlight[f]].attempts - 1))
  }

  ghost predicate Timely(cfg: Config, s: State) {
    && Tracked(cfg, s.core)
    && (s.pc.Resubmitting? && cfg.OverallDeadline().Some? ==> s.pc.now < cfg.OverallDeadline().value)
  }

  // --- one change ---

  /** f is in flight in d as it is in c. */
  predicate SameFlight(c: Core, d: Core, f: Fid) {
    && f in c.inFlight && f in d.inFlight && c.inFlight[f] < |c.items| && d.inFlight[f] < |d.items|
    && d.items[d.inFlight[f]].index == c.items[c.inFlight[f]].index
    && d.items[d.inFlight[f]].attempts == c.items[c.inFlight[f]].attempts
  }

  lemma SameHistoriesStayTracked(cfg: Config, c: Core, d: Core)
    requires Tracked(cfg, c) && d.attempts == c.attempts && d.slots == c.slots && |d.abandoned| <= |c.abandoned|
    requires forall f :: f in d.inFlight ==> SameFlight(c, d, f)
    ensures Tracked(cfg, d)
  {
    assert Spares(cfg, d) == Spares(cfg, c);
    forall f | f in d.inFlight
      ensures FlightIn(d, f)
      ensures Punctual(cfg, d.attempts[d.items[d.inFlight[f]].index], d.items[d.inFlight[f]].attempts - 1)
    {
      assert SameFlight(c, d, f) && FlightIn(c, f);
    }
  }

  /** The history of index i was rewritten, and every flight of other indices stayed. */
  lemma {:induction false} RewrittenStaysTracked(cfg: Config, c: Core, d: Core, i: nat, p: Slot, h: seq<Attempt>)
    requires Tracked(cfg, c) && i < |c.attempts| && d.attempts == c.attempts[i := h] && d.slots == c.slots[i := p]
    requires |d.abandoned| + SpareAt(cfg, d, i) <= |c.abandoned| + SpareAt(cfg, c, i)
    requires Punctual(cfg, h, |h| - 1)
    requires forall f :: f in d.inFlight ==>
               || (SameFlight(c, d, f) && d.items[d.inFlight[f]].index != i)
               || (FlightIn(d, f) && d.items[d.inFlight[f]].index == i
                   && Punctual(cfg, h, d.items[d.inFlight[f]].attempts - 1))
    ensures Tracked(cfg, d)
  {
    assert Spares(cfg, d) == Spares(cfg, c)[i := SpareAt(cfg, d, i)];
    SumUpdate(Spares(cfg, c), i, SpareAt(cfg, d, i));
    forall f | f in d.inFlight
      ensures FlightIn(d, f)
      ensures Punctual(cfg, d.attempts[d.items[d.inFlight[f]].index], d.items[d.inFlight[f]].attempts - 1)
    {
      if SameFlight(c, d, f) && d.items[d.inFlight[f]].index != i {
        assert FlightIn(c, f);
      }
    }
  }

  /** A rewriting of the latest attempt says nothing about the ones before. */
  lemma AmendingStaysPunctual(cfg: Config, h: seq<Attempt>, a: Attempt)
    requires h != [] && Punctual(cfg, h, |h| - 1) && a.start == Last(h).start
    ensures Punctual(cfg, h[..|h| - 1] + [a], |h| - 1)
  {
    var h' := h[..|h| - 1] + [a];
    assert forall k :: 0 <= k < |h| - 1 ==> h'[k] == h[k];
    assert h'[0].start == h[0].start;
  }

  // --- the workers ---

  lemma BeginStaysTracked(cfg: Config, c: Core, f: Fid)
    requires CoreInv(cfg, c) && Tracked(cfg, c) && c.IsFuture(f) && c.futures[f].phase == Taken
    ensures Tracked(cfg, c.Start(f))
  {
    BusyIsNotParked(cfg, c, f);
    FlightRecord(cfg, c, f);
    FlightIsAlone(c, f);
    BeginRewrites(cfg, c, f);
    BeginningStaysTracked(cfg, c, c.Start(f), f);
  }

  lemma BeginningStaysTracked(cfg: Config, c: Core, d: Core, f: Fid)
    requires Tracked(cfg, c) && FlightIn(c, f) && c.clock >= 0.0 && SameFlight(c, d, f)
    requires var it := c.items[c.inFlight[f]];
             && it.attempts == |c.attempts[it.index]| + 1
             && d.attempts == c.attempts[it.index := c.attempts[it.index] + [Attempt(c.clock, Open, 0.0, 0.0)]]
    requires d.abandoned == c.abandoned && d.inFlight == c.inFlight && d.slots == c.slots
    requires forall g :: g in c.inFlight && g != f ==>
               SameFlight(c, d, g) && d.items[d.inFlight[g]].index != c.items[c.inFlight[f]].index
    ensures Tracked(cfg, d)
  {
    var i := c.items[c.inFlight[f]].index;
    var h, a := c.attempts[i], Attempt(c.clock, Open, 0.0, 0.0);
    OverrunsSnoc(h, a);
    assert Punctual(cfg, h + [a], |h|);
    RewrittenStaysTracked(cfg, c, d, i, c.slots[i], h + [a]);
  }

  lemma BeginRewrites(cfg: Config, c: Core, f: Fid)
    requires Shape(c) && f in c.inFlight && c.items[c.inFlight[f]].state == Pending
    requires forall g :: g in c.inFlight && g != f ==>
               c.items[c.inFlight[g]].index != c.items[c.inFlight[f]].index
    ensures var d, i := c.Start(f), c.items[c.inFlight[f]].index;
            && d.attempts == c.attempts[i := c.attempts[i] + [Attempt(c.clock, Open, 0.0, 0.0)]]
            && d.abandoned == c.abandoned && d.inFlight == c.inFlight && d.slots == c.slots && SameFlight(c, d, f)
            && forall g :: g in c.inFlight && g != f ==> SameFlight(c, d, g) && d.items[d.inFlight[g]].index != i
  {
  }

  lemma FinishStaysTracked(cfg: Config, c: Core, f: Fid, spent: real)
    requires CoreInv(cfg, c) && Tracked(cfg, c) && c.IsFuture(f) && c.futures[f].phase.Executing?
    requires 0.0 <= spent <= c.clock - c.futures[f].phase.since
    ensures Tracked(cfg, c.Report(cfg, f, spent))
  {
    if f in c.abandoned {
      StaleReportChangesNothing(cfg, c, f, spent);
      SameHistoriesStayTracked(cfg, c, c.Report(cfg, f, spent));
    } else {
      BusyIsNotParked(cfg, c, f);
      LiveFinishStaysTracked(cfg, c, f, spent);
    }
  }

  lemma LiveFinishStaysTracked(cfg: Config, c: Core, f: Fid, spent: real)
    requires CoreInv(cfg, c) && Tracked(cfg, c) && f in c.inFlight && c.futures[f].phase.Executing?
    requires 0.0 <= spent <= c.clock - c.futures[f].phase.since
    ensures Tracked(cfg, c.Report(cfg, f, spent))
  {
    FlightRecord(cfg, c, f);
    FlightIsAlone(c, f);
    ReportRevises(cfg, c, f, spent);
    var it := c.items[c.inFlight[f]];
    var h := c.attempts[it.index];
    var o := cfg.call(it.index, |h|);
    FinishIsFaithful(cfg, it, o, spent);
    OverrunsAmend(h, Last(h).(verdict := Ended(o), spent := spent));
    AmendingStaysPunctual(cfg, h, Last(h).(verdict := Ended(o), spent := spent));
    RevisionStaysTracked(cfg, c, f, Reported(EscapeOf(o)), FinishWith(it, o, spent, cfg.retry).item,
                         EndedHistory(h, o, spent));
  }

  lemma {:induction false} RevisionStaysTracked(cfg: Config, c: Core, f: Fid, p: Phase, it: Item, h: seq<Attempt>)
    requires Shape(c) && Tracked(cfg, c) && f in c.inFlight
    requires it.index == c.items[c.inFlight[f]].index && it.attempts == |h|
    requires forall g :: g in c.inFlight && g != f ==> c.items[c.inFlight[g]].index != it.index
    requires Overruns(h) == Overruns(c.attempts[it.index]) && Punctual(cfg, h, |h| - 1)
    ensures Tracked(cfg, Revised(c, f, p, it, h))
  {
    RewrittenStaysTracked(cfg, c, Revised(c, f, p, it, h), it.index, c.slots[it.index], h);
  }

  lemma OthersStayTracked(cfg: Config, s: State, a: Action)
    requires CoreInv(cfg, s.core) && Tracked(cfg, s.core) && Can(cfg, s, a) && ByOthers(a)
    ensures Tracked(cfg, Do(cfg, s, a).core)
  {
    match a
    case Begin(f) => BeginStaysTracked(cfg, s.core, f);
    case Finish(f, spent) => FinishStaysTracked(cfg, s.core, f, spent);
    case _ => PhasesStayTracked(cfg, s, a);
  }

  lemma PhasesStayTracked(cfg: Config, s: State, a: Action)
    requires Tracked(cfg, s.core) && Can(cfg, s, a) && (a.Tick? || a.Request? || a.TakeUp? || a.Settle?)
    ensures Tracked(cfg, Do(cfg, s, a).core)
  {
    assert forall f :: f in s.core.inFlight ==> FlightIn(s.core, f);
    SameHistoriesStayTracked(cfg, s.core, Do(cfg, s, a).core);
  }

  // --- the coordinator ---

  /** What is resubmitted was due before the deadline. */
  lemma ResubmitStaysTracked(cfg: Config, c: Core, w: Wid, now: real)
    requires CoreInv(cfg, c) && Tracked(cfg, c) && !c.stopping && w in c.retryWait && c.retryWait[w] <= now
    requires cfg.OverallDeadline().Some? ==> now < cfg.OverallDeadline().value
    ensures Tracked(cfg, c.Resubmit(w))
  {
    var d, i := c.Resubmit(w), c.items[w].index;
    ParkedIsAlone(c, w);
    assert ParkedOk(cfg, c.items[w], c.retryWait[w], c.attempts[i], c.stopping);
    assert Over(Last(c.attempts[i])) <= c.retryWait[w];
    assert Punctual(cfg, c.attempts[i], |c.attempts[i]|);
    assert c.attempts[i := c.attempts[i]] == c.attempts;
    ResubmissionIsNew(c, w);
    RewrittenStaysTracked(cfg, c, d, i, InFlight(|c.futures|), c.attempts[i]);
  }

  lemma ResubmissionIsNew(c: Core, w: Wid)
    requires Shape(c) && w in c.retryWait
    requires forall f :: f in c.inFlight ==> c.items[c.inFlight[f]].index != c.items[w].index
    ensures var d, i := c.Resubmit(w), c.items[w].index;
            && d.abandoned == c.abandoned && d.attempts == c.attempts
            && d.slots == c.slots[i := InFlight(|c.futures|)]
            && forall f :: f in d.inFlight ==>
                 || (SameFlight(c, d, f) && d.items[d.inFlight[f]].index != i)
                 || (FlightIn(d, f) && d.items[d.inFlight[f]].index == i
                     && d.items[d.inFlight[f]].attempts == c.items[w].attempts + 1)
  {
  }

  /** Every live index has something to spare, and none more than it can hold. */
  lemma SparesCoverLives(cfg: Config, c: Core)
    requires cfg.Valid() && TimeoutsAreRetried(cfg) && CoreInv(cfg, c) && Tracked(cfg, c)
    ensures Sum(Lives(c)) <= Sum(Spares(cfg, c)) <= Holdable(cfg) * Sum(Lives(c))
  {
    var m := Holdable(cfg);
    forall i | 0 <= i < |c.slots| ensures Lives(c)[i] <= Spares(cfg, c)[i] <= m * Lives(c)[i] {
      if !c.slots[i].Delivered? {
        LiveIndexCanSpare(cfg, c, i);
      }
      assert m * 0 == 0 && m * 1 == m;
    }
    SumBetween(Spares(cfg, c), Lives(c), m);
  }

  lemma LiveIndexCanSpare(cfg: Config, c: Core, i: nat)
    requires cfg.Valid() && TimeoutsAreRetried(cfg) && CoreInv(cfg, c) && Tracked(cfg, c)
    requires i < c.nextIndex && !c.slots[i].Delivered?
    ensures Overruns(c.attempts[i]) < Holdable(cfg)
  {
    LiveOverrunsAreFew(cfg, c, i);
    HoldingsAreHoldable(cfg, i, c.attempts[i], Overruns(c.attempts[i]) + 1);
  }

  lemma PullStaysCovered(cfg: Config, c: Core, arg: Value)
    requires cfg.Valid() && TimeoutsAreRetried(cfg) && CoreInv(cfg, c) && Tracked(cfg, c)
    requires WindowInv(cfg, c) && c.Load() < cfg.maxPending
    ensures Covered(cfg, c.PullItem(arg))
  {
    var m := Holdable(cfg);
    PullAddsSpares(cfg, c, arg);
    SparesCoverLives(cfg, c);
    PotentialFits(m, |c.abandoned|, Sum(Lives(c)), Sum(Spares(cfg, c)), cfg.maxPending);
    OneMoreIndex(m, |c.slots|);
  }

  lemma PullAddsSpares(cfg: Config, c: Core, arg: Value)
    requires |c.slots| == |c.attempts|
    ensures var d := c.PullItem(arg);
            && |d.slots| == |d.attempts| == |c.slots| + 1 && d.abandoned == c.abandoned
            && Sum(Spares(cfg, d)) == Sum(Spares(cfg, c)) + Holdable(cfg)
  {
    assert Spares(cfg, c.PullItem(arg)) == Spares(cfg, c) + [Holdable(cfg)];
    SumSnoc(Spares(cfg, c), Holdable(cfg));
  }

  lemma PullStaysTracked(cfg: Config, c: Core, arg: Value)
    requires Shape(c) && Tracked(cfg, c) && Covered(cfg, c.PullItem(arg))
    ensures Tracked(cfg, c.PullItem(arg))
  {
    var d := c.PullItem(arg);
    forall f | f in d.inFlight
      ensures FlightIn(d, f)
      ensures Punctual(cfg, d.attempts[d.items[d.inFlight[f]].index], d.items[d.inFlight[f]].attempts - 1)
    {
      if f != |c.futures| {
        assert FlightIn(c, f);
      }
    }
  }

  lemma CollectStaysTracked(cfg: Config, s: State, f: Fid, delay: real, due: real)
    requires Inv(cfg, s) && Tracked(cfg, s.core) && Can(cfg, s, CollectOne(f, delay, due))
    ensures Tracked(cfg, Do(cfg, s, CollectOne(f, delay, due)).core)
  {
    var c := s.core;
    CollectStep(cfg, s, f, delay, due);
    if f in c.abandoned {
      FewerFlightsStayTracked(cfg, c, c.DropAbandoned(f));
    } else if c.items[c.inFlight[f]].state == RetryWait {
      FlightRecord(cfg, c, f);
      ParkShelves(c, f, delay, due);
      ShelveStaysTracked(cfg, c, f, delay, due);
    } else {
      HandingOverStaysTracked(cfg, c, f);
    }
  }

  lemma HandingOverStaysTracked(cfg: Config, c: Core, f: Fid)
    requires Shape(c) && Placed(c) && Tracked(cfg, c) && f in c.inFlight
    ensures Tracked(cfg, HandedOver(c, f))
  {
    var i := c.items[c.inFlight[f]].index;
    FlightIsAlone(c, f);
    assert forall g :: g in c.inFlight ==> FlightIn(c, g);
    RewrittenStaysTracked(cfg, c, HandedOver(c, f), i, Delivered(|c.yielded|), c.attempts[i]);
  }

  lemma FewerFlightsStayTracked(cfg: Config, c: Core, d: Core)
    requires Tracked(cfg, c) && d.attempts == c.attempts && d.abandoned <= c.abandoned
    requires d.items == c.items && d.slots == c.slots
    requires forall f :: f in d.inFlight ==> f in c.inFlight && d.inFlight[f] == c.inFlight[f]
    ensures Tracked(cfg, d)
  {
    SubsetsAreSmaller(d.abandoned, c.abandoned);
    assert forall f :: f in c.inFlight ==> FlightIn(c, f);
    SameHistoriesStayTracked(cfg, c, d);
  }

  lemma {:induction false} SubsetsAreSmaller(a: set<Fid>, b: set<Fid>)
    requires a <= b
    ensures |a| <= |b|
    decreases a
  {
    if a != {} {
      var f := Pick(a);
      SubsetsAreSmaller(a - {f}, b - {f});
    }
  }

  lemma ShelveStaysTracked(cfg: Config, c: Core, f: Fid, delay: real, due: real)
    requires Shape(c) && Placed(c) && Tracked(cfg, c) && f in c.inFlight
    requires c.attempts[c.items[c.inFlight[f]].index] != []
    ensures var h := c.attempts[c.items[c.inFlight[f]].index];
            Tracked(cfg, Shelved(c, f, c.inFlight[f], due, DelayedHistory(h, delay)))
  {
    var h := c.attempts[c.items[c.inFlight[f]].index];
    FlightIsAlone(c, f);
    OverrunsAmend(h, Last(h).(delay := delay));
    AmendingStaysPunctual(cfg, h, Last(h).(delay := delay));
    ShelvingStaysTracked(cfg, c, f, due, DelayedHistory(h, delay));
  }

  lemma {:induction false} ShelvingStaysTracked(cfg: Config, c: Core, f: Fid, due: real, h: seq<Attempt>)
    requires Shape(c) && Placed(c) && Tracked(cfg, c) && f in c.inFlight
    requires forall g :: g in c.inFlight && g != f ==> c.items[c.inFlight[g]].index != c.items[c.inFlight[f]].index
    requires Overruns(h) == Overruns(c.attempts[c.items[c.inFlight[f]].index]) && Punctual(cfg, h, |h| - 1)
    ensures Tracked(cfg, Shelved(c, f, c.inFlight[f], due, h))
  {
    var i, w := c.items[c.inFlight[f]].index, c.inFlight[f];
    RewrittenStaysTracked(cfg, c, Shelved(c, f, w, due, h), i, Backoff(w), h);
  }

  lemma ScanStaysTracked(cfg: Config, s: State, f: Fid, delay: real, due: real)
    requires cfg.Valid() && TimeoutsAreRetried(cfg)
    requires Inv(cfg, s) && Tracked(cfg, s.core) && Can(cfg, s, ScanOne(f, delay, due))
    ensures Tracked(cfg, Do(cfg, s, ScanOne(f, delay, due)).core)
  {
    var c, now, tt := s.core, s.pc.now, cfg.taskTimeout.value;
    ScanStep(cfg, s, f, delay, due);
    if Expired(c.items[c.inFlight[f]], now, tt) {
      ExpiredIsExecuting(cfg, c, f, now, tt);
      LiveIndexCanSpare(cfg, c, c.items[c.inFlight[f]].index);
      if cfg.RetriesTimeout(c.items[c.inFlight[f]].attempts) {
        ScanParkMoves(cfg, c, f, now, tt, delay, due);
        OverrunStaysTracked(cfg, c, f, now, due, delay);
      } else {
        ScanDeliverMoves(cfg, c, f, now, tt);
        OverrunStaysTracked(cfg, c, f, now, due, 0.0);
      }
    }
  }

  /** One more execution is abandoned, and it is one more overrun of its index. */
  lemma OverrunStaysTracked(cfg: Config, c: Core, f: Fid, now: real, due: real, delay: real)
    requires Shape(c) && Placed(c) && Tracked(cfg, c) && f in c.inFlight && c.items[c.inFlight[f]].startedAt.Some?
    requires var h := c.attempts[c.items[c.inFlight[f]].index];
             h != [] && Last(h).verdict == Open && Overruns(h) < Holdable(cfg)
    ensures var h := OverranHistory(c.attempts[c.items[c.inFlight[f]].index], now, delay);
            Tracked(cfg, GivenUp(c, f, now, h)) && Tracked(cfg, Cloned(c, f, now, due, h))
  {
    var h := c.attempts[c.items[c.inFlight[f]].index];
    var a := Attempt(Last(h).start, Overran, now - Last(h).start, delay);
    FlightIsAlone(c, f);
    OverrunsAmend(h, a);
    AmendingStaysPunctual(cfg, h, a);
    GivingUpStaysTracked(cfg, c, f, now, OverranHistory(h, now, delay));
    CloningStaysTracked(cfg, c, f, now, due, OverranHistory(h, now, delay));
  }

  lemma {:induction false} GivingUpStaysTracked(cfg: Config, c: Core, f: Fid, now: real, h: seq<Attempt>)
    requires Shape(c) && Placed(c) && Tracked(cfg, c) && f in c.inFlight && c.items[c.inFlight[f]].startedAt.Some?
    requires forall g :: g in c.inFlight && g != f ==> c.items[c.inFlight[g]].index != c.items[c.inFlight[f]].index
    requires Overruns(h) == Overruns(c.attempts[c.items[c.inFlight[f]].index]) + 1 <= Holdable(cfg)
    requires Punctual(cfg, h, |h| - 1)
    ensures Tracked(cfg, GivenUp(c, f, now, h))
  {
    var i := c.items[c.inFlight[f]].index;
    AbandonedGrows(c, f);
    RewrittenStaysTracked(cfg, c, GivenUp(c, f, now, h), i, Delivered(|c.yielded|), h);
  }

  lemma {:induction false} CloningStaysTracked(cfg: Config, c: Core, f: Fid, now: real, due: real, h: seq<Attempt>)
    requires Shape(c) && Placed(c) && Tracked(cfg, c) && f in c.inFlight && c.items[c.inFlight[f]].startedAt.Some?
    requires forall g :: g in c.inFlight && g != f ==> c.items[c.inFlight[g]].index != c.items[c.inFlight[f]].index
    requires Overruns(h) == Overruns(c.attempts[c.items[c.inFlight[f]].index]) + 1 <= Holdable(cfg)
    requires Punctual(cfg, h, |h| - 1)
    ensures Tracked(cfg, Cloned(c, f, now, due, h))
  {
    var i := c.items[c.inFlight[f]].index;
    AbandonedGrows(c, f);
    RewrittenStaysTracked(cfg, c, Cloned(c, f, now, due, h), i, Backoff(|c.items|), h);
  }

  lemma AbandonedGrows(c: Core, f: Fid)
    requires Shape(c) && Placed(c) && f in c.inFlight
    ensures |c.abandoned + {f}| == |c.abandoned| + 1
    ensures c.items[c.inFlight[f]].index < |c.slots| && c.slots[c.items[c.inFlight[f]].index].InFlight?
  {
    assert f !in c.abandoned;
  }

  lemma AskStaysTracked(cfg: Config, c: Core, f: Fid)
    requires Tracked(cfg, c) && KeyPresent(c, f)
    ensures Tracked(cfg, c.Ask(f))
  {
    assert forall g :: g in c.inFlight ==> FlightIn(c, g);
    SameHistoriesStayTracked(cfg, c, c.Ask(f));
  }

  lemma CancelStaysTracked(cfg: Config, c: Core, f: Fid)
    requires Tracked(cfg, c) && KeyPresent(c, f)
    ensures Tracked(cfg, c.CancelFuture(f))
  {
    assert forall g :: g in c.inFlight ==> FlightIn(c, g);
    SameHistoriesStayTracked(cfg, c, c.CancelFuture(f));
  }

  lemma DropStaysTracked(cfg: Config, c: Core, w: Wid)
    requires Tracked(cfg, c) && w < |c.items|
    ensures Tracked(cfg, c.CancelParked(w))
  {
    assert forall g :: g in c.inFlight ==> FlightIn(c, g);
    SameHistoriesStayTracked(cfg, c, c.CancelParked(w));
  }

  lemma TeardownStaysTimely(cfg: Config, s: State, a: Action)
    requires Inv(cfg, s) && Timely(cfg, s) && Can(cfg, s, a) && (a.AskOne? || a.CancelOne? || a.DropOne?)
    ensures Timely(cfg, Do(cfg, s, a))
  {
    match a
    case AskOne(f) => AskStaysTracked(cfg, s.core, f);
    case CancelOne(f) => CancelStaysTracked(cfg, s.core, f);
    case DropOne(w) => DropStaysTracked(cfg, s.core, w);
  }

  lemma EnteringStaysTimely(cfg: Config, s: State, wake: real)
    requires Timely(cfg, s) && CanEnter(cfg, s, wake)
    ensures Timely(cfg, DoEnter(cfg, s, wake))
  {
    assert forall f :: f in s.core.inFlight ==> FlightIn(s.core, f);
    SameHistoriesStayTracked(cfg, s.core, DoEnter(cfg, s, wake).core);
  }

  lemma ControlStaysTimely(cfg: Config, s: State, a: Action)
    requires Timely(cfg, s) && Can(cfg, s, a) && (a.Wake? || a.Interrupt? || a.Resume? || a.CloseHere?)
    ensures Timely(cfg, Do(cfg, s, a))
  {
    assert forall f :: f in s.core.inFlight ==> FlightIn(s.core, f);
    SameHistoriesStayTracked(cfg, s.core, Do(cfg, s, a).core);
  }

  lemma ResubmitStaysTimely(cfg: Config, s: State, w: Wid)
    requires Inv(cfg, s) && Timely(cfg, s) && Can(cfg, s, ResubmitOne(w))
    ensures Timely(cfg, Do(cfg, s, ResubmitOne(w)))
  {
    ResubmitStaysTracked(cfg, s.core, w, s.pc.now);
  }

  lemma PullStaysTimely(cfg: Config, s: State)
    requires cfg.Valid() && TimeoutsAreRetried(cfg) && WindowInv(cfg, s.core)
    requires CoreInv(cfg, s.core) && Timely(cfg, s) && Can(cfg, s, PullOne)
    ensures Timely(cfg, Do(cfg, s, PullOne))
  {
    if cfg.input(s.core.nextIndex).Next? {
      PullStaysCovered(cfg, s.core, cfg.input(s.core.nextIndex).arg);
      PullStaysTracked(cfg, s.core, cfg.input(s.core.nextIndex).arg);
    } else {
      FailedPullStaysTimely(cfg, s);
    }
  }

  lemma FailedPullStaysTimely(cfg: Config, s: State)
    requires Timely(cfg, s) && s.pc.Pulling? && !cfg.input(s.core.nextIndex).Next?
    ensures Timely(cfg, DoPull(cfg, s))
  {
    FewerFlightsStayTracked(cfg, s.core, DoPull(cfg, s).core);
  }

  lemma OthersStayTimely(cfg: Config, s: State, a: Action)
    requires cfg.Valid() && Inv(cfg, s) && Timely(cfg, s) && Can(cfg, s, a) && ByOthers(a)
    ensures Timely(cfg, Do(cfg, s, a))
  {
    OthersStayTracked(cfg, s, a);
    WorkersStayElsewhere(cfg, s, a);
  }

  lemma FillingStaysTimely(cfg: Config, s: State, a: Action)
    requires cfg.Valid() && TimeoutsAreRetried(cfg) && Reachable(cfg, s) && Timely(cfg, s) && Can(cfg, s, a)
    requires a.ResubmitOne? || a.PullOne?
    ensures Timely(cfg, Do(cfg, s, a))
  {
    ReachableStatesAreSound(cfg, s);
    match a
    case ResubmitOne(w) => ResubmitStaysTimely(cfg, s, w);
    case PullOne =>
      ReachableKeepsWindow(cfg, s);
      PullStaysTimely(cfg, s);
  }

  lemma EmptyingStaysTimely(cfg: Config, s: State, a: Action)
    requires cfg.Valid() && TimeoutsAreRetried(cfg) && Inv(cfg, s) && Timely(cfg, s) && Can(cfg, s, a)
    requires a.CollectOne? || a.ScanOne?
    ensures Timely(cfg, Do(cfg, s, a))
  {
    match a
    case CollectOne(f, delay, due) =>
      CollectStaysTracked(cfg, s, f, delay, due);
      CollectStep(cfg, s, f, delay, due);
    case ScanOne(f, delay, due) =>
      ScanStaysTracked(cfg, s, f, delay, due);
      ScanStep(cfg, s, f, delay, due);
  }

  lemma StepStaysTimely(cfg: Config, s: State, a: Action)
    requires cfg.Valid() && TimeoutsAreRetried(cfg) && Reachable(cfg, s) && Timely(cfg, s) && Can(cfg, s, a)
    ensures Timely(cfg, Do(cfg, s, a))
  {
    ReachableStatesAreSound(cfg, s);
    if ByOthers(a) {
      OthersStayTimely(cfg, s, a);
    } else if a.AskOne? || a.CancelOne? || a.DropOne? {
      TeardownStaysTimely(cfg, s, a);
    } else if a.Enter? {
      EnteringStaysTimely(cfg, s, a.wake);
    } else if a.Wake? || a.Interrupt? || a.Resume? || a.CloseHere? {
      ControlStaysTimely(cfg, s, a);
    } else if a.ResubmitOne? || a.PullOne? {
      FillingStaysTimely(cfg, s, a);
    } else {
      EmptyingStaysTimely(cfg, s, a);
    }
  }

  lemma {:induction false} PathStaysTimely(cfg: Config, s: State, acts: seq<Action>, t: State)
    requires cfg.Valid() && TimeoutsAreRetried(cfg) && Reachable(cfg, s) && Timely(cfg, s) && Path(cfg, s, acts, t)
    ensures Timely(cfg, t)
    decreases |acts|
  {
    if acts != [] {
      ReachableSnoc(cfg, s, acts[0]);
      StepStaysTimely(cfg, s, acts[0]);
      PathStaysTimely(cfg, Do(cfg, s, acts[0]), acts[1..], t);
    }
  }

  lemma ReachableIsTracked(cfg: Config, s: State)
    requires cfg.Valid() && TimeoutsAreRetried(cfg) && Reachable(cfg, s)
    ensures Tracked(cfg, s.core)
  {
    var acts :| Path(cfg, Init(), acts, s);
    StartIsReachable(cfg);
    StartIsTimely(cfg);
    PathStaysTimely(cfg, Init(), acts, s);
  }

  lemma StartIsTimely(cfg: Config)
    ensures Timely(cfg, Init())
  {
    assert Spares(cfg, Init().core) == [];
    assert Holdable(cfg) * 0 == 0;
  }

  /** Of each slot of the window, and of each index pulled, no more is ever outstanding than there are
      attempts and time for. */
  lemma LoadIsHoldable(cfg: Config, s: State)
    requires cfg.Valid() && TimeoutsAreRetried(cfg) && Reachable(cfg, s)
    ensures |s.core.inFlight| + |s.core.retryWait| + |s.core.abandoned| <= Holdable(cfg) * cfg.maxPending
    ensures |s.core.inFlight| + |s.core.retryWait| + |s.core.abandoned| <= Holdable(cfg) * s.core.nextIndex
  {
    ReachableStatesAreSound(cfg, s);
    ReachableIsTracked(cfg, s);
    ReachableKeepsWindow(cfg, s);
    SparesCoverLives(cfg, s.core);
  }
}

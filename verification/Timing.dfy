/** What a run guarantees about time: waits, deadlines, backoff and the time charged to an item. */
module Timing {
  import opened TaskStates
  import opened Retry
  import opened WorkItems
  import opened Protocol
  import opened Invariants
  import opened Preservation
  import opened Steps

  // --- waiting ---

  /** A wait does not outlast anything the coordinator must attend to: the due time of a backoff, the
      overall deadline, or the moment an execution in flight overruns. The last covers executions
      that begin only after the wait did. */
  lemma WaitsAreShortEnough(cfg: Config, s: State)
    requires cfg.Valid() && Reachable(cfg, s) && s.pc.Waiting?
    ensures var c, from, wake := s.core, s.pc.from, s.pc.wake;
            && from <= c.clock && wake <= from + 0.5
            && (forall w :: w in c.retryWait ==> wake <= from || wake <= c.retryWait[w])
            && (cfg.overallTimeout.Some? && cfg.overallTimeout.value > 0.0 ==>
                  wake <= from || wake <= cfg.overallTimeout.value)
            && (cfg.taskTimeout.Some? ==> forall f ::
                  f in c.inFlight && f < |c.futures| && c.futures[f].phase.Executing? ==>
                    wake <= from || wake <= c.futures[f].phase.since + cfg.taskTimeout.value)
  {
    ReachableStatesAreSound(cfg, s);
    var c, from, wake := s.core, s.pc.from, s.pc.wake;
    if cfg.taskTimeout.Some? {
      forall f | f in c.inFlight && c.futures[f].phase.Executing?
        ensures wake <= from || wake <= c.futures[f].phase.since + cfg.taskTimeout.value
      {
        assert OverrunAfter(cfg.taskTimeout.value, c.futures[f].phase, from, wake);
      }
    }
  }

  /** No retry is resubmitted before it is due, and no item is timed out before it has executed for
      the whole task timeout. */
  lemma NothingIsEarly(cfg: Config, s: State, a: Action)
    requires cfg.Valid() && Reachable(cfg, s) && Can(cfg, s, a)
    ensures a.ResubmitOne? ==> a.w in s.core.retryWait && s.core.retryWait[a.w] <= s.core.clock
    ensures forall f :: f in Do(cfg, s, a).core.abandoned && f !in s.core.abandoned ==>
              && f < |s.core.futures| && s.core.futures[f].phase.Executing?
              && cfg.taskTimeout.Some?
              && s.core.futures[f].phase.since + cfg.taskTimeout.value <= s.core.clock
  {
    if a.ScanOne? {
      ReachableStatesAreSound(cfg, s);
      ScanIsNotEarly(cfg, s, a.f, a.delay, a.due);
    } else {
      OnlyScansAbandon(cfg, s, a);
    }
    if a.ResubmitOne? {
      ResubmissionsAreDue(cfg, s, a.w);
    }
  }

  lemma ResubmissionsAreDue(cfg: Config, s: State, w: Wid)
    requires cfg.Valid() && Reachable(cfg, s) && Can(cfg, s, ResubmitOne(w))
    ensures w in s.core.retryWait && s.core.retryWait[w] <= s.core.clock
  {
    ReachableStatesAreSound(cfg, s);
  }

  lemma OnlyScansAbandon(cfg: Config, s: State, a: Action)
    requires cfg.Valid() && Reachable(cfg, s) && Can(cfg, s, a) && !a.ScanOne?
    ensures Do(cfg, s, a).core.abandoned <= s.core.abandoned
  {
    match a
    case CollectOne(f, delay, due) => CollectingAbandonsNothing(cfg, s, f, delay, due);
    case Enter(wake) => EnteringAbandonsNothing(cfg, s, wake);
    case _ =>
      if ByOthers(a) {
        OthersAbandonNothing(cfg, s, a);
      } else {
        ControlAbandonsNothing(cfg, s, a);
      }
  }

  lemma CollectingAbandonsNothing(cfg: Config, s: State, f: Fid, delay: real, due: real)
    requires cfg.Valid() && Reachable(cfg, s) && Can(cfg, s, CollectOne(f, delay, due))
    ensures Do(cfg, s, CollectOne(f, delay, due)).core.abandoned <= s.core.abandoned
  {
    ReachableStatesAreSound(cfg, s);
    CollectStep(cfg, s, f, delay, due);
  }

  lemma OthersAbandonNothing(cfg: Config, s: State, a: Action)
    requires cfg.Valid() && Reachable(cfg, s) && Can(cfg, s, a) && ByOthers(a)
    ensures Do(cfg, s, a).core.abandoned == s.core.abandoned
  {
    ReachableStatesAreSound(cfg, s);
    WorkersStayElsewhere(cfg, s, a);
  }

  lemma ControlAbandonsNothing(cfg: Config, s: State, a: Action)
    requires Can(cfg, s, a) && !ByOthers(a) && !a.ScanOne? && !a.CollectOne? && !a.Enter?
    ensures Do(cfg, s, a).core.abandoned == s.core.abandoned
  {
    match a
    case AskOne(f) => assert Do(cfg, s, AskOne(f)).core.abandoned == s.core.abandoned;
    case CancelOne(f) => CancellingAbandonsNothing(s.core, f);
    case DropOne(w) => assert Do(cfg, s, DropOne(w)).core.abandoned == s.core.abandoned;
    case _ => LoopAbandonsNothing(cfg, s, a);
  }

  lemma CancellingAbandonsNothing(c: Core, f: Fid)
    ensures KeyPresent(c, f) ==> c.CancelFuture(f).abandoned == c.abandoned
  {
  }

  lemma LoopAbandonsNothing(cfg: Config, s: State, a: Action)
    requires Can(cfg, s, a)
    requires a.ResubmitOne? || a.PullOne? || a.Wake? || a.Interrupt? || a.Resume? || a.CloseHere?
    ensures Do(cfg, s, a).core.abandoned == s.core.abandoned
  {
    match a
    case ResubmitOne(w) => assert Do(cfg, s, ResubmitOne(w)).core.abandoned == s.core.abandoned;
    case PullOne => PullingAbandonsNothing(cfg, s);
    case _ =>
  }

  lemma PullingAbandonsNothing(cfg: Config, s: State)
    requires Can(cfg, s, PullOne)
    ensures Do(cfg, s, PullOne).core.abandoned == s.core.abandoned
  {
    assert Do(cfg, s, PullOne) == DoPull(cfg, s);
  }

  lemma EnteringAbandonsNothing(cfg: Config, s: State, wake: real)
    ensures DoEnter(cfg, s, wake).core.abandoned == s.core.abandoned
  {
  }

  lemma ScanIsNotEarly(cfg: Config, s: State, f: Fid, delay: real, due: real)
    requires cfg.Valid() && Inv(cfg, s) && Can(cfg, s, ScanOne(f, delay, due))
    ensures var d := Do(cfg, s, ScanOne(f, delay, due)).core;
            && d.abandoned <= s.core.abandoned + {f}
            && (f in d.abandoned ==>
                  && s.core.futures[f].phase.Executing?
                  && s.core.futures[f].phase.since + cfg.taskTimeout.value <= s.core.clock)
  {
    var c, now, tt := s.core, s.pc.now, cfg.taskTimeout.value;
    ScanStep(cfg, s, f, delay, due);
    if Expired(c.items[c.inFlight[f]], now, tt) {
      ExpiredIsExecuting(cfg, c, f, now, tt);
      if cfg.RetriesTimeout(c.items[c.inFlight[f]].attempts) {
        ScanParkMoves(cfg, c, f, now, tt, delay, due);
      } else {
        ScanDeliverMoves(cfg, c, f, now, tt);
      }
    }
  }

  // --- backoff ---

  /** Consecutive executions of an index are apart by at least the time charged for the earlier one
      and a backoff the policy allows after it, whether it failed or timed out. */
  lemma ExecutionsAreSpaced(cfg: Config, s: State, i: nat, k: nat)
    requires cfg.Valid() && Reachable(cfg, s)
    requires i < |s.core.attempts| && 0 < k < |s.core.attempts[i]|
    ensures var a, b := s.core.attempts[i][k - 1], s.core.attempts[i][k];
            && cfg.retry.Some?
            && cfg.retry.value.MayDelay(k, a.delay)
            && a.start + a.spent + a.delay <= b.start
            && a.spent >= 0.0 && a.delay >= 0.0
  {
    ReachableStatesAreSound(cfg, s);
    var h := s.core.attempts[i];
    assert Genuine(cfg, i, h) && Spaced(cfg, h);
    assert Rested(cfg, h[k - 1], k, h[k].start);
    assert GenuineAt(cfg, i, h, k - 1);
    RepeatedMeansPolicy(cfg, s.core, i);
    DelaysAreNonNegative(cfg.retry.value, k, h[k - 1].delay);
  }

  lemma RepeatedMeansPolicy(cfg: Config, c: Core, i: nat)
    requires CoreInv(cfg, c) && i < c.nextIndex && |c.attempts[i]| >= 2
    ensures cfg.retry.Some?
  {
    var h := c.attempts[i];
    HistoryIsRetried(cfg, c, i);
    assert Retryable(cfg, h[0].verdict, 1);
  }

  /** The n-th execution begins no earlier than the first plus all the backoffs in between. */
  lemma {:induction false} BackoffsAddUp(cfg: Config, p: RetryPolicy, i: nat, h: seq<Attempt>, n: nat)
    requires cfg.retry == Some(p) && p.Valid() && !p.jitter
    requires Genuine(cfg, i, h) && Spaced(cfg, h) && n < |h|
    ensures h[0].start + TotalDelay(p, n) <= h[n].start
  {
    if n > 0 {
      BackoffsAddUp(cfg, p, i, h, n - 1);
      assert Rested(cfg, h[n - 1], n, h[n].start);
      assert GenuineAt(cfg, i, h, n - 1);
    }
  }

  /** Under exponential backoff without jitter, the last of a executions of an index begins at least
      backoff * (2**(a - 1) - 1) after the first. */
  lemma ExponentialBackoffHolds(cfg: Config, s: State, i: nat)
    requires cfg.Valid() && Reachable(cfg, s)
    requires cfg.retry.Some? && cfg.retry.value.strategy == Exponential && !cfg.retry.value.jitter
    requires i < |s.core.attempts| && s.core.attempts[i] != []
    ensures var h, p := s.core.attempts[i], cfg.retry.value;
            h[|h| - 1].start - h[0].start >= p.backoff * (Pow2(|h| - 1) as real - 1.0)
  {
    ReachableStatesAreSound(cfg, s);
    var h, p := s.core.attempts[i], cfg.retry.value;
    assert Genuine(cfg, i, h) && Spaced(cfg, h);
    BackoffsAddUp(cfg, p, i, h, |h| - 1);
    ExponentialBackoffDoubles(p, |h| - 1);
  }

  /** Under fixed backoff without jitter, consecutive executions of an index begin at least the backoff
      apart. */
  lemma FixedBackoffHolds(cfg: Config, s: State, i: nat, k: nat)
    requires cfg.Valid() && Reachable(cfg, s)
    requires cfg.retry.Some? && cfg.retry.value.strategy == Fixed && !cfg.retry.value.jitter
    requires i < |s.core.attempts| && 0 < k < |s.core.attempts[i]|
    ensures s.core.attempts[i][k].start >= s.core.attempts[i][k - 1].start + cfg.retry.value.backoff
  {
    ExecutionsAreSpaced(cfg, s, i, k);
    DelaysInClosedForm(cfg.retry.value, k, s.core.attempts[i][k - 1].delay);
  }

  // --- the time charged to an item ---

  function Overruns(h: seq<Attempt>): nat {
    if h == [] then 0
    else Overruns(h[..|h| - 1]) + (if h[|h| - 1].verdict == Overran then 1 else 0)
  }

  lemma {:induction false} ChargedCoversOverruns(cfg: Config, i: nat, h: seq<Attempt>)
    requires Genuine(cfg, i, h)
    requires cfg.taskTimeout.Some? && cfg.taskTimeout.value > 0.0
    ensures Charged(h) >= cfg.taskTimeout.value * (Overruns(h) as real)
  {
    var tt := cfg.taskTimeout.value;
    if h == [] {
      assert tt * 0.0 == 0.0;
    } else {
      var g := h[..|h| - 1];
      GenuinePrefix(cfg, i, h);
      assert GenuineAt(cfg, i, h, |h| - 1);
      if h[|h| - 1].verdict != Open {
        ChargedCoversOverruns(cfg, i, g);
        var n := Overruns(g) as real;
        assert tt * (n + 1.0) == tt * n + tt;
      } else {
        ChargedCoversOverruns(cfg, i, g);
      }
    }
  }

  lemma GenuinePrefix(cfg: Config, i: nat, h: seq<Attempt>)
    requires h != [] && Genuine(cfg, i, h)
    ensures Genuine(cfg, i, h[..|h| - 1])
  {
    var g := h[..|h| - 1];
    forall k | 0 <= k < |g| ensures GenuineAt(cfg, i, g, k) {
      assert GenuineAt(cfg, i, h, k);
    }
  }

  /** The elapsed time of a delivered item is the sum of what its executions were charged, through
      all retries and clones, and so at least one task timeout for each execution that overran. */
  lemma ElapsedIsConserved(cfg: Config, s: State, k: nat)
    requires cfg.Valid() && Reachable(cfg, s) && k < |s.core.yielded|
    ensures s.core.yielded[k] < |s.core.items|
    ensures var it := s.core.items[s.core.yielded[k]];
            && it.index < |s.core.attempts|
            && it.elapsed == Charged(s.core.attempts[it.index])
            && (cfg.taskTimeout.Some? ==>
                  it.elapsed >= cfg.taskTimeout.value * (Overruns(s.core.attempts[it.index]) as real))
  {
    ReachableStatesAreSound(cfg, s);
    var it := s.core.items[s.core.yielded[k]];
    var h := s.core.attempts[it.index];
    assert DeliveredOk(cfg, it, h) && Genuine(cfg, it.index, h);
    if cfg.taskTimeout.Some? {
      ChargedCoversOverruns(cfg, it.index, h);
    }
  }
}

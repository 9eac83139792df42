/** How often one index can overrun: not more often than its attempts allow, and with an overall deadline
    not more often than there is time for. */
module Holdings {
  import opened TaskStates
  import opened Retry
  import opened WorkItems
  import opened Protocol
  import opened Invariants
  import opened Preservation
  import opened Accounts
  import opened Timing
  import opened Window

  /** The moment from which an attempt may be followed by another. */
  function Over(a: Attempt): real {
    a.start + a.spent + a.delay
  }

  /** The first attempt began in the run, and the first n were over before the overall deadline. */
  ghost predicate Punctual(cfg: Config, h: seq<Attempt>, n: int) {
    && (h != [] ==> h[0].start >= 0.0)
    && (cfg.OverallDeadline().Some? ==>
          forall k :: 0 <= k < n && k < |h| ==> Over(h[k]) < cfg.OverallDeadline().value)
  }

  lemma {:induction false} OverrunsSnoc(h: seq<Attempt>, a: Attempt)
    ensures Overruns(h + [a]) == Overruns(h) + if a.verdict == Overran then 1 else 0
  {
    assert (h + [a])[..|h|] == h;
  }

  lemma {:induction false} OverrunsAmend(h: seq<Attempt>, a: Attempt)
    requires h != []
    ensures Overruns(h[..|h| - 1] + [a])
         == Overruns(h) - (if Last(h).verdict == Overran then 1 else 0) + (if a.verdict == Overran then 1 else 0)
  {
    OverrunsSnoc(h[..|h| - 1], a);
  }

  /** The shortest backoff that may follow k executions. */
  function LeastDelay(cfg: Config, k: nat): real {
    if cfg.retry.Some? && !cfg.retry.value.jitter then cfg.retry.value.FullDelay(k) else 0.0
  }

  /** When the r-th execution of an index can begin at the earliest, if all before it overrun. */
  function RoundStart(cfg: Config, r: nat): real
    requires cfg.taskTimeout.Some?
  {
    if r <= 1 then 0.0 else RoundStart(cfg, r - 1) + cfg.taskTimeout.value + LeastDelay(cfg, r - 1)
  }

  /** There is time for the r-th execution of an index that always overruns. */
  predicate Fits(cfg: Config, r: nat)
    requires cfg.taskTimeout.Some?
  {
    cfg.OverallDeadline().Some? ==> RoundStart(cfg, r) < cfg.OverallDeadline().value
  }

  /** How many futures one index can have outstanding, counted from r. */
  function HoldableFrom(cfg: Config, r: nat): (k: nat)
    requires cfg.taskTimeout.Some?
    ensures r <= k
    decreases cfg.MaxAttempts() - r
  {
    if r < cfg.MaxAttempts() && Fits(cfg, r) then HoldableFrom(cfg, r + 1) else r
  }

  /** How many futures one index can have outstanding. */
  function Holdable(cfg: Config): (k: nat)
    ensures k >= 1
  {
    if cfg.taskTimeout.Some? then HoldableFrom(cfg, 1) else 1
  }

  lemma {:induction false} DelaysGrow(p: RetryPolicy, j: nat, k: nat)
    requires p.Valid() && 1 <= j <= k
    ensures p.FullDelay(j) <= p.FullDelay(k)
    decreases k - j
  {
    if j < k {
      DelaysGrow(p, j, k - 1);
      if p.backoff != 0.0 && p.strategy == Exponential {
        DoublingKeepsSign(p.backoff, k - 2);
      }
    }
  }

  lemma LeastDelaysGrow(cfg: Config, j: nat, k: nat)
    requires cfg.Valid() && 1 <= j <= k
    ensures 0.0 <= LeastDelay(cfg, j) <= LeastDelay(cfg, k)
  {
    if cfg.retry.Some? {
      DelaysGrow(cfg.retry.value, j, k);
      FullDelayIsNonNegative(cfg.retry.value, j);
    }
  }

  lemma DrawnIsAtLeastLeast(cfg: Config, k: nat, d: real)
    requires cfg.Valid() && cfg.retry.Some? && cfg.MayDelay(k, d)
    ensures d >= LeastDelay(cfg, k) && d >= 0.0
  {
    FullDelayIsNonNegative(cfg.retry.value, k);
  }

  lemma {:induction false} OverrunsAtMost(h: seq<Attempt>)
    ensures Overruns(h) <= |h|
  {
    if h != [] {
      OverrunsAtMost(h[..|h| - 1]);
    }
  }

  /** The k-th execution begins no earlier than if only the overruns before it had taken time. */
  lemma {:induction false} StartsAreLate(cfg: Config, i: nat, h: seq<Attempt>, k: nat)
    requires cfg.Valid() && cfg.taskTimeout.Some? && cfg.retry.Some?
    requires Genuine(cfg, i, h) && Spaced(cfg, h) && k < |h| && h[0].start >= 0.0
    ensures h[k].start >= RoundStart(cfg, Overruns(h[..k]) + 1)
  {
    if k > 0 {
      StartsAreLate(cfg, i, h, k - 1);
      assert Rested(cfg, h[k - 1], k, h[k].start);
      OversAreLate(cfg, i, h, k - 1);
    }
  }

  /** And it is over no earlier than if its own overrun, if it is one, took time as well. */
  lemma {:induction false} OversAreLate(cfg: Config, i: nat, h: seq<Attempt>, k: nat)
    requires cfg.Valid() && cfg.taskTimeout.Some? && cfg.retry.Some?
    requires Genuine(cfg, i, h) && k < |h| && h[k].start >= RoundStart(cfg, Overruns(h[..k]) + 1)
    requires cfg.MayDelay(k + 1, h[k].delay)
    ensures Over(h[k]) >= RoundStart(cfg, Overruns(h[..k + 1]) + 1)
  {
    var q := Overruns(h[..k]);
    assert h[..k + 1] == h[..k] + [h[k]];
    OverrunsSnoc(h[..k], h[k]);
    OverrunsAtMost(h[..k]);
    assert GenuineAt(cfg, i, h, k);
    DrawnIsAtLeastLeast(cfg, k + 1, h[k].delay);
    LeastDelaysGrow(cfg, q + 1, k + 1);
    assert RoundStart(cfg, q + 2) == RoundStart(cfg, q + 1) + cfg.taskTimeout.value + LeastDelay(cfg, q + 1);
  }

  lemma RoundStartsGrow(cfg: Config, j: nat, k: nat)
    requires cfg.Valid() && cfg.taskTimeout.Some? && j <= k
    ensures RoundStart(cfg, j) <= RoundStart(cfg, k)
    decreases k - j
  {
    if j < k {
      RoundStartsGrow(cfg, j, k - 1);
      LeastDelaysGrow(cfg, 1, if k <= 2 then 1 else k - 1);
    }
  }

  lemma {:induction false} HoldableReaches(cfg: Config, r: nat, k: nat)
    requires cfg.Valid() && cfg.taskTimeout.Some? && r <= k
    requires r < k ==> k - 1 < cfg.MaxAttempts() && Fits(cfg, k - 1)
    ensures k <= HoldableFrom(cfg, r)
    decreases k - r
  {
    if r < k {
      RoundStartsGrow(cfg, r, k - 1);
      HoldableReaches(cfg, r + 1, k);
    }
  }

  /** Where h overran for the last time. */
  lemma {:induction false} LastOverrun(h: seq<Attempt>) returns (k: nat)
    requires Overruns(h) >= 1
    ensures k < |h| && h[k].verdict == Overran && Overruns(h[..k]) == Overruns(h) - 1
  {
    var g := h[..|h| - 1];
    if Last(h).verdict == Overran {
      k := |h| - 1;
    } else {
      k := LastOverrun(g);
      assert g[..k] == h[..k];
    }
  }

  lemma {:induction false} EarlierOversAreLate(cfg: Config, i: nat, h: seq<Attempt>, k: nat)
    requires cfg.Valid() && cfg.taskTimeout.Some? && cfg.retry.Some?
    requires Genuine(cfg, i, h) && Spaced(cfg, h) && 0 < k < |h| && h[0].start >= 0.0
    ensures Over(h[k - 1]) >= RoundStart(cfg, Overruns(h[..k]) + 1)
  {
    StartsAreLate(cfg, i, h, k - 1);
    assert Rested(cfg, h[k - 1], k, h[k].start);
    OversAreLate(cfg, i, h, k - 1);
  }

  /** There was time for every execution that overran. */
  lemma {:induction false} OverrunsFit(cfg: Config, i: nat, h: seq<Attempt>)
    requires cfg.Valid() && cfg.taskTimeout.Some? && cfg.retry.Some?
    requires Genuine(cfg, i, h) && Spaced(cfg, h) && Punctual(cfg, h, |h| - 1) && Overruns(h) >= 1
    ensures Fits(cfg, Overruns(h))
  {
    var k := LastOverrun(h);
    if k > 0 {
      EarlierOversAreLate(cfg, i, h, k);
    }
  }

  /** With its live slot, if it has one, an index that overran o times holds no more than it can. */
  lemma HoldingsAreHoldable(cfg: Config, i: nat, h: seq<Attempt>, held: nat)
    requires cfg.Valid() && TimeoutsAreRetried(cfg) && 1 <= held <= Overruns(h) + 1 && held <= cfg.MaxAttempts()
    requires Genuine(cfg, i, h) && Spaced(cfg, h) && Punctual(cfg, h, |h| - 1)
    ensures held <= Holdable(cfg)
  {
    if held > 1 {
      OverrunsFit(cfg, i, h);
      RoundStartsGrow(cfg, held - 1, Overruns(h));
    }
    HoldableReaches(cfg, 1, held);
  }

  lemma OpenIsNoOverrun(h: seq<Attempt>)
    requires h != [] && Last(h).verdict != Overran
    ensures Overruns(h) < |h|
  {
    OverrunsAtMost(h[..|h| - 1]);
  }

  /** A live index has attempts left beyond those that overran. */
  lemma LiveOverrunsAreFew(cfg: Config, c: Core, i: nat)
    requires cfg.Valid() && CoreInv(cfg, c) && i < c.nextIndex && !c.slots[i].Delivered?
    ensures Overruns(c.attempts[i]) < cfg.MaxAttempts()
  {
    var h := c.attempts[i];
    OverrunsAtMost(h);
    CountsAreWithinLimit(cfg, c, i);
    match c.slots[i]
    case Backoff(w) =>
      assert ParkedOk(cfg, c.items[w], c.retryWait[w], h, c.stopping);
    case InFlight(f) =>
      FlightRecord(cfg, c, f);
      if h != [] && Last(h).verdict != Overran {
        OpenIsNoOverrun(h);
      }
  }
}

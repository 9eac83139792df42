/** Exactly when max_pending bounds everything a run has outstanding, and how far beyond it a run can go
    otherwise. */
module WindowExactness {
  import opened Retry
  import opened WorkItems
  import opened Protocol
  import opened Invariants
  import opened Steps
  import opened Teardown
  import opened Holdings
  import opened Punctuality
  import opened Window
  import opened WindowRounds

  /** From k on, how far the input goes without a break, looking no further than the window. */
  function Leading(cfg: Config, k: nat): (n: nat)
    requires k <= cfg.maxPending
    ensures k <= n <= cfg.maxPending
    ensures forall i :: k <= i < n ==> cfg.input(i).Next?
    ensures n < cfg.maxPending ==> !cfg.input(n).Next?
    decreases cfg.maxPending - k
  {
    if k < cfg.maxPending && cfg.input(k).Next? then Leading(cfg, k + 1) else k
  }

  /** How many items a run submits at once: as many as there are, up to the window. */
  function FirstFill(cfg: Config): nat {
    Leading(cfg, 0)
  }

  /** The input raises before the window is full for the first time. */
  predicate CutShort(cfg: Config) {
    FirstFill(cfg) < cfg.maxPending && cfg.input(FirstFill(cfg)).Broken?
  }

  /** Why max_pending holds, for all that a caller can tell beforehand: no timeout is retried, or all that
      the items first submitted can come to hold fits into the window, or the input raises while it is
      first read. */
  predicate WindowIsSafe(cfg: Config) {
    || !TimeoutsAreRetried(cfg)
    || Holdable(cfg) * FirstFill(cfg) <= cfg.maxPending
    || CutShort(cfg)
  }

  // --- when it holds ---

  /** An input that raises early ends the run before anything is waited for. */
  ghost predicate NeverWaited(s: State) {
    && s.core.abandoned == {}
    && !s.pc.Waiting? && !s.pc.Collecting? && !s.pc.Scanning? && !s.pc.Yielding?
  }

  lemma PulledIsLeading(cfg: Config, s: State)
    requires cfg.Valid() && Reachable(cfg, s) && FirstFill(cfg) < cfg.maxPending
    ensures s.core.nextIndex <= FirstFill(cfg)
  {
    ReachableStatesAreSound(cfg, s);
  }

  lemma EarlyRaiseLeavesRoom(cfg: Config, s: State)
    requires cfg.Valid() && CutShort(cfg) && Reachable(cfg, s) && s.core.abandoned == {}
    ensures !s.core.exhausted && s.core.Load() < cfg.maxPending
  {
    LiveIndicesWerePulled(cfg, s);
    PulledIsLeading(cfg, s);
    ReachableStatesAreSound(cfg, s);
  }

  lemma EnteringNeverWaits(cfg: Config, s: State, wake: real)
    requires cfg.Valid() && CutShort(cfg) && Reachable(cfg, s) && NeverWaited(s) && CanEnter(cfg, s, wake)
    ensures NeverWaited(DoEnter(cfg, s, wake))
  {
    if s.pc.Pulling? {
      EarlyRaiseLeavesRoom(cfg, s);
    }
  }

  lemma OthersDoNotWait(cfg: Config, s: State, a: Action)
    requires cfg.Valid() && Reachable(cfg, s) && NeverWaited(s) && Can(cfg, s, a) && ByOthers(a)
    ensures NeverWaited(Do(cfg, s, a))
  {
    ReachableStatesAreSound(cfg, s);
    WorkersStayElsewhere(cfg, s, a);
  }

  lemma LoopNeverWaits(cfg: Config, s: State, a: Action)
    requires NeverWaited(s) && Can(cfg, s, a) && !ByOthers(a) && !a.Enter?
    ensures NeverWaited(Do(cfg, s, a))
  {
  }

  lemma StepsNeverWait(cfg: Config, s: State, a: Action)
    requires cfg.Valid() && CutShort(cfg) && Reachable(cfg, s) && NeverWaited(s) && Can(cfg, s, a)
    ensures NeverWaited(Do(cfg, s, a))
  {
    if a.Enter? {
      EnteringNeverWaits(cfg, s, a.wake);
    } else if ByOthers(a) {
      OthersDoNotWait(cfg, s, a);
    } else {
      LoopNeverWaits(cfg, s, a);
    }
  }

  lemma {:induction false} CutShortNeverWaits(cfg: Config, s: State, acts: seq<Action>, t: State)
    requires cfg.Valid() && CutShort(cfg) && Reachable(cfg, s) && NeverWaited(s) && Path(cfg, s, acts, t)
    ensures NeverWaited(t)
    decreases |acts|
  {
    if acts != [] {
      ReachableSnoc(cfg, s, acts[0]);
      StepsNeverWait(cfg, s, acts[0]);
      CutShortNeverWaits(cfg, Do(cfg, s, acts[0]), acts[1..], t);
    }
  }

  /** Nothing more is ever outstanding than what the items of the first window can come to hold. */
  lemma LoadIsWithinFirstFill(cfg: Config, s: State)
    requires cfg.Valid() && Reachable(cfg, s) && TimeoutsAreRetried(cfg)
    ensures s.core.Load() <= Holdable(cfg) * FirstFill(cfg)
  {
    LoadIsHoldable(cfg, s);
    if FirstFill(cfg) < cfg.maxPending {
      PulledIsLeading(cfg, s);
      ProductIsMonotone(Holdable(cfg), s.core.nextIndex, FirstFill(cfg));
    }
  }

  lemma SafeWindowsHold(cfg: Config, s: State)
    requires cfg.Valid() && Reachable(cfg, s) && WindowIsSafe(cfg)
    ensures s.core.Load() <= cfg.maxPending
  {
    if !TimeoutsAreRetried(cfg) {
      WindowIsBounded(cfg, s);
    } else if CutShort(cfg) {
      CutShortStaysWithin(cfg, s);
    } else {
      LoadIsWithinFirstFill(cfg, s);
    }
  }

  lemma CutShortStaysWithin(cfg: Config, s: State)
    requires cfg.Valid() && Reachable(cfg, s) && CutShort(cfg)
    ensures s.core.Load() <= cfg.maxPending
  {
    WindowIsBounded(cfg, s);
    var acts :| Path(cfg, Init(), acts, s);
    StartIsReachable(cfg);
    CutShortNeverWaits(cfg, Init(), acts, s);
  }

  lemma ProductIsMonotone(m: nat, a: nat, b: nat)
    requires a <= b
    ensures m * a <= m * b
  {
  }

  // --- how far beyond it a run can go ---

  /** k items were pulled, at the start of the run, and nothing else happened. */
  ghost predicate Filled(s: State, k: nat) {
    && s.pc == Pulling
    && s.core.clock == 0.0 && !s.core.requested && !s.core.exhausted && s.core.nextIndex == k
    && |s.core.inFlight| == |s.core.items| == |s.core.futures| == k
    && s.core.retryWait == map[] && s.core.abandoned == {}
    && AllQueued(s.core, s.core.inFlight.Keys, 1)
  }

  lemma PullFills(cfg: Config, s: State, k: nat)
    requires Filled(s, k) && Shape(s.core) && cfg.input(k).Next?
    ensures Filled(DoPull(cfg, s), k + 1)
  {
    var d := DoPull(cfg, s).core;
    assert |s.core.futures| !in s.core.inFlight;
    forall f | f in d.inFlight ensures QueuedFor(d, f, 1) {
      if f != |s.core.futures| {
        assert QueuedFor(s.core, f, 1);
      }
    }
  }

  /** While the input lasts, nothing stops the window from filling up before any worker moves. */
  lemma {:induction false} WindowFillsUp(cfg: Config, k: nat) returns (s: State)
    requires cfg.Valid() && k <= FirstFill(cfg)
    ensures Reachable(cfg, s) && Filled(s, k)
  {
    if k == 0 {
      StartIsReachable(cfg);
      var u := TurnBegins(cfg, Init());
      assert Due(Init().core, 0.0) == {};
      ReachableSnoc(cfg, u, Enter(0.0));
      s := Do(cfg, u, Enter(0.0));
    } else {
      var u := WindowFillsUp(cfg, k - 1);
      ReachableSnoc(cfg, u, PullOne);
      s := Do(cfg, u, PullOne);
      assert Shape(u.core) by {
        ReachableStatesAreSound(cfg, u);
      }
      PullFills(cfg, u, k - 1);
    }
  }

  lemma FirstRoundIsReady(cfg: Config) returns (s: State)
    requires cfg.Valid() && !CutShort(cfg)
    ensures Reachable(cfg, s) && Ready(cfg, s, FirstFill(cfg), 1, 0) && s.core.clock == 0.0
  {
    var n := FirstFill(cfg);
    s := WindowFillsUp(cfg, n);
    if n < cfg.maxPending {
      ReachableSnoc(cfg, s, PullOne);
      s := Do(cfg, s, PullOne);
    }
  }

  /** If every execution of the first window hangs, its items come to hold all they can at once. */
  lemma AllCanBeOutstanding(cfg: Config) returns (t: State)
    requires cfg.Valid() && TimeoutsAreRetried(cfg) && !CutShort(cfg)
    ensures Reachable(cfg, t)
    ensures |t.core.inFlight| + |t.core.retryWait| + |t.core.abandoned| == Holdable(cfg) * FirstFill(cfg)
  {
    var n := FirstFill(cfg);
    var s := FirstRoundIsReady(cfg);
    if n == 0 {
      t := s;
      assert Holdable(cfg) * 0 == 0;
    } else {
      t := RoundsGoOn(cfg, s, n, 1, 0);
      TimesIsProduct(Holdable(cfg), n);
    }
  }

  /** Without an overall deadline there is time for every attempt; with any there is time for a second
      one to be parked. */
  lemma HoldableIsAtLeastTwo(cfg: Config)
    requires cfg.Valid() && TimeoutsAreRetried(cfg)
    ensures 2 <= Holdable(cfg) <= cfg.MaxAttempts()
    ensures cfg.OverallDeadline().None? ==> Holdable(cfg) == cfg.MaxAttempts()
  {
    assert Fits(cfg, 1);
    HoldableReaches(cfg, 1, 2);
    HoldableStaysWithin(cfg, 1);
    if cfg.OverallDeadline().None? {
      HoldableReaches(cfg, 1, cfg.MaxAttempts());
    }
  }

  lemma {:induction false} HoldableStaysWithin(cfg: Config, r: nat)
    requires cfg.taskTimeout.Some? && r <= cfg.MaxAttempts()
    ensures HoldableFrom(cfg, r) <= cfg.MaxAttempts()
    decreases cfg.MaxAttempts() - r
  {
    if r < cfg.MaxAttempts() && Fits(cfg, r) {
      HoldableStaysWithin(cfg, r + 1);
    }
  }

  // --- the two together ---

  /** max_pending bounds in-flight, parked and abandoned work together in every run, if and only if the
      window is safe. */
  lemma WindowHoldsExactlyWhenSafe(cfg: Config)
    requires cfg.Valid()
    ensures (forall s :: Reachable(cfg, s) ==>
               |s.core.inFlight| + |s.core.retryWait| + |s.core.abandoned| <= cfg.maxPending)
            <==> WindowIsSafe(cfg)
  {
    if WindowIsSafe(cfg) {
      forall s | Reachable(cfg, s)
        ensures |s.core.inFlight| + |s.core.retryWait| + |s.core.abandoned| <= cfg.maxPending
      {
        SafeWindowsHold(cfg, s);
      }
    } else {
      var t := AllCanBeOutstanding(cfg);
    }
  }

  /** The largest number of futures ever outstanding is what the items of the first window can hold: no
      run exceeds it, and some run reaches it. */
  lemma LoadBoundIsTight(cfg: Config)
    requires cfg.Valid() && TimeoutsAreRetried(cfg) && !CutShort(cfg)
    ensures forall s :: Reachable(cfg, s) ==>
              |s.core.inFlight| + |s.core.retryWait| + |s.core.abandoned| <= Holdable(cfg) * FirstFill(cfg)
    ensures exists s :: Reachable(cfg, s) &&
              |s.core.inFlight| + |s.core.retryWait| + |s.core.abandoned| == Holdable(cfg) * FirstFill(cfg)
  {
    forall s | Reachable(cfg, s)
      ensures |s.core.inFlight| + |s.core.retryWait| + |s.core.abandoned| <= Holdable(cfg) * FirstFill(cfg)
    {
      LoadIsWithinFirstFill(cfg, s);
    }
    var t := AllCanBeOutstanding(cfg);
  }

  /** So the promise of the documentation fails for every input that fills the window, as soon as the
      timeout of some execution is retried. */
  lemma FullWindowsAreNeverSafe(cfg: Config)
    requires cfg.Valid() && FirstFill(cfg) == cfg.maxPending
    ensures WindowIsSafe(cfg) <==> !TimeoutsAreRetried(cfg)
  {
    if TimeoutsAreRetried(cfg) {
      HoldableIsAtLeastTwo(cfg);
      ProductsOfTwo(Holdable(cfg), cfg.maxPending);
    }
  }

  lemma ProductsOfTwo(m: nat, n: nat)
    requires m >= 2 && n >= 1
    ensures m * n > n
  {
  }
}

/** Runs in which every execution hangs: one round of timeouts after the other, each leaving a window
    of abandoned executions behind. */
module WindowRounds {
  import opened Numbers
  import opened TaskStates
  import opened Retry
  import opened WorkItems
  import opened Protocol
  import opened Invariants
  import opened Preservation
  import opened Steps
  import opened Teardown
  import opened Holdings

  /** The containers, the input and the token are the same. */
  predicate SameBooks(c: Core, d: Core) {
    && d.inFlight == c.inFlight && d.retryWait == c.retryWait && d.abandoned == c.abandoned
    && d.exhausted == c.exhausted && d.requested == c.requested && d.nextIndex == c.nextIndex
  }

  /** f is in flight, for the r-th execution of its index. */
  predicate Flies(c: Core, f: Fid, r: nat) {
    && f in c.inFlight && c.inFlight[f] < |c.items| && f < |c.futures| && c.futures[f].work == c.inFlight[f]
    && c.items[c.inFlight[f]].attempts == r
  }

  predicate QueuedFor(c: Core, f: Fid, r: nat) {
    Flies(c, f, r) && c.futures[f].phase == Queued
  }

  /** It began at `since`. */
  predicate BegunFor(c: Core, f: Fid, r: nat, since: real) {
    Flies(c, f, r) && c.items[c.inFlight[f]].state == Running && c.items[c.inFlight[f]].startedAt == Some(since)
  }

  predicate ParkedFor(c: Core, w: Wid, r: nat, due: real) {
    w in c.retryWait && c.retryWait[w] == due && w < |c.items| && c.items[w].attempts == r
  }

  ghost predicate AllQueued(c: Core, fs: set<Fid>, r: nat) {
    forall f :: f in fs ==> QueuedFor(c, f, r)
  }

  ghost predicate AllBegun(c: Core, fs: set<Fid>, r: nat, since: real) {
    forall f :: f in fs ==> BegunFor(c, f, r, since)
  }

  ghost predicate AllParked(c: Core, ws: set<Wid>, r: nat, due: real) {
    forall w :: w in ws ==> ParkedFor(c, w, r, due)
  }

  /** The window holds n untouched submissions, each the r-th of its index, and gone executions;
      nothing more can be pulled. */
  ghost predicate Ready(cfg: Config, s: State, n: nat, r: nat, gone: nat) {
    && s.pc == Pulling && !s.core.requested
    && (s.core.exhausted || n == cfg.maxPending)
    && |s.core.inFlight| == n && s.core.retryWait == map[] && |s.core.abandoned| == gone
    && AllQueued(s.core, s.core.inFlight.Keys, r)
  }

  // --- every submission begins ---

  lemma BeginOne(cfg: Config, s: State, f: Fid, r: nat) returns (t: State)
    requires cfg.Valid() && Reachable(cfg, s) && QueuedFor(s.core, f, r)
    ensures Reachable(cfg, t) && t.pc == s.pc && SameBooks(s.core, t.core) && t.core.clock == s.core.clock
    ensures BegunFor(t.core, f, r, s.core.clock)
    ensures |t.core.futures| == |s.core.futures| && |t.core.items| == |s.core.items|
    ensures forall g :: 0 <= g < |s.core.futures| && g != f ==> t.core.futures[g] == s.core.futures[g]
    ensures forall w :: 0 <= w < |s.core.items| && w != s.core.inFlight[f] ==> t.core.items[w] == s.core.items[w]
  {
    QueuedIsPending(cfg, s, f);
    ReachableSnoc(cfg, s, TakeUp(f));
    var u := Do(cfg, s, TakeUp(f));
    ReachableSnoc(cfg, u, Begin(f));
    t := Do(cfg, u, Begin(f));
  }

  lemma QueuedIsPending(cfg: Config, s: State, f: Fid)
    requires cfg.Valid() && Reachable(cfg, s) && f in s.core.inFlight
    ensures f < |s.core.futures| && s.core.inFlight[f] < |s.core.items|
    ensures s.core.futures[f].phase == Queued ==> s.core.items[s.core.inFlight[f]].state == Pending
  {
    ReachableStatesAreSound(cfg, s);
    FlightRecord(cfg, s.core, f);
  }

  lemma WorksDiffer(cfg: Config, s: State, f: Fid)
    requires cfg.Valid() && Reachable(cfg, s) && f in s.core.inFlight
    ensures forall g :: g in s.core.inFlight && g != f ==> s.core.inFlight[g] != s.core.inFlight[f]
    ensures s.core.inFlight[f] !in s.core.retryWait
  {
    ReachableStatesAreSound(cfg, s);
    FlightIsAlone(s.core, f);
  }

  lemma {:induction false} BeginAll(cfg: Config, s: State, todo: set<Fid>, r: nat) returns (t: State)
    requires cfg.Valid() && Reachable(cfg, s) && todo <= s.core.inFlight.Keys
    requires AllQueued(s.core, todo, r) && AllBegun(s.core, s.core.inFlight.Keys - todo, r, s.core.clock)
    ensures Reachable(cfg, t) && t.pc == s.pc && SameBooks(s.core, t.core) && t.core.clock == s.core.clock
    ensures AllBegun(t.core, t.core.inFlight.Keys, r, s.core.clock)
    decreases todo
  {
    if todo == {} {
      t := s;
      assert s.core.inFlight.Keys - todo == s.core.inFlight.Keys;
    } else {
      var f := Pick(todo);
      var u := BeginOne(cfg, s, f, r);
      WorksDiffer(cfg, s, f);
      BegunStay(s.core, u.core, f, todo, r, s.core.clock);
      t := BeginAll(cfg, u, todo - {f}, r);
    }
  }

  lemma BegunStay(c: Core, d: Core, f: Fid, todo: set<Fid>, r: nat, since: real)
    requires d.inFlight == c.inFlight && f in todo && f in c.inFlight
    requires AllQueued(c, todo, r) && AllBegun(c, c.inFlight.Keys - todo, r, since) && BegunFor(d, f, r, since)
    requires |d.futures| == |c.futures| && |d.items| == |c.items|
    requires forall g :: 0 <= g < |c.futures| && g != f ==> d.futures[g] == c.futures[g]
    requires forall w :: 0 <= w < |c.items| && w != c.inFlight[f] ==> d.items[w] == c.items[w]
    requires forall g :: g in c.inFlight && g != f ==> c.inFlight[g] != c.inFlight[f]
    ensures AllQueued(d, todo - {f}, r) && AllBegun(d, d.inFlight.Keys - (todo - {f}), r, since)
  {
    forall g | g in d.inFlight.Keys - (todo - {f}) ensures BegunFor(d, g, r, since) {
      if g != f {
        assert g in c.inFlight.Keys - todo;
      }
    }
    forall g | g in todo - {f} ensures QueuedFor(d, g, r) {
      assert QueuedFor(c, g, r);
    }
  }

  // --- every execution overruns ---

  /** The scan at `now` gives up f, whose clone is parked until due. */
  lemma GiveUpOne(cfg: Config, s: State, f: Fid, r: nat, since: real, delay: real, due: real) returns (t: State)
    requires cfg.Valid() && Reachable(cfg, s) && s.pc.Scanning? && f in s.pc.todo && due == s.core.clock + delay
    requires cfg.taskTimeout.Some? && s.pc.now - since >= cfg.taskTimeout.value
    requires BegunFor(s.core, f, r, since) && cfg.RetriesTimeout(r) && cfg.MayDelay(r, delay)
    ensures Reachable(cfg, t) && t.pc == Scanning(s.pc.now, s.pc.todo - {f})
    ensures var c, d := s.core, t.core;
            && d.inFlight == c.inFlight - {f} && d.abandoned == c.abandoned + {f} && f !in c.abandoned
            && |c.items| !in c.retryWait && d.retryWait == c.retryWait[|c.items| := due]
            && d.clock == c.clock && d.exhausted == c.exhausted && d.requested == c.requested
            && d.nextIndex == c.nextIndex && d.futures == c.futures
            && |d.items| == |c.items| + 1 && d.items[|c.items|].attempts == r
            && forall w :: 0 <= w < |c.items| && w != c.inFlight[f] ==> d.items[w] == c.items[w]
  {
    ReachableSnoc(cfg, s, ScanOne(f, delay, due));
    t := Do(cfg, s, ScanOne(f, delay, due));
    GivingUpClones(cfg, s, f, r, since, delay, due);
    ReachableStatesAreSound(cfg, s);
  }

  lemma GivingUpClones(cfg: Config, s: State, f: Fid, r: nat, since: real, delay: real, due: real)
    requires cfg.Valid() && Reachable(cfg, s) && Can(cfg, s, ScanOne(f, delay, due)) && f in s.core.inFlight
    requires cfg.taskTimeout.Some? && s.pc.now - since >= cfg.taskTimeout.value
    requires BegunFor(s.core, f, r, since) && cfg.RetriesTimeout(r)
    ensures var c, i := s.core, s.core.items[s.core.inFlight[f]].index;
            && i < |c.attempts| == |c.slots| && c.attempts[i] != []
            && Do(cfg, s, ScanOne(f, delay, due))
               == State(Cloned(c, f, s.pc.now, due, OverranHistory(c.attempts[i], s.pc.now, delay)),
                        Scanning(s.pc.now, s.pc.todo - {f}))
  {
    ReachableStatesAreSound(cfg, s);
    ScanStep(cfg, s, f, delay, due);
    ScanParkMoves(cfg, s.core, f, s.pc.now, cfg.taskTimeout.value, delay, due);
  }

  lemma GiveUpNext(cfg: Config, s: State, f: Fid, r: nat, since: real, delay: real, due: real) returns (t: State)
    requires cfg.Valid() && Reachable(cfg, s) && f in s.core.inFlight
    requires s.pc.Scanning? && s.pc.todo == s.core.inFlight.Keys && due == s.core.clock + delay
    requires cfg.taskTimeout.Some? && s.pc.now - since >= cfg.taskTimeout.value
    requires cfg.RetriesTimeout(r) && cfg.MayDelay(r, delay)
    requires AllBegun(s.core, s.core.inFlight.Keys, r, since) && AllParked(s.core, s.core.retryWait.Keys, r, due)
    ensures Reachable(cfg, t) && t.pc == Scanning(s.pc.now, s.pc.todo - {f}) && t.pc.todo == t.core.inFlight.Keys
    ensures AllBegun(t.core, t.core.inFlight.Keys, r, since) && AllParked(t.core, t.core.retryWait.Keys, r, due)
    ensures |t.core.inFlight| == |s.core.inFlight| - 1
    ensures |t.core.retryWait| == |s.core.retryWait| + 1 && |t.core.abandoned| == |s.core.abandoned| + 1
    ensures t.core.clock == s.core.clock && t.core.exhausted == s.core.exhausted
    ensures t.core.requested == s.core.requested && t.core.nextIndex == s.core.nextIndex
  {
    t := GiveUpOne(cfg, s, f, r, since, delay, due);
    WorksDiffer(cfg, s, f);
    OthersStay(s.core, t.core, f, r, since, due);
  }

  lemma {:induction false} GiveUpAll(cfg: Config, s: State, r: nat, since: real, delay: real, due: real)
    returns (t: State)
    requires cfg.Valid() && Reachable(cfg, s)
    requires s.pc.Scanning? && s.pc.todo == s.core.inFlight.Keys && due == s.core.clock + delay
    requires cfg.taskTimeout.Some? && s.pc.now - since >= cfg.taskTimeout.value
    requires cfg.RetriesTimeout(r) && cfg.MayDelay(r, delay)
    requires AllBegun(s.core, s.core.inFlight.Keys, r, since) && AllParked(s.core, s.core.retryWait.Keys, r, due)
    ensures Reachable(cfg, t) && t.pc == Scanning(s.pc.now, {}) && t.core.inFlight == map[]
    ensures |t.core.abandoned| == |s.core.abandoned| + |s.core.inFlight|
    ensures |t.core.retryWait| == |s.core.retryWait| + |s.core.inFlight|
    ensures AllParked(t.core, t.core.retryWait.Keys, r, due)
    ensures t.core.clock == s.core.clock && t.core.exhausted == s.core.exhausted
    ensures t.core.requested == s.core.requested && t.core.nextIndex == s.core.nextIndex
    decreases s.pc.todo
  {
    if s.pc.todo == {} {
      t := s;
      assert s.core.inFlight == map[];
    } else {
      var f := Pick(s.pc.todo);
      var u := GiveUpNext(cfg, s, f, r, since, delay, due);
      t := GiveUpAll(cfg, u, r, since, delay, due);
    }
  }

  lemma OthersStay(c: Core, d: Core, f: Fid, r: nat, since: real, due: real)
    requires f in c.inFlight && d.inFlight == c.inFlight - {f} && d.futures == c.futures
    requires |c.items| !in c.retryWait && d.retryWait == c.retryWait[|c.items| := due]
    requires |d.items| == |c.items| + 1 && d.items[|c.items|].attempts == r
    requires forall w :: 0 <= w < |c.items| && w != c.inFlight[f] ==> d.items[w] == c.items[w]
    requires forall g :: g in c.inFlight && g != f ==> c.inFlight[g] != c.inFlight[f]
    requires c.inFlight[f] !in c.retryWait
    requires AllBegun(c, c.inFlight.Keys, r, since) && AllParked(c, c.retryWait.Keys, r, due)
    ensures AllBegun(d, d.inFlight.Keys, r, since) && AllParked(d, d.retryWait.Keys, r, due)
    ensures |d.inFlight| == |c.inFlight| - 1 && |d.retryWait| == |c.retryWait| + 1
  {
  }

  // --- the first half of a round ---

  /** From a ready window to the moment when the scan has given up everything in flight. The clock is
      looked at for the overall deadline nowhere on the way. */
  lemma EverythingHangs(cfg: Config, s: State, n: nat, r: nat, gone: nat, delay: real)
    returns (t: State, due: real)
    requires cfg.Valid() && Reachable(cfg, s) && Ready(cfg, s, n, r, gone) && n >= 1
    requires cfg.taskTimeout.Some? && cfg.RetriesTimeout(r) && cfg.MayDelay(r, delay)
    ensures Reachable(cfg, t) && t.pc.Scanning? && t.pc.todo == {} && !t.core.requested
    ensures t.core.exhausted || n == cfg.maxPending
    ensures t.core.inFlight == map[] && |t.core.retryWait| == n && |t.core.abandoned| == gone + n
    ensures AllParked(t.core, t.core.retryWait.Keys, r, due) && due == t.core.clock + delay
    ensures t.core.clock == s.core.clock + cfg.taskTimeout.value
  {
    var since := s.core.clock;
    var u := Launch(cfg, s, n, r, gone);
    var scanning := WakeLate(cfg, u, since + cfg.taskTimeout.value);
    due := since + cfg.taskTimeout.value + delay;
    BegunCarryOver(u.core, scanning.core, r, since);
    t := GiveUpAll(cfg, scanning, r, since, delay, due);
  }

  /** Nothing has completed when the wait ends at `later`, and the scan begins. */
  lemma WakeLate(cfg: Config, s: State, later: real) returns (t: State)
    requires cfg.Valid() && Reachable(cfg, s) && s.pc.Waiting? && later >= s.core.clock && cfg.taskTimeout.Some?
    ensures Reachable(cfg, t) && t == State(s.core.(clock := later), Scanning(later, s.core.inFlight.Keys))
  {
    ReachableSnoc(cfg, s, Tick(later));
    var late := Do(cfg, s, Tick(later));
    ReachableSnoc(cfg, late, Wake({}));
    var woken := Do(cfg, late, Wake({}));
    ReachableSnoc(cfg, woken, Enter(0.0));
    t := Do(cfg, woken, Enter(0.0));
  }

  lemma BegunCarryOver(c: Core, d: Core, r: nat, since: real)
    requires AllBegun(c, c.inFlight.Keys, r, since)
    requires d.inFlight == c.inFlight && d.items == c.items && d.futures == c.futures
    ensures AllBegun(d, d.inFlight.Keys, r, since)
  {
  }

  lemma Launch(cfg: Config, s: State, n: nat, r: nat, gone: nat) returns (t: State)
    requires cfg.Valid() && Reachable(cfg, s) && Ready(cfg, s, n, r, gone) && n >= 1
    ensures Reachable(cfg, t) && t.pc.Waiting? && SameBooks(s.core, t.core) && t.core.clock == s.core.clock
    ensures AllBegun(t.core, t.core.inFlight.Keys, r, s.core.clock)
  {
    var wake := WakeTimeExists(cfg, s.core);
    ReachableSnoc(cfg, s, Enter(wake));
    var waiting := Do(cfg, s, Enter(wake));
    assert waiting == s.(pc := Waiting(s.core.clock, wake));
    assert s.core.inFlight.Keys - s.core.inFlight.Keys == {};
    t := BeginAll(cfg, waiting, s.core.inFlight.Keys, r);
  }

  // --- the second half ---

  lemma {:induction false} ResubmitAll(cfg: Config, s: State, r: nat, due: real) returns (t: State)
    requires cfg.Valid() && Reachable(cfg, s)
    requires s.pc.Resubmitting? && s.pc.due == s.core.retryWait.Keys
    requires AllParked(s.core, s.core.retryWait.Keys, r, due) && AllQueued(s.core, s.core.inFlight.Keys, r + 1)
    ensures Reachable(cfg, t) && t.pc == Resubmitting(s.pc.now, {}) && t.core.retryWait == map[]
    ensures |t.core.inFlight| == |s.core.inFlight| + |s.core.retryWait|
    ensures AllQueued(t.core, t.core.inFlight.Keys, r + 1)
    ensures t.core.abandoned == s.core.abandoned && t.core.exhausted == s.core.exhausted
    ensures t.core.requested == s.core.requested && t.core.clock == s.core.clock
    decreases s.pc.due
  {
    if s.pc.due == {} {
      t := s;
      assert s.core.retryWait == map[];
    } else {
      var w := Pick(s.pc.due);
      ReachableSnoc(cfg, s, ResubmitOne(w));
      var u := Do(cfg, s, ResubmitOne(w));
      assert u == State(s.core.Resubmit(w), Resubmitting(s.pc.now, s.pc.due - {w}));
      assert u.pc.due == u.core.retryWait.Keys;
      ResubmittedIsQueued(cfg, s, w, r, due);
      t := ResubmitAll(cfg, u, r, due);
    }
  }

  lemma ResubmittedIsQueued(cfg: Config, s: State, w: Wid, r: nat, due: real)
    requires cfg.Valid() && Reachable(cfg, s) && w in s.core.retryWait
    requires AllParked(s.core, s.core.retryWait.Keys, r, due) && AllQueued(s.core, s.core.inFlight.Keys, r + 1)
    ensures w < |s.core.items|
    ensures var d := s.core.Resubmit(w);
            && AllParked(d, d.retryWait.Keys, r, due) && AllQueued(d, d.inFlight.Keys, r + 1)
            && |d.inFlight| == |s.core.inFlight| + 1 && |d.retryWait| == |s.core.retryWait| - 1
  {
    ParkedDiffers(cfg, s, w);
    ResubmittingStays(s.core, w, r, due);
  }

  lemma ParkedDiffers(cfg: Config, s: State, w: Wid)
    requires cfg.Valid() && Reachable(cfg, s) && w in s.core.retryWait
    ensures w < |s.core.items| && |s.core.futures| !in s.core.inFlight
    ensures forall f :: f in s.core.inFlight ==> s.core.inFlight[f] != w
  {
    ReachableStatesAreSound(cfg, s);
    ParkedIsAlone(s.core, w);
  }

  lemma ResubmittingStays(c: Core, w: Wid, r: nat, due: real)
    requires w in c.retryWait && w < |c.items| && |c.futures| !in c.inFlight
    requires forall f :: f in c.inFlight ==> c.inFlight[f] != w
    requires AllParked(c, c.retryWait.Keys, r, due) && AllQueued(c, c.inFlight.Keys, r + 1)
    ensures var d := c.Resubmit(w);
            && AllParked(d, d.retryWait.Keys, r, due) && AllQueued(d, d.inFlight.Keys, r + 1)
            && |d.inFlight| == |c.inFlight| + 1 && |d.retryWait| == |c.retryWait| - 1
  {
    var d := c.Resubmit(w);
    assert ParkedFor(c, w, r, due);
    forall v | v in d.retryWait ensures ParkedFor(d, v, r, due) {
      assert ParkedFor(c, v, r, due);
    }
    forall f | f in d.inFlight ensures QueuedFor(d, f, r + 1) {
      if f != |c.futures| {
        assert QueuedFor(c, f, r + 1);
      }
    }
  }

  /** From the loop head to the resubmission of what is due. */
  lemma TurnBegins(cfg: Config, s: State) returns (t: State)
    requires cfg.Valid() && Reachable(cfg, s) && s.pc.Head? && !s.core.requested
    requires cfg.OverallDeadline().None? || s.core.clock < cfg.OverallDeadline().value
    ensures Reachable(cfg, t) && t == s.(pc := Resubmitting(s.core.clock, Due(s.core, s.core.clock)))
  {
    ReachableSnoc(cfg, s, Enter(0.0));
    var u := Do(cfg, s, Enter(0.0));
    ReachableSnoc(cfg, u, Enter(0.0));
    t := Do(cfg, u, Enter(0.0));
  }

  lemma EverythingComesBack(cfg: Config, s: State, n: nat, r: nat, gone: nat, due: real) returns (t: State)
    requires cfg.Valid() && Reachable(cfg, s) && n >= 1
    requires cfg.OverallDeadline().Some? ==> due < cfg.OverallDeadline().value
    requires s.pc.Scanning? && s.pc.todo == {} && !s.core.requested
    requires s.core.exhausted || n == cfg.maxPending
    requires s.core.inFlight == map[] && |s.core.retryWait| == n && |s.core.abandoned| == gone
    requires AllParked(s.core, s.core.retryWait.Keys, r, due) && due >= s.core.clock
    ensures Reachable(cfg, t) && Ready(cfg, t, n, r + 1, gone) && t.core.clock == due
  {
    ReachableSnoc(cfg, s, Enter(0.0));
    var head := Do(cfg, s, Enter(0.0));
    ReachableSnoc(cfg, head, Tick(due));
    var rested := Do(cfg, head, Tick(due));
    var resubmitting := TurnBegins(cfg, rested);
    assert Due(rested.core, due) == rested.core.retryWait.Keys by {
      assert AllParked(rested.core, rested.core.retryWait.Keys, r, due);
    }
    var u := ResubmitAll(cfg, resubmitting, r, due);
    ReachableSnoc(cfg, u, Enter(0.0));
    t := Do(cfg, u, Enter(0.0));
  }

  lemma LeastDelayIsAllowed(cfg: Config, k: nat)
    requires cfg.Valid()
    ensures cfg.MayDelay(k, LeastDelay(cfg, k)) && LeastDelay(cfg, k) >= 0.0
  {
    if cfg.retry.Some? {
      FullDelayIsNonNegative(cfg.retry.value, k);
    }
  }

  lemma OneRound(cfg: Config, s: State, n: nat, r: nat, gone: nat) returns (t: State)
    requires cfg.Valid() && Reachable(cfg, s) && Ready(cfg, s, n, r, gone) && n >= 1
    requires cfg.taskTimeout.Some? && cfg.RetriesTimeout(r) && r >= 1
    requires s.core.clock == RoundStart(cfg, r) && Fits(cfg, r + 1)
    ensures Reachable(cfg, t) && Ready(cfg, t, n, r + 1, gone + n) && t.core.clock == RoundStart(cfg, r + 1)
  {
    var delay := LeastDelay(cfg, r);
    LeastDelayIsAllowed(cfg, r);
    var u, due := EverythingHangs(cfg, s, n, r, gone, delay);
    t := EverythingComesBack(cfg, u, n, r, gone + n, due);
  }

  lemma LastRound(cfg: Config, s: State, n: nat, r: nat, gone: nat) returns (t: State)
    requires cfg.Valid() && Reachable(cfg, s) && Ready(cfg, s, n, r, gone) && n >= 1
    requires cfg.taskTimeout.Some? && cfg.RetriesTimeout(r)
    ensures Reachable(cfg, t) && t.core.Load() == gone + n + n
  {
    var delay := SomeDelay(cfg, r);
    var due;
    t, due := EverythingHangs(cfg, s, n, r, gone, delay);
  }

  /** Round after round, as long as there are attempts and time. The clock is not looked at between a
      round's timeouts and the loop head after it, so the last round may end past the deadline. */
  lemma {:induction false} RoundsGoOn(cfg: Config, s: State, n: nat, r: nat, gone: nat) returns (t: State)
    requires cfg.Valid() && Reachable(cfg, s) && Ready(cfg, s, n, r, gone) && n >= 1
    requires cfg.taskTimeout.Some? && cfg.RetriesTimeout(1) && r >= 1 && s.core.clock == RoundStart(cfg, r)
    ensures Reachable(cfg, t) && t.core.Load() == gone + Times(HoldableFrom(cfg, r) - r + 1, n)
    decreases cfg.MaxAttempts() - r
  {
    var k := HoldableFrom(cfg, r) - r + 1;
    if r >= cfg.MaxAttempts() || !Fits(cfg, r) {
      t := s;
      assert Times(k, n) == Times(0, n) + n;
    } else if r + 1 < cfg.MaxAttempts() && Fits(cfg, r + 1) {
      var u := OneRound(cfg, s, n, r, gone);
      t := RoundsGoOn(cfg, u, n, r + 1, gone + n);
      assert Times(k, n) == Times(k - 1, n) + n;
    } else {
      t := LastRound(cfg, s, n, r, gone);
      assert Times(k, n) == Times(1, n) + n == Times(0, n) + n + n;
    }
  }

  /** k windows of n. */
  function Times(k: nat, n: nat): nat {
    if k == 0 then 0 else Times(k - 1, n) + n
  }

  lemma {:induction false} TimesIsProduct(k: nat, n: nat)
    ensures Times(k, n) == k * n
  {
    if k > 0 {
      TimesIsProduct(k - 1, n);
      assert (k - 1) * n + n == k * n;
    }
  }
}

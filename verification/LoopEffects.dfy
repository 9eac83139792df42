/** What one iteration of each of the coordinator's loops does to a run, and what the whole loop has done
    so far, with everybody else moving in between. */
module LoopEffects {
  import opened Numbers
  import opened TaskStates
  import opened Retry
  import opened WorkItems
  import opened Protocol
  import opened Invariants
  import opened Preservation
  import opened Steps
  import opened Safety
  import opened Effects

  // --- one iteration ---

  /** What becomes of a done future: it frees its slot; or its item is parked until a drawn delay is over;
      or its item is yielded. */
  predicate Consumed(cfg: Config, c: Core, d: Core, f: Fid, work: Option<Wid>) {
    if f in c.abandoned then
      work == None && d == c.DropAbandoned(f)
    else
      && KeyPresent(c, f)
      && var w := c.inFlight[f];
         if c.items[w].state == RetryWait then
           && work == None && w in d.retryWait
           && c.items[w].attempts >= 1 && cfg.retry.Some?
           && BacksOff(cfg.retry.value, c.items[w].attempts, d.retryWait[w] - c.clock)
           && Retired(c, d, f, c.retryWait[w := d.retryWait[w]], c.yielded)
         else
           work == Some(w) && Retired(c, d, f, c.retryWait, c.yielded + [w])
  }

  /** What becomes of a scanned execution: it is within its time and left alone; or it is finalized and
      abandoned, and its clone is parked until a drawn delay is over, or it is yielded. */
  predicate Scanned(cfg: Config, c: Core, d: Core, f: Fid, now: real, work: Option<Wid>) {
    && KeyPresent(c, f) && cfg.taskTimeout.Some?
    && var w, tt := c.inFlight[f], cfg.taskTimeout.value;
       var it := TimeOutIfExpired(c.items[w], now, tt).item;
       if !Expired(c.items[w], now, tt) then
         work == None && d == c
       else if cfg.RetriesTimeout(c.items[w].attempts) then
         && work == None && |c.items| in d.retryWait
         && c.items[w].attempts >= 1 && cfg.retry.Some?
         && BacksOff(cfg.retry.value, c.items[w].attempts, d.retryWait[|c.items|] - c.clock)
         && GaveUp(c, d, f, c.items[w := it] + [RetryClone(it)],
                   c.retryWait[|c.items| := d.retryWait[|c.items|]], c.yielded)
       else
         work == Some(w) && GaveUp(c, d, f, c.items[w := it], c.retryWait, c.yielded + [w])
  }

  lemma ParkingIsScanned(cfg: Config, c: Core, d: Core, f: Fid, now: real, delay: real, due: real)
    requires cfg.Valid() && KeyPresent(c, f) && c.items[c.inFlight[f]].attempts >= 1 && cfg.taskTimeout.Some?
    requires Expired(c.items[c.inFlight[f]], now, cfg.taskTimeout.value)
    requires cfg.RetriesTimeout(c.items[c.inFlight[f]].attempts)
    requires cfg.MayDelay(c.items[c.inFlight[f]].attempts, delay) && due == c.clock + delay
    requires var it := TimeOutIfExpired(c.items[c.inFlight[f]], now, cfg.taskTimeout.value).item;
             GaveUp(c, d, f, c.items[c.inFlight[f] := it] + [RetryClone(it)], c.retryWait[|c.items| := due], c.yielded)
    ensures Scanned(cfg, c, d, f, now, None)
  {
    assert d.retryWait[|c.items|] == due;
    DelaysInClosedForm(cfg.retry.value, c.items[c.inFlight[f]].attempts, delay);
  }

  lemma ScanParks(cfg: Config, s: State, f: Fid, delay: real, due: real)
    requires cfg.Valid() && Reachable(cfg, s) && Can(cfg, s, ScanOne(f, delay, due))
    requires f in s.core.inFlight && KeyPresent(s.core, f) && cfg.taskTimeout.Some?
    requires Expired(s.core.items[s.core.inFlight[f]], s.pc.now, cfg.taskTimeout.value)
    requires cfg.RetriesTimeout(s.core.items[s.core.inFlight[f]].attempts)
    ensures var c, t := s.core, Do(cfg, s, ScanOne(f, delay, due));
            var it := TimeOutIfExpired(c.items[c.inFlight[f]], s.pc.now, cfg.taskTimeout.value).item;
            && GaveUp(c, t.core, f, c.items[c.inFlight[f] := it] + [RetryClone(it)],
                      c.retryWait[|c.items| := due], c.yielded)
            && t.pc == Scanning(s.pc.now, s.pc.todo - {f})
            && Scanned(cfg, c, t.core, f, s.pc.now, None)
  {
    ScanParkEffect(cfg, s, f, delay, due);
    FlightHasAttempt(cfg, s, f);
    ParkingIsScanned(cfg, s.core, Do(cfg, s, ScanOne(f, delay, due)).core, f, s.pc.now, delay, due);
  }

  lemma ParkingIsConsumed(cfg: Config, c: Core, d: Core, f: Fid, delay: real, due: real)
    requires cfg.Valid() && KeyPresent(c, f) && c.items[c.inFlight[f]].attempts >= 1 && cfg.retry.Some?
    requires f !in c.abandoned && c.items[c.inFlight[f]].state == RetryWait
    requires cfg.MayDelay(c.items[c.inFlight[f]].attempts, delay) && due == c.clock + delay
    requires Retired(c, d, f, c.retryWait[c.inFlight[f] := due], c.yielded)
    ensures Consumed(cfg, c, d, f, None)
  {
    assert d.retryWait[c.inFlight[f]] == due;
    DelaysInClosedForm(cfg.retry.value, c.items[c.inFlight[f]].attempts, delay);
  }

  lemma FlightHasAttempt(cfg: Config, s: State, f: Fid)
    requires cfg.Valid() && Reachable(cfg, s) && f in s.core.inFlight
    ensures KeyPresent(s.core, f) && s.core.items[s.core.inFlight[f]].attempts >= 1
  {
    ReachableStatesAreSound(cfg, s);
    FlightRecord(cfg, s.core, f);
  }

  // --- waiting ---

  /** Something the coordinator must not sleep past: a backoff's end, the overall timeout, the end of the task
      timeout of a running item, or a whole task timeout from now while something is in flight. */
  ghost predicate MustWakeAt(cfg: Config, c: Core, t: real) {
    || (exists w :: w in c.retryWait && t == c.retryWait[w])
    || (cfg.overallTimeout.Some? && cfg.overallTimeout.value > 0.0 && t == cfg.overallTimeout.value)
    || (cfg.taskTimeout.Some? && exists f :: RunsOutAt(c, f, cfg.taskTimeout.value, t))
    || (cfg.taskTimeout.Some? && c.inFlight != map[] && t == c.clock + cfg.taskTimeout.value)
  }

  predicate RunsOutAt(c: Core, f: Fid, taskTimeout: real, t: real) {
    && KeyPresent(c, f)
    && var it := c.items[c.inFlight[f]];
       it.state == Running && it.startedAt.Some? && t == it.startedAt.value + taskTimeout
  }

  /** A wait of half a second, unless something must be attended to earlier: then just until that. */
  lemma WaitsAreNoShorter(cfg: Config, s: State, wake: real)
    requires cfg.Valid() && Reachable(cfg, s) && WakesAt(cfg, s.core, wake)
    ensures s.core.clock <= wake <= s.core.clock + 0.5
    ensures wake == s.core.clock + 0.5 || exists t :: MustWakeAt(cfg, s.core, t) && wake == Max(s.core.clock, t)
  {
    if wake != s.core.clock + 0.5 {
      var t :| && IsMin(t, Candidates(cfg, s.core))
               && wake == s.core.clock + Min(Max(0.0, t - s.core.clock), MAX_WAIT_SLICE);
      CandidatesMustBeMet(cfg, s, t);
    }
  }

  lemma CandidatesMustBeMet(cfg: Config, s: State, t: real)
    requires cfg.Valid() && Reachable(cfg, s) && t in Candidates(cfg, s.core)
    ensures MustWakeAt(cfg, s.core, t)
  {
    if t in Dues(s.core) {
    } else if t in OverallDeadlines(cfg) {
    } else {
      assert t in TaskDeadlines(cfg, s.core);
      if t in Deadlines(s.core, cfg.taskTimeout.value) {
        var f :| f in s.core.inFlight && s.core.inFlight[f] < |s.core.items|
                 && RunningDeadline(s.core.items[s.core.inFlight[f]], cfg.taskTimeout.value) == Some(t);
        FlightHasAttempt(cfg, s, f);
        assert RunsOutAt(s.core, f, cfg.taskTimeout.value, t);
      }
    }
  }

  // --- asking ---

  /** Of these futures, those whose execution had begun in c are not running any more. */
  ghost predicate AskedAll(c: Core, d: Core, asked: set<Fid>) {
    && d.inFlight == c.inFlight
    && forall f :: f in asked && f in c.inFlight && f < |c.futures| && UnderWay(c.futures[f].phase) ==> Stopped(d, f)
  }

  /** Begun executions stay begun. */
  ghost predicate StaysBegun(c: Core, d: Core) {
    forall f :: f in c.inFlight && f < |c.futures| && UnderWay(c.futures[f].phase) ==>
      f < |d.futures| && UnderWay(d.futures[f].phase)
  }

  lemma {:induction false} AskedSurvives(cfg: Config, c: Core, s: State, acts: seq<Action>, asked: set<Fid>)
    requires cfg.Valid() && Reachable(cfg, s) && AskedAll(c, s.core, asked) && StaysBegun(c, s.core)
    ensures AskedAll(c, Swept(cfg, s, acts).core, asked) && StaysBegun(c, Swept(cfg, s, acts).core)
  {
    var d := Swept(cfg, s, acts).core;
    SweptKeepsOwned(cfg, s, acts);
    forall f | f in c.inFlight && f < |c.futures| && UnderWay(c.futures[f].phase)
      ensures f < |d.futures| && UnderWay(d.futures[f].phase)
      ensures f in asked ==> Stopped(d, f)
    {
      SweptFlight(cfg, s, acts, f, s.core.clock, 1.0);
    }
  }

  lemma {:induction false} SweptKeepsOwned(cfg: Config, s: State, acts: seq<Action>)
    requires cfg.Valid() && Reachable(cfg, s)
    ensures SameOwned(s.core, Swept(cfg, s, acts).core) && Swept(cfg, s, acts).pc == s.pc
  {
    if acts != [] {
      var before, a := acts[..|acts| - 1], acts[|acts| - 1];
      var t := Swept(cfg, s, before);
      SweptKeepsOwned(cfg, s, before);
      SweptIsReachable(cfg, s, before);
      if ByOthers(a) && Can(cfg, t, a) {
        OthersEffect(cfg, t, a);
      }
    }
  }

  lemma AskingOne(cfg: Config, c: Core, s: State, f: Fid, asked: set<Fid>)
    requires cfg.Valid() && Reachable(cfg, s) && Can(cfg, s, AskOne(f))
    requires AskedAll(c, s.core, asked) && StaysBegun(c, s.core)
    ensures var d := Do(cfg, s, AskOne(f)).core; AskedAll(c, d, asked + {f}) && StaysBegun(c, d)
  {
    var d := Do(cfg, s, AskOne(f)).core;
    AskEffect(cfg, s, f);
    AskedStops(cfg, s, f);
    forall g | g in asked + {f} && g in c.inFlight && g < |c.futures| && UnderWay(c.futures[g].phase)
      ensures Stopped(d, g)
    {
      if g != f {
        OtherFlight(cfg, s, f, g);
        assert Stopped(s.core, g);
      }
    }
  }

  /** The item of a begun execution is past pending; asked, it is not running. */
  lemma AskedStops(cfg: Config, s: State, f: Fid)
    requires cfg.Valid() && Reachable(cfg, s) && Can(cfg, s, AskOne(f))
    ensures KeyPresent(s.core, f)
    ensures UnderWay(s.core.futures[f].phase) ==> Stopped(Do(cfg, s, AskOne(f)).core, f)
  {
    AskEffect(cfg, s, f);
    ReachableStatesAreSound(cfg, s);
    FlightRecord(cfg, s.core, f);
  }

  lemma OtherFlight(cfg: Config, s: State, f: Fid, g: Fid)
    requires cfg.Valid() && Reachable(cfg, s) && f in s.core.inFlight && g in s.core.inFlight && f != g
    ensures s.core.inFlight[f] != s.core.inFlight[g]
  {
    ReachableStatesAreSound(cfg, s);
    FlightIsAlone(s.core, f);
  }

  // --- resubmitting ---

  ghost predicate LaunchedFor(c: Core, d: Core, w: Wid) {
    exists f :: f in d.inFlight && f !in c.inFlight && d.inFlight[f] == w
  }

  /** Exactly these parked items were handed to the executor again. */
  ghost predicate ResubmittedAll(c: Core, d: Core, ws: set<Wid>) {
    && d.retryWait == c.retryWait - ws
    && (forall f :: f in c.inFlight ==> f in d.inFlight && d.inFlight[f] == c.inFlight[f])
    && (forall f :: f in d.inFlight && f !in c.inFlight ==> d.inFlight[f] in ws)
    && (forall w :: w in ws ==> LaunchedFor(c, d, w))
    && d.abandoned == c.abandoned && d.yielded == c.yielded
  }

  lemma DueCanBeRearmed(cfg: Config, s: State, w: Wid)
    requires cfg.Valid() && Reachable(cfg, s) && s.pc.Resubmitting? && w in s.pc.due
    ensures w in s.core.retryWait && w < |s.core.items| && Rearm(s.core.items[w]).legal
  {
    ResubmitEffect(cfg, s, w);
  }

  lemma ResubmittingOne(cfg: Config, c: Core, s: State, w: Wid, ws: set<Wid>)
    requires cfg.Valid() && Reachable(cfg, s) && s.pc.Resubmitting? && w in s.pc.due && ResubmittedAll(c, s.core, ws)
    ensures w in s.core.retryWait && w < |s.core.items|
    ensures ResubmittedAll(c, s.core.Resubmit(w), ws + {w})
  {
    ResubmitEffect(cfg, s, w);
    NewFutureIsNew(cfg, s);
    var d, g := s.core.Resubmit(w), |s.core.futures|;
    assert d.inFlight == s.core.inFlight[g := w];
    assert g !in c.inFlight;
    forall v | v in ws + {w} ensures LaunchedFor(c, d, v) {
      if v in ws {
        var f :| f in s.core.inFlight && f !in c.inFlight && s.core.inFlight[f] == v;
        assert f in d.inFlight && d.inFlight[f] == v;
      } else {
        assert g in d.inFlight && d.inFlight[g] == w;
      }
    }
  }

  lemma NewFutureIsNew(cfg: Config, s: State)
    requires cfg.Valid() && Reachable(cfg, s)
    ensures |s.core.futures| !in s.core.inFlight
  {
    ReachableStatesAreSound(cfg, s);
  }

  lemma ResubmittedSurvives(c: Core, m: Core, d: Core, ws: set<Wid>)
    requires ResubmittedAll(c, m, ws) && SameOwned(m, d)
    ensures ResubmittedAll(c, d, ws)
  {
    forall w | w in ws ensures LaunchedFor(c, d, w) {
      var f :| f in m.inFlight && f !in c.inFlight && m.inFlight[f] == w;
      assert f in d.inFlight && d.inFlight[f] == w;
    }
  }

  // --- collecting ---

  /** These futures were retired: what was abandoned has freed its slot, and the item of what was in
      flight was parked or yielded; everything else is where it was. */
  ghost predicate CollectedAll(c: Core, d: Core, fs: set<Fid>) {
    && d.inFlight == c.inFlight - fs && d.abandoned == c.abandoned - fs
    && c.yielded <= d.yielded
    && (forall w :: w in c.retryWait ==> w in d.retryWait && d.retryWait[w] == c.retryWait[w])
    && forall f :: f in fs && f in c.inFlight ==>
         c.inFlight[f] in d.retryWait || c.inFlight[f] in d.yielded[|c.yielded|..]
  }

  lemma CollectedSurvives(c: Core, m: Core, d: Core, fs: set<Fid>)
    requires CollectedAll(c, m, fs) && SameOwned(m, d)
    ensures CollectedAll(c, d, fs)
  {
  }

  lemma CollectingOne(cfg: Config, c: Core, s: State, d: Core, f: Fid, fs: set<Fid>, work: Option<Wid>)
    requires cfg.Valid() && Reachable(cfg, s) && s.pc.Collecting? && f in s.pc.done
    requires CollectedAll(c, s.core, fs) && Consumed(cfg, s.core, d, f, work)
    ensures CollectedAll(c, d, fs + {f})
  {
    var m := s.core;
    CompletionIsKnown(cfg, s, f);
    assert d.inFlight == c.inFlight - (fs + {f});
    assert d.abandoned == c.abandoned - (fs + {f});
    if f !in m.abandoned {
      FlightIsNotParked(cfg, s, f);
    }
    forall g | g in fs + {f} && g in c.inFlight
      ensures c.inFlight[g] in d.retryWait || c.inFlight[g] in d.yielded[|c.yielded|..]
    {
      if g !in fs && g !in m.abandoned {
        assert c.inFlight[g] == m.inFlight[g];
        if m.items[m.inFlight[g]].state != RetryWait {
          assert d.yielded[|m.yielded|] == m.inFlight[g];
        }
      } else if c.inFlight[g] in m.yielded[|c.yielded|..] {
        MembersStay(m.yielded, d.yielded, |c.yielded|, c.inFlight[g]);
      }
    }
  }

  lemma MembersStay(a: seq<Wid>, b: seq<Wid>, k: nat, w: Wid)
    requires a <= b && k <= |a| && w in a[k..]
    ensures w in b[k..]
  {
    var j :| 0 <= j < |a[k..]| && a[k..][j] == w;
    assert b[k..][j] == w;
  }

  lemma FlightIsNotParked(cfg: Config, s: State, f: Fid)
    requires cfg.Valid() && Reachable(cfg, s) && f in s.core.inFlight
    ensures s.core.inFlight[f] !in s.core.retryWait && f !in s.core.abandoned
  {
    ReachableStatesAreSound(cfg, s);
    FlightIsAlone(s.core, f);
  }

  // --- scanning ---

  /** Of these futures, what is still in flight was in time at `now`; the rest of them is abandoned. */
  ghost predicate ScannedAll(cfg: Config, c: Core, d: Core, now: real, fs: set<Fid>)
    requires cfg.taskTimeout.Some?
  {
    && d.abandoned == c.abandoned + (c.inFlight.Keys - d.inFlight.Keys)
    && c.inFlight.Keys - d.inFlight.Keys <= fs
    && (forall f :: f in d.inFlight ==> f in c.inFlight && d.inFlight[f] == c.inFlight[f])
    && (forall f :: f in fs && f in d.inFlight ==> InTime(d, f, now, cfg.taskTimeout.value))
    && c.yielded <= d.yielded
  }

  /** In time at a later moment is in time at an earlier one. */
  lemma AllInTimeEarlier(cfg: Config, c: Core, d: Core, now: real, earlier: real)
    requires cfg.taskTimeout.Some? && ScannedAll(cfg, c, d, now, c.inFlight.Keys) && earlier <= now
    ensures forall f :: f in d.inFlight ==> InTime(d, f, earlier, cfg.taskTimeout.value)
  {
    forall f | f in d.inFlight ensures InTime(d, f, earlier, cfg.taskTimeout.value) {
      assert f in c.inFlight.Keys;
      assert InTime(d, f, now, cfg.taskTimeout.value);
    }
  }

  lemma {:induction false} ScannedSurvives(cfg: Config, c: Core, s: State, acts: seq<Action>, now: real, fs: set<Fid>)
    requires cfg.Valid() && Reachable(cfg, s) && cfg.taskTimeout.Some? && now <= s.core.clock
    requires ScannedAll(cfg, c, s.core, now, fs)
    ensures ScannedAll(cfg, c, Swept(cfg, s, acts).core, now, fs)
    ensures now <= Swept(cfg, s, acts).core.clock
  {
    var d := Swept(cfg, s, acts).core;
    SweptKeepsOwned(cfg, s, acts);
    forall f | f in fs && f in d.inFlight ensures InTime(d, f, now, cfg.taskTimeout.value) {
      SweptFlight(cfg, s, acts, f, now, cfg.taskTimeout.value);
    }
  }

  lemma ScanningOne(cfg: Config, c: Core, s: State, d: Core, f: Fid, fs: set<Fid>, work: Option<Wid>)
    requires cfg.Valid() && Reachable(cfg, s) && s.pc.Scanning? && f in s.pc.todo && cfg.taskTimeout.Some?
    requires ScannedAll(cfg, c, s.core, s.pc.now, fs) && Scanned(cfg, s.core, d, f, s.pc.now, work)
    ensures ScannedAll(cfg, c, d, s.pc.now, fs + {f}) && d.clock == s.core.clock
  {
    var m, now, tt := s.core, s.pc.now, cfg.taskTimeout.value;
    forall g | g in fs + {f} && g in d.inFlight ensures InTime(d, g, now, tt) {
      if g != f {
        OtherFlight(cfg, s, f, g);
        assert InTime(m, g, now, tt);
      }
    }
    if Expired(m.items[m.inFlight[f]], now, tt) {
      assert c.inFlight.Keys - d.inFlight.Keys == c.inFlight.Keys - m.inFlight.Keys + {f};
    }
  }

  // --- yielding ---

  /** Whether the generator is at a yield, or was closed there. */
  predicate AtYield(pc: PC) {
    || pc.Yielding?
    || (pc.Cancelling? && pc.why == ClosedByConsumer)
    || (pc.Dropping? && pc.why == ClosedByConsumer)
    || (pc.Closed? && pc.why == ClosedByConsumer)
  }

  /** The reader has left the stream as soon as it wanted to, and only then: it went on after every item
      but the last, and after that too unless the generator is still at that yield; and if it closed the
      generator, it wanted to. */
  ghost predicate Heeded(reader: seq<Item> -> bool, s: State) {
    var ws := Completions(s.core);
    && (AtYield(s.pc) ==> ws != [])
    && (forall k :: 0 < k <= (if AtYield(s.pc) then |ws| - 1 else |ws|) ==> !reader(ws[..k]))
    && (AtYield(s.pc) && !s.pc.Yielding? ==> reader(ws))
  }

  /** The reader's part in an action. */
  ghost predicate Heeds(reader: seq<Item> -> bool, s: State, a: Action) {
    && (a.Resume? ==> !reader(Completions(s.core)))
    && (a.CloseHere? ==> reader(Completions(s.core)))
  }

  /** At most one item is yielded by an action, and then the generator is at that yield. */
  ghost predicate YieldsAtMostOne(s: State, t: State) {
    || t.core.yielded == s.core.yielded
    || (t.pc.Yielding? && !AtYield(s.pc) && t.core.yielded == s.core.yielded + [t.pc.work])
  }

  lemma StepsYieldAtMostOne(cfg: Config, s: State, a: Action)
    requires cfg.Valid() && Reachable(cfg, s) && Can(cfg, s, a)
    ensures YieldsAtMostOne(s, Do(cfg, s, a))
  {
    if ByOthers(a) {
      OthersEffect(cfg, s, a);
    } else if a.CollectOne? {
      CollectEffect(cfg, s, a.f, a.delay, a.due);
    } else if a.ScanOne? {
      ScansYieldAtMostOne(cfg, s, a.f, a.delay, a.due);
    } else if a.Enter? {
      EnteringYieldsNothing(cfg, s, a.wake);
    } else {
      OthersYieldNothing(cfg, s, a);
    }
  }

  lemma OthersYieldNothing(cfg: Config, s: State, a: Action)
    requires Can(cfg, s, a) && !ByOthers(a) && !a.CollectOne? && !a.ScanOne? && !a.Enter?
    ensures Do(cfg, s, a).core.yielded == s.core.yielded
  {
    if a.AskOne? || a.CancelOne? || a.DropOne? {
      TeardownYieldsNothing(cfg, s, a);
    } else {
      LoopYieldsNothing(cfg, s, a);
    }
  }

  lemma TeardownYieldsNothing(cfg: Config, s: State, a: Action)
    requires Can(cfg, s, a) && (a.AskOne? || a.CancelOne? || a.DropOne?)
    ensures Do(cfg, s, a).core.yielded == s.core.yielded
  {
    match a
    case AskOne(f) => assert Do(cfg, s, AskOne(f)).core.yielded == s.core.yielded;
    case CancelOne(f) => CancellingYieldsNothing(s.core, f);
    case DropOne(w) => assert Do(cfg, s, DropOne(w)).core.yielded == s.core.yielded;
  }

  lemma CancellingYieldsNothing(c: Core, f: Fid)
    ensures KeyPresent(c, f) ==> c.CancelFuture(f).yielded == c.yielded
  {
  }

  lemma LoopYieldsNothing(cfg: Config, s: State, a: Action)
    requires Can(cfg, s, a)
    requires a.ResubmitOne? || a.PullOne? || a.Wake? || a.Interrupt? || a.Resume? || a.CloseHere?
    ensures Do(cfg, s, a).core.yielded == s.core.yielded
  {
  }

  lemma EnteringYieldsNothing(cfg: Config, s: State, wake: real)
    ensures DoEnter(cfg, s, wake).core.yielded == s.core.yielded
  {
  }

  lemma ScansYieldAtMostOne(cfg: Config, s: State, f: Fid, delay: real, due: real)
    requires cfg.Valid() && Reachable(cfg, s) && Can(cfg, s, ScanOne(f, delay, due))
    ensures YieldsAtMostOne(s, Do(cfg, s, ScanOne(f, delay, due)))
  {
    ScannedIsInFlight(cfg, s, f);
    var it := s.core.items[s.core.inFlight[f]];
    if !Expired(it, s.pc.now, cfg.taskTimeout.value) {
      ScanPassEffect(cfg, s, f, delay, due);
    } else if cfg.RetriesTimeout(it.attempts) {
      ScanParkEffect(cfg, s, f, delay, due);
    } else {
      ScanDeliverEffect(cfg, s, f, delay, due);
    }
  }

  /** How the place of the coordinator at a yield changes. */
  lemma YieldPlaces(cfg: Config, s: State, a: Action)
    requires cfg.Valid() && Reachable(cfg, s) && Can(cfg, s, a)
    ensures AtYield(s.pc) && !AtYield(Do(cfg, s, a).pc) ==> a.Resume?
    ensures AtYield(Do(cfg, s, a).pc) && !Do(cfg, s, a).pc.Yielding? && !(AtYield(s.pc) && !s.pc.Yielding?) ==>
              a.CloseHere?
    ensures !AtYield(s.pc) && AtYield(Do(cfg, s, a).pc) ==> Do(cfg, s, a).core.yielded != s.core.yielded
  {
    if ByOthers(a) {
      OthersEffect(cfg, s, a);
    } else if a.CollectOne? {
      CollectEffect(cfg, s, a.f, a.delay, a.due);
    } else if a.ScanOne? {
      ScansYieldAtMostOne(cfg, s, a.f, a.delay, a.due);
    }
  }

  /** What was yielded stays what it was. */
  lemma CompletionsStay(cfg: Config, s: State, a: Action)
    requires cfg.Valid() && Reachable(cfg, s) && Can(cfg, s, a)
    ensures Completions(s.core) <= Completions(Do(cfg, s, a).core)
  {
    var d := Do(cfg, s, a).core;
    StepsYieldAtMostOne(cfg, s, a);
    ItemsMoveInSteps(cfg, s, a);
    forall k | 0 <= k < |s.core.yielded| ensures Completions(s.core)[k] == Completions(d)[k] {
      YieldedIsFinal(cfg, s, k);
      assert MovesLegally(s.core.items[s.core.yielded[k]], d.items[s.core.yielded[k]]);
    }
  }

  lemma ItemsMoveInSteps(cfg: Config, s: State, a: Action)
    requires cfg.Valid() && Reachable(cfg, s) && Can(cfg, s, a)
    ensures ItemsMoveLegally(s.core, Do(cfg, s, a).core)
  {
    ReachableStatesAreSound(cfg, s);
    StepsMoveItemsLegally(cfg, s, a);
  }

  lemma YieldedIsFinal(cfg: Config, s: State, k: nat)
    requires cfg.Valid() && Reachable(cfg, s) && k < |s.core.yielded|
    ensures s.core.yielded[k] < |s.core.items| && s.core.items[s.core.yielded[k]].state.Terminal()
  {
    OnlyDefinitiveOutcomesAreYielded(cfg, s, k);
  }

  lemma StepsHeed(cfg: Config, reader: seq<Item> -> bool, s: State, a: Action)
    requires cfg.Valid() && Reachable(cfg, s) && Can(cfg, s, a) && Heeded(reader, s) && Heeds(reader, s, a)
    ensures Heeded(reader, Do(cfg, s, a))
  {
    var ws, us := Completions(s.core), Completions(Do(cfg, s, a).core);
    CompletionsStay(cfg, s, a);
    StepsYieldAtMostOne(cfg, s, a);
    YieldPlaces(cfg, s, a);
    HeedingGoesOn(reader, s, a, Do(cfg, s, a));
  }

  lemma HeedingGoesOn(reader: seq<Item> -> bool, s: State, a: Action, t: State)
    requires Heeded(reader, s) && Heeds(reader, s, a)
    requires Completions(s.core) <= Completions(t.core) && YieldsAtMostOne(s, t)
    requires AtYield(s.pc) && !AtYield(t.pc) ==> a.Resume?
    requires AtYield(t.pc) && !t.pc.Yielding? && !(AtYield(s.pc) && !s.pc.Yielding?) ==> a.CloseHere?
    requires !AtYield(s.pc) && AtYield(t.pc) ==> t.core.yielded != s.core.yielded
    ensures Heeded(reader, t)
  {
    var ws, us := Completions(s.core), Completions(t.core);
    assert forall k :: 0 <= k <= |ws| ==> us[..k] == ws[..k];
    assert ws[..|ws|] == ws;
    if t.core.yielded == s.core.yielded {
      assert us == ws;
    }
  }
}

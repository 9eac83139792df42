/** Each change of a run's data keeps the invariant. */
module Preservation {
  import opened TaskStates
  import opened Retry
  import opened WorkItems
  import opened Protocol
  import opened Invariants

  /** Two executions in flight are of different indices, and so of different items. */
  lemma FlightsAreApart(c: Core, f: Fid, g: Fid)
    requires Shape(c) && Placed(c)
    requires f in c.inFlight && g in c.inFlight && f != g
    ensures c.inFlight[f] != c.inFlight[g]
    ensures c.items[c.inFlight[f]].index != c.items[c.inFlight[g]].index
  {
    assert c.slots[c.items[c.inFlight[f]].index] == InFlight(f);
    assert c.slots[c.items[c.inFlight[g]].index] == InFlight(g);
  }

  lemma {:induction false} ChargedSnoc(h: seq<Attempt>, a: Attempt)
    ensures Charged(h + [a]) == Charged(h) + a.spent
  {
    assert (h + [a])[..|h|] == h;
  }

  lemma TakeKeepsInv(cfg: Config, c: Core, f: Fid)
    requires CoreInv(cfg, c)
    requires c.IsFuture(f) && c.futures[f].phase == Queued
    ensures CoreInv(cfg, c.Take(f))
  {
    PhasesKeepPlaces(cfg, c, f, Taken);
    TakeKeepsAccounted(c, f);
    TakeKeepsFlying(cfg, c, f);
    TakeKeepsRest(cfg, c, f);
  }

  lemma TakeKeepsAccounted(c: Core, f: Fid)
    requires Shape(c) && Accounted(c) && c.IsFuture(f) && c.futures[f].phase == Queued && Shape(c.Take(f))
    ensures Accounted(c.Take(f))
  {
    var d := c.Take(f);
    forall g | g in d.abandoned ensures StaleOk(d.futures[g].phase, d.WorkOf(g)) {
      assert StaleOk(c.futures[g].phase, c.WorkOf(g));
    }
  }

  lemma TakeKeepsFlying(cfg: Config, c: Core, f: Fid)
    requires Shape(c) && Flying(cfg, c) && c.IsFuture(f) && c.futures[f].phase == Queued && Shape(c.Take(f))
    ensures Flying(cfg, c.Take(f))
  {
  }

  lemma TakeKeepsRest(cfg: Config, c: Core, f: Fid)
    requires Shape(c) && Parked(cfg, c) && Finished(cfg, c) && c.IsFuture(f) && Shape(c.Take(f))
    ensures Parked(cfg, c.Take(f)) && Finished(cfg, c.Take(f))
  {
  }

  /** An execution of an index begins: the history grows by an open attempt. */
  lemma {:induction false} BeginKeepsHistory(cfg: Config, i: nat, h: seq<Attempt>, now: real)
    requires Genuine(cfg, i, h) && Spaced(cfg, h) && AllRetried(cfg, h, |h|)
    requires h != [] ==> Rested(cfg, Last(h), |h|, now)
    ensures var h' := h + [Attempt(now, Open, 0.0, 0.0)];
            Genuine(cfg, i, h') && Spaced(cfg, h') && AllRetried(cfg, h', |h|) && Charged(h') == Charged(h)
  {
    var h' := h + [Attempt(now, Open, 0.0, 0.0)];
    ChargedSnoc(h, Attempt(now, Open, 0.0, 0.0));
    forall k | 0 <= k < |h'| ensures GenuineAt(cfg, i, h', k) {
      if k < |h| {
        assert GenuineAt(cfg, i, h, k);
        assert Retryable(cfg, h[k].verdict, k + 1);
      }
    }
  }

  /** c with the future f, its item and the history of its index replaced. */
  function Revised(c: Core, f: Fid, p: Phase, it: Item, h: seq<Attempt>): Core
    requires c.IsFuture(f) && c.WorkOf(f).index < |c.attempts|
  {
    c.(
      items := c.items[c.futures[f].work := it],
      futures := c.futures[f := c.futures[f].(phase := p)],
      attempts := c.attempts[c.WorkOf(f).index := h])
  }

  /** A change that is confined to one execution in flight keeps the invariant if the execution's
      own record stays right: nobody else looks at that item. */
  lemma RevisionKeepsInv(cfg: Config, c: Core, f: Fid, p: Phase, it: Item, h: seq<Attempt>)
    requires CoreInv(cfg, c) && f in c.inFlight
    requires var i := c.items[c.inFlight[f]].index;
             && it.index == i && it.arg == c.items[c.inFlight[f]].arg
             && FlightOk(cfg, p, it, h, c.clock, c.stopping)
             && Genuine(cfg, i, h) && Spaced(cfg, h)
    ensures CoreInv(cfg, Revised(c, f, p, it, h))
  {
    var d := Revised(c, f, p, it, h);
    var w := c.inFlight[f];
    RevisionKeepsPlaces(cfg, c, f, p, it, h);
    forall g | g in d.inFlight
      ensures FlightOk(cfg, d.futures[g].phase, d.items[d.inFlight[g]],
                       d.attempts[d.items[d.inFlight[g]].index], d.clock, d.stopping)
    {
      if g != f {
        FlightsAreApart(c, f, g);
      }
    }
    RevisionSparesOthers(cfg, c, f, p, it, h);
  }

  lemma RevisionKeepsPlaces(cfg: Config, c: Core, f: Fid, p: Phase, it: Item, h: seq<Attempt>)
    requires CoreInv(cfg, c) && f in c.inFlight
    requires it.index == c.items[c.inFlight[f]].index && it.arg == c.items[c.inFlight[f]].arg
    ensures var d := Revised(c, f, p, it, h); Shape(d) && Placed(d) && Sourced(cfg, d)
  {
    var e := c.(items := c.items[c.inFlight[f] := it], attempts := c.attempts[it.index := h]);
    assert forall w :: 0 <= w < |c.items| ==>
      e.items[w].index == c.items[w].index && e.items[w].arg == c.items[w].arg;
    SameIndicesKeepPlaces(cfg, c, e);
    PhasesKeepPlaces(cfg, e, f, p);
  }

  lemma PhasesKeepPlaces(cfg: Config, c: Core, f: Fid, p: Phase)
    requires Shape(c) && Placed(c) && Sourced(cfg, c) && f < |c.futures|
    ensures var d := c.(futures := c.At(f, p)); Shape(d) && Placed(d) && Sourced(cfg, d)
  {
  }

  lemma RevisionSparesOthers(cfg: Config, c: Core, f: Fid, p: Phase, it: Item, h: seq<Attempt>)
    requires CoreInv(cfg, c) && f in c.inFlight
    requires var i := c.items[c.inFlight[f]].index;
             it.index == i && Genuine(cfg, i, h) && Spaced(cfg, h)
    requires Shape(Revised(c, f, p, it, h))
    ensures var d := Revised(c, f, p, it, h);
            Accounted(d) && Parked(cfg, d) && Finished(cfg, d) && Recorded(cfg, d)
  {
    var d := Revised(c, f, p, it, h);
    var w := c.inFlight[f];
    var i := c.items[w].index;
    assert c.slots[i] == InFlight(f);
    assert FlightOk(cfg, c.futures[f].phase, c.items[w], c.attempts[i], c.clock, c.stopping);
    assert c.items[w].state != TimedOut by {
      NothingInFlightHasTimedOut(cfg, c, f);
    }
    forall g | g in d.abandoned ensures StaleOk(d.futures[g].phase, d.WorkOf(g)) {
      assert StaleOk(c.futures[g].phase, c.WorkOf(g));
    }
    forall v | v in d.retryWait
      ensures ParkedOk(cfg, d.items[v], d.retryWait[v], d.attempts[d.items[v].index], d.stopping)
    {
      assert c.slots[c.items[v].index] == Backoff(v);
    }
    forall k | 0 <= k < |d.yielded|
      ensures DeliveredOk(cfg, d.items[d.yielded[k]], d.attempts[d.items[d.yielded[k]].index])
    {
      assert c.slots[c.items[c.yielded[k]].index] == Delivered(k);
    }
  }

  lemma NothingInFlightHasTimedOut(cfg: Config, c: Core, f: Fid)
    requires CoreInv(cfg, c) && f in c.inFlight
    ensures c.items[c.inFlight[f]].state != TimedOut
  {
    var it := c.items[c.inFlight[f]];
    var h := c.attempts[it.index];
    assert FlightOk(cfg, c.futures[f].phase, it, h, c.clock, c.stopping);
  }

  lemma StartKeepsInv(cfg: Config, c: Core, f: Fid)
    requires CoreInv(cfg, c)
    requires c.IsFuture(f) && c.futures[f].phase == Taken
    ensures CoreInv(cfg, c.Start(f))
  {
    var w := c.futures[f].work;
    assert f in c.inFlight;
    var i := c.items[w].index;
    var h := c.attempts[i];
    FlightRecord(cfg, c, f);
    BeginKeepsHistory(cfg, i, h, c.clock);
    var it := c.items[w].(state := Running, startedAt := Some(c.clock));
    var h' := h + [Attempt(c.clock, Open, 0.0, 0.0)];
    RevisionKeepsInv(cfg, c, f, Executing(c.clock, |h| + 1), it, h');
    assert c.Start(f) == Revised(c, f, Executing(c.clock, |h| + 1), it, h');
  }

  lemma SettleKeepsInv(cfg: Config, c: Core, f: Fid)
    requires CoreInv(cfg, c)
    requires c.IsFuture(f) && c.futures[f].phase.Reported?
    ensures CoreInv(cfg, c.Settle(f))
  {
    if f in c.inFlight {
      var it := c.items[c.inFlight[f]];
      var h := c.attempts[it.index];
      var p := Done(c.futures[f].phase.escaped);
      FlightRecord(cfg, c, f);
      RevisionKeepsInv(cfg, c, f, p, it, h);
      RevisingOnlyThePhase(c, f, p);
    } else {
      assert f in c.abandoned;
      StaleSettleKeepsInv(cfg, c, f);
    }
  }

  lemma RevisingOnlyThePhase(c: Core, f: Fid, p: Phase)
    requires c.IsFuture(f) && c.WorkOf(f).index < |c.attempts|
    ensures Revised(c, f, p, c.WorkOf(f), c.attempts[c.WorkOf(f).index]) == c.(futures := c.At(f, p))
  {
    assert c.items[c.futures[f].work := c.WorkOf(f)] == c.items;
    assert c.attempts[c.WorkOf(f).index := c.attempts[c.WorkOf(f).index]] == c.attempts;
  }

  lemma StaleSettleKeepsInv(cfg: Config, c: Core, f: Fid)
    requires CoreInv(cfg, c) && f in c.abandoned && c.futures[f].phase.Reported?
    ensures CoreInv(cfg, c.Settle(f))
  {
  }

  /** Nobody else is working on the index of an execution in flight. */
  lemma FlightIsAlone(c: Core, f: Fid)
    requires Shape(c) && Placed(c) && f in c.inFlight
    ensures var i := c.items[c.inFlight[f]].index;
            && (forall g :: g in c.inFlight && g != f ==> c.items[c.inFlight[g]].index != i)
            && (forall w :: w in c.retryWait ==> c.items[w].index != i)
            && (forall k :: 0 <= k < |c.yielded| ==> c.items[c.yielded[k]].index != i)
  {
    var i := c.items[c.inFlight[f]].index;
    assert c.slots[i] == InFlight(f);
    forall g | g in c.inFlight && g != f ensures c.items[c.inFlight[g]].index != i {
      assert c.slots[c.items[c.inFlight[g]].index] == InFlight(g);
    }
    forall w | w in c.retryWait ensures c.items[w].index != i {
      assert c.slots[c.items[w].index] == Backoff(w);
    }
    forall k | 0 <= k < |c.yielded| ensures c.items[c.yielded[k]].index != i {
      assert c.slots[c.items[c.yielded[k]].index] == Delivered(k);
    }
  }

  lemma ParkedIsAlone(c: Core, w: Wid)
    requires Shape(c) && Placed(c) && w in c.retryWait
    ensures var i := c.items[w].index;
            && (forall f :: f in c.inFlight ==> c.items[c.inFlight[f]].index != i)
            && (forall v :: v in c.retryWait && v != w ==> c.items[v].index != i)
            && (forall k :: 0 <= k < |c.yielded| ==> c.items[c.yielded[k]].index != i)
  {
    var i := c.items[w].index;
    assert c.slots[i] == Backoff(w);
    forall f | f in c.inFlight ensures c.items[c.inFlight[f]].index != i {
      assert c.slots[c.items[c.inFlight[f]].index] == InFlight(f);
    }
    forall v | v in c.retryWait && v != w ensures c.items[v].index != i {
      assert c.slots[c.items[v].index] == Backoff(v);
    }
    forall k | 0 <= k < |c.yielded| ensures c.items[c.yielded[k]].index != i {
      assert c.slots[c.items[c.yielded[k]].index] == Delivered(k);
    }
  }

  // --- the worker's report ---

  lemma {:induction false} ChargedAmend(h: seq<Attempt>, a: Attempt)
    requires h != []
    ensures Charged(h[..|h| - 1] + [a]) == Charged(h) - Last(h).spent + a.spent
  {
    ChargedSnoc(h[..|h| - 1], a);
  }

  /** Closing the latest, open attempt of a history. */
  lemma CloseKeepsHistory(cfg: Config, i: nat, h: seq<Attempt>, a: Attempt)
    requires h != [] && Genuine(cfg, i, h) && Spaced(cfg, h)
    requires Last(h).verdict == Open && Last(h).start == a.start
    requires a.verdict == Ended(cfg.call(i, |h|))
             || (a.verdict == Overran && cfg.taskTimeout.Some? && a.spent >= cfg.taskTimeout.value)
    requires a.spent >= 0.0
    ensures var h' := h[..|h| - 1] + [a];
            && Genuine(cfg, i, h') && Spaced(cfg, h')
            && Charged(h') == Charged(h) + a.spent
            && (AllRetried(cfg, h, |h| - 1) ==> AllRetried(cfg, h', |h| - 1))
  {
    var h' := h[..|h| - 1] + [a];
    assert GenuineAt(cfg, i, h, |h| - 1);
    ChargedAmend(h, a);
    forall k | 0 <= k < |h'| ensures GenuineAt(cfg, i, h', k) {
      assert GenuineAt(cfg, i, h, k);
    }
    forall k | 0 < k < |h'| ensures Rested(cfg, h'[k - 1], k, h'[k].start) {
      assert Rested(cfg, h[k - 1], k, h[k].start);
    }
    if AllRetried(cfg, h, |h| - 1) {
      forall k | 0 <= k < |h| - 1 ensures Retryable(cfg, h'[k].verdict, k + 1) {
        assert Retryable(cfg, h[k].verdict, k + 1);
      }
    }
  }

  /** What the worker writes is what its call did. */
  lemma FinishIsFaithful(cfg: Config, it: Item, o: Outcome, spent: real)
    requires it.state == Running || it.state == CancellationRequested
    requires it.value == None
    ensures var m := FinishWith(it, o, spent, cfg.retry);
            && m.legal
            && m.item.index == it.index && m.item.arg == it.arg && m.item.attempts == it.attempts
            && m.item.elapsed == it.elapsed + spent
            && if m.item.state == RetryWait then
                 Retryable(cfg, Ended(o), it.attempts) && m.item.value == None
               else
                 && Concluded(m.item, Ended(o))
                 && (it.state == Running ==> !Retryable(cfg, Ended(o), it.attempts))
  {
  }

  lemma ReportKeepsInv(cfg: Config, c: Core, f: Fid, spent: real)
    requires CoreInv(cfg, c)
    requires c.IsFuture(f) && c.futures[f].phase.Executing?
    requires 0.0 <= spent <= c.clock - c.futures[f].phase.since
    ensures CoreInv(cfg, c.Report(cfg, f, spent))
  {
    if f in c.abandoned {
      assert StaleOk(c.futures[f].phase, c.WorkOf(f));
      StaleReportKeepsInv(cfg, c, f, spent);
    } else {
      LiveReportKeepsInv(cfg, c, f, spent);
    }
  }

  lemma LiveReportKeepsInv(cfg: Config, c: Core, f: Fid, spent: real)
    requires CoreInv(cfg, c) && f in c.inFlight
    requires c.IsFuture(f) && c.futures[f].phase.Executing?
    requires 0.0 <= spent <= c.clock - c.futures[f].phase.since
    ensures CoreInv(cfg, c.Report(cfg, f, spent))
  {
    var it := c.items[c.inFlight[f]];
    var h := c.attempts[it.index];
    var o := cfg.call(it.index, |h|);
    FlightRecord(cfg, c, f);
    ReportClosesHistory(cfg, c.futures[f].phase, it, h, c.clock, c.stopping, o, spent);
    var it' := FinishWith(it, o, spent, cfg.retry).item;
    RevisionKeepsInv(cfg, c, f, Reported(EscapeOf(o)), it', EndedHistory(h, o, spent));
    ReportRevises(cfg, c, f, spent);
  }

  /** The history of an index whose open attempt ended. */
  function EndedHistory(h: seq<Attempt>, o: Outcome, spent: real): seq<Attempt>
    requires h != []
  {
    h[..|h| - 1] + [Last(h).(verdict := Ended(o), spent := spent)]
  }

  lemma ReportClosesHistory(
    cfg: Config, p: Phase, it: Item, h: seq<Attempt>, clock: real, stopping: bool, o: Outcome, spent: real)
    requires p.Executing? && FlightOk(cfg, p, it, h, clock, stopping)
    requires Genuine(cfg, it.index, h) && Spaced(cfg, h)
    requires o == cfg.call(it.index, |h|) && 0.0 <= spent <= clock - p.since
    ensures h != []
    ensures var m := FinishWith(it, o, spent, cfg.retry);
            && m.legal && m.item.index == it.index && m.item.arg == it.arg
            && FlightOk(cfg, Reported(EscapeOf(o)), m.item, EndedHistory(h, o, spent), clock, stopping)
    ensures Genuine(cfg, it.index, EndedHistory(h, o, spent)) && Spaced(cfg, EndedHistory(h, o, spent))
  {
    assert ExecutingOk(cfg, p.since, p.nth, it, h, clock, stopping);
    var a := Last(h).(verdict := Ended(o), spent := spent);
    CloseKeepsHistory(cfg, it.index, h, a);
    FinishIsFaithful(cfg, it, o, spent);
    assert Last(EndedHistory(h, o, spent)) == a && |EndedHistory(h, o, spent)| == |h|;
  }

  lemma ReportRevises(cfg: Config, c: Core, f: Fid, spent: real)
    requires CoreInv(cfg, c) && f in c.inFlight && c.futures[f].phase.Executing?
    ensures var it := c.items[c.inFlight[f]];
            var h := c.attempts[it.index];
            && h != []
            && var o := cfg.call(it.index, |h|);
               c.Report(cfg, f, spent)
               == Revised(c, f, Reported(EscapeOf(o)), FinishWith(it, o, spent, cfg.retry).item,
                          EndedHistory(h, o, spent))
  {
    var it := c.items[c.inFlight[f]];
    FlightRecord(cfg, c, f);
    FinishIsFaithful(cfg, it, cfg.call(it.index, |c.attempts[it.index]|), spent);
  }

  /** The report of an execution that was timed out reaches nothing but its own future. */
  lemma StaleReportChangesNothing(cfg: Config, c: Core, f: Fid, spent: real)
    requires CoreInv(cfg, c) && f in c.abandoned && c.futures[f].phase.Executing?
    ensures c.Report(cfg, f, spent)
         == c.(futures := c.At(f, Reported(EscapeOf(cfg.call(c.WorkOf(f).index, c.futures[f].phase.nth)))))
  {
    assert StaleOk(c.futures[f].phase, c.WorkOf(f));
    var w := c.futures[f].work;
    assert c.items[w := c.items[w]] == c.items;
  }

  lemma StaleReportKeepsInv(cfg: Config, c: Core, f: Fid, spent: real)
    requires CoreInv(cfg, c) && f in c.abandoned && c.futures[f].phase.Executing?
    ensures CoreInv(cfg, c.Report(cfg, f, spent))
  {
    StaleReportChangesNothing(cfg, c, f, spent);
  }

  // --- the clock, the token, and leaving the loop ---

  lemma TickKeepsInv(cfg: Config, c: Core, t: real)
    requires CoreInv(cfg, c) && t >= c.clock
    ensures CoreInv(cfg, c.(clock := t))
  {
    var d := c.(clock := t);
    forall f | f in d.inFlight
      ensures FlightOk(cfg, d.futures[f].phase, d.items[d.inFlight[f]],
                       d.attempts[d.items[d.inFlight[f]].index], d.clock, d.stopping)
    {
      assert FlightOk(cfg, c.futures[f].phase, c.items[c.inFlight[f]],
                      c.attempts[c.items[c.inFlight[f]].index], c.clock, c.stopping);
    }
  }

  lemma RequestKeepsInv(cfg: Config, c: Core)
    requires CoreInv(cfg, c)
    ensures CoreInv(cfg, c.(requested := true))
  {
  }

  lemma StoppingKeepsInv(cfg: Config, c: Core)
    requires CoreInv(cfg, c)
    ensures CoreInv(cfg, c.(stopping := true))
  {
    var d := c.(stopping := true);
    forall f | f in d.inFlight
      ensures FlightOk(cfg, d.futures[f].phase, d.items[d.inFlight[f]],
                       d.attempts[d.items[d.inFlight[f]].index], d.clock, d.stopping)
    {
      assert FlightOk(cfg, c.futures[f].phase, c.items[c.inFlight[f]],
                      c.attempts[c.items[c.inFlight[f]].index], c.clock, c.stopping);
    }
  }

  lemma AskIsHarmless(cfg: Config, p: Phase, it: Item, h: seq<Attempt>, clock: real)
    requires FlightOk(cfg, p, it, h, clock, true)
    ensures RequestCancellation(it).legal
    ensures FlightOk(cfg, p, RequestCancellation(it).item, h, clock, true)
  {
  }

  lemma AskKeepsInv(cfg: Config, c: Core, f: Fid)
    requires CoreInv(cfg, c) && c.stopping && f in c.inFlight
    ensures CoreInv(cfg, c.Ask(f))
  {
    var it := c.items[c.inFlight[f]];
    FlightRecord(cfg, c, f);
    AskIsHarmless(cfg, c.futures[f].phase, it, c.attempts[it.index], c.clock);
    RevisionKeepsInv(cfg, c, f, c.futures[f].phase, RequestCancellation(it).item, c.attempts[it.index]);
    AskingRevises(c, f);
  }

  lemma AskingRevises(c: Core, f: Fid)
    requires Shape(c) && f in c.inFlight && !c.broken
    requires RequestCancellation(c.items[c.inFlight[f]]).legal
    ensures var it := c.items[c.inFlight[f]];
            c.Ask(f) == Revised(c, f, c.futures[f].phase, RequestCancellation(it).item, c.attempts[it.index])
  {
    var it := c.items[c.inFlight[f]];
    assert c.futures[f := c.futures[f].(phase := c.futures[f].phase)] == c.futures;
    assert c.attempts[it.index := c.attempts[it.index]] == c.attempts;
  }

  lemma CancelFutureKeepsInv(cfg: Config, c: Core, f: Fid)
    requires CoreInv(cfg, c) && c.stopping && f in c.inFlight
    ensures CoreInv(cfg, c.CancelFuture(f))
  {
    if c.futures[f].phase == Queued {
      var it := c.items[c.inFlight[f]];
      var h := c.attempts[it.index];
      FlightRecord(cfg, c, f);
      RevisionKeepsInv(cfg, c, f, Withdrawn, it.(state := Cancelled), h);
      CancellingRevises(c, f);
    }
  }

  lemma CancellingRevises(c: Core, f: Fid)
    requires Shape(c) && f in c.inFlight && c.futures[f].phase == Queued
    requires c.items[c.inFlight[f]].state == Pending && !c.broken
    ensures var it := c.items[c.inFlight[f]];
            c.CancelFuture(f) == Revised(c, f, Withdrawn, it.(state := Cancelled), c.attempts[it.index])
  {
    var it := c.items[c.inFlight[f]];
    assert c.attempts[it.index := c.attempts[it.index]] == c.attempts;
  }

  lemma CancelParkedKeepsInv(cfg: Config, c: Core, w: Wid)
    requires CoreInv(cfg, c) && c.stopping && w in c.retryWait && c.items[w].state == RetryWait
    ensures CoreInv(cfg, c.CancelParked(w))
  {
    var d := c.CancelParked(w);
    ParkedIsAlone(c, w);
    assert d == c.(items := c.items[w := c.items[w].(state := Cancelled)]);
    SameIndicesKeepPlaces(cfg, c, d);
    CancellingKeepsAccounted(c, d, w);
    CancellingKeepsParked(cfg, c, d, w);
    OneItemKeepsOthers(cfg, c, d, w);
  }

  lemma CancellingKeepsAccounted(c: Core, d: Core, w: Wid)
    requires Shape(c) && Accounted(c) && Shape(d) && w < |c.items| && c.items[w].state == RetryWait
    requires d == c.(items := c.items[w := c.items[w].(state := Cancelled)])
    ensures Accounted(d)
  {
    forall g | g in d.abandoned ensures StaleOk(d.futures[g].phase, d.WorkOf(g)) {
      assert StaleOk(c.futures[g].phase, c.WorkOf(g));
    }
  }

  lemma CancellingKeepsParked(cfg: Config, c: Core, d: Core, w: Wid)
    requires Shape(c) && Parked(cfg, c) && Shape(d) && c.stopping && w in c.retryWait
    requires d == c.(items := c.items[w := c.items[w].(state := Cancelled)])
    requires c.items[w].state == RetryWait
    ensures Parked(cfg, d)
  {
    assert ParkedOk(cfg, c.items[w], c.retryWait[w], c.attempts[c.items[w].index], c.stopping);
  }

  /** Rewriting an item that is neither in flight nor delivered. */
  lemma OneItemKeepsOthers(cfg: Config, c: Core, d: Core, w: Wid)
    requires Shape(c) && Flying(cfg, c) && Finished(cfg, c) && Shape(d) && w < |c.items|
    requires |d.items| == |c.items| && d == c.(items := c.items[w := d.items[w]])
    requires forall f :: f in c.inFlight ==> c.inFlight[f] != w
    requires forall k :: 0 <= k < |c.yielded| ==> c.yielded[k] != w
    ensures Flying(cfg, d) && Finished(cfg, d)
  {
  }

  /** Places depend only on the containers and on the index of each item. */
  lemma SameIndicesKeepPlaces(cfg: Config, c: Core, d: Core)
    requires Shape(c) && Placed(c) && Sourced(cfg, c)
    requires d == c.(items := d.items, attempts := d.attempts)
    requires |d.items| == |c.items| && |d.attempts| == |c.attempts|
    requires forall w :: 0 <= w < |c.items| ==>
               d.items[w].index == c.items[w].index && d.items[w].arg == c.items[w].arg
    ensures Shape(d) && Placed(d) && Sourced(cfg, d)
  {
    assert Shape(d);
  }

  // --- submission ---

  /** c after `it`, named w, was handed to the executor. */
  function Launched(c: Core, w: Wid, it: Item): Core
    requires w < |c.items| && it.index < |c.slots|
  {
    c.(
      items := c.items[w := it],
      futures := c.futures + [Future(w, Queued)],
      inFlight := c.inFlight[|c.futures| := w],
      retryWait := c.retryWait - {w},
      slots := c.slots[it.index := InFlight(|c.futures|)])
  }

  lemma LaunchKeepsPlaces(cfg: Config, c: Core, w: Wid, it: Item)
    requires Shape(c) && Placed(c) && Sourced(cfg, c)
    requires w in c.retryWait && it.index == c.items[w].index && it.arg == c.items[w].arg
    ensures var d := Launched(c, w, it); Shape(d) && Placed(d) && Sourced(cfg, d)
  {
    LaunchKeepsShape(c, w, it);
    ParkedIsAlone(c, w);
    LaunchKeepsPlaced(c, w, it);
    LaunchKeepsSources(cfg, c, w, it);
  }

  lemma LaunchKeepsShape(c: Core, w: Wid, it: Item)
    requires Shape(c) && w in c.retryWait && it.index == c.items[w].index
    ensures Shape(Launched(c, w, it))
  {
  }

  lemma LaunchKeepsPlaced(c: Core, w: Wid, it: Item)
    requires Shape(c) && Placed(c) && w in c.retryWait && it.index == c.items[w].index && Shape(Launched(c, w, it))
    requires forall f :: f in c.inFlight ==> c.items[c.inFlight[f]].index != it.index
    requires forall v :: v in c.retryWait && v != w ==> c.items[v].index != it.index
    requires forall k :: 0 <= k < |c.yielded| ==> c.items[c.yielded[k]].index != it.index
    ensures Placed(Launched(c, w, it))
  {
    var d := Launched(c, w, it);
    assert forall v :: 0 <= v < |c.items| ==> d.items[v].index == c.items[v].index;
  }

  lemma LaunchKeepsSources(cfg: Config, c: Core, w: Wid, it: Item)
    requires Shape(c) && Sourced(cfg, c)
    requires w in c.retryWait && it.index == c.items[w].index && it.arg == c.items[w].arg
    ensures Sourced(cfg, Launched(c, w, it))
  {
  }

  lemma ResubmitKeepsInv(cfg: Config, c: Core, w: Wid)
    requires CoreInv(cfg, c) && !c.stopping && w in c.retryWait && c.retryWait[w] <= c.clock
    ensures CoreInv(cfg, c.Resubmit(w))
  {
    var it := Rearm(c.items[w]).item;
    RearmedIsReady(cfg, c, w);
    assert c.Resubmit(w) == Launched(c, w, it);
    LaunchKeepsPlaces(cfg, c, w, it);
    ParkedIsAlone(c, w);
    LaunchKeepsAccounted(c, w, it);
    LaunchKeepsFlying(cfg, c, w, it);
    LaunchKeepsRest(cfg, c, w, it);
  }

  /** A parked item whose backoff has elapsed may be executed again. */
  lemma RearmedIsReady(cfg: Config, c: Core, w: Wid)
    requires CoreInv(cfg, c) && !c.stopping && w in c.retryWait && c.retryWait[w] <= c.clock
    ensures c.items[w].state == RetryWait && Rearm(c.items[w]).legal
    ensures var it := Rearm(c.items[w]).item;
            && it.index == c.items[w].index
            && FlightOk(cfg, Queued, it, c.attempts[it.index], c.clock, c.stopping)
  {
    assert ParkedOk(cfg, c.items[w], c.retryWait[w], c.attempts[c.items[w].index], c.stopping);
  }

  lemma LaunchKeepsAccounted(c: Core, w: Wid, it: Item)
    requires Shape(c) && Accounted(c) && w in c.retryWait && it.index == c.items[w].index
    requires c.items[w].state == RetryWait && Shape(Launched(c, w, it))
    ensures Accounted(Launched(c, w, it))
  {
    var d := Launched(c, w, it);
    forall g | g in d.abandoned ensures StaleOk(d.futures[g].phase, d.WorkOf(g)) {
      assert StaleOk(c.futures[g].phase, c.WorkOf(g));
    }
  }

  lemma LaunchKeepsFlying(cfg: Config, c: Core, w: Wid, it: Item)
    requires Shape(c) && Flying(cfg, c) && w in c.retryWait && it.index == c.items[w].index
    requires forall f :: f in c.inFlight ==> c.items[c.inFlight[f]].index != it.index
    requires FlightOk(cfg, Queued, it, c.attempts[it.index], c.clock, c.stopping)
    requires Shape(Launched(c, w, it))
    ensures Flying(cfg, Launched(c, w, it))
  {
  }

  lemma LaunchKeepsRest(cfg: Config, c: Core, w: Wid, it: Item)
    requires Shape(c) && Parked(cfg, c) && Finished(cfg, c) && w in c.retryWait && it.index == c.items[w].index
    requires forall k :: 0 <= k < |c.yielded| ==> c.items[c.yielded[k]].index != it.index
    requires Shape(Launched(c, w, it))
    ensures Parked(cfg, Launched(c, w, it)) && Finished(cfg, Launched(c, w, it))
  {
  }

  lemma PullKeepsInv(cfg: Config, c: Core, arg: Value)
    requires CoreInv(cfg, c) && !c.exhausted && cfg.input(c.nextIndex) == Next(arg)
    ensures CoreInv(cfg, c.PullItem(arg))
  {
    PullKeepsPlaces(cfg, c, arg);
    PullKeepsRecords(cfg, c, arg);
  }

  lemma PullKeepsPlaces(cfg: Config, c: Core, arg: Value)
    requires Shape(c) && Placed(c) && Sourced(cfg, c)
    requires !c.exhausted && cfg.input(c.nextIndex) == Next(arg)
    ensures var d := c.PullItem(arg); Shape(d) && Placed(d) && Sourced(cfg, d)
  {
    PullKeepsShape(c, arg);
    PullKeepsPlaced(c, arg);
    PullKeepsSources(cfg, c, arg);
  }

  lemma PullKeepsShape(c: Core, arg: Value)
    requires Shape(c)
    ensures Shape(c.PullItem(arg))
  {
  }

  lemma PullKeepsPlaced(c: Core, arg: Value)
    requires Shape(c) && Placed(c) && Shape(c.PullItem(arg))
    ensures Placed(c.PullItem(arg))
  {
  }

  lemma PullKeepsSources(cfg: Config, c: Core, arg: Value)
    requires Shape(c) && Sourced(cfg, c) && !c.exhausted && cfg.input(c.nextIndex) == Next(arg)
    ensures Sourced(cfg, c.PullItem(arg))
  {
  }

  lemma PullKeepsRecords(cfg: Config, c: Core, arg: Value)
    requires CoreInv(cfg, c) && Shape(c.PullItem(arg))
    ensures var d := c.PullItem(arg);
            Accounted(d) && Flying(cfg, d) && Parked(cfg, d) && Finished(cfg, d) && Recorded(cfg, d)
  {
    PullKeepsAccounted(c, arg);
    PullKeepsFlying(cfg, c, arg);
    PullKeepsParked(cfg, c, arg);
    PullKeepsFinished(cfg, c, arg);
    PullKeepsRecorded(cfg, c, arg);
  }

  lemma PullKeepsAccounted(c: Core, arg: Value)
    requires Shape(c) && Accounted(c) && Shape(c.PullItem(arg))
    ensures Accounted(c.PullItem(arg))
  {
    var d := c.PullItem(arg);
    forall g | g in d.abandoned ensures StaleOk(d.futures[g].phase, d.WorkOf(g)) {
      assert StaleOk(c.futures[g].phase, c.WorkOf(g));
    }
  }

  lemma PullKeepsFlying(cfg: Config, c: Core, arg: Value)
    requires Shape(c) && Flying(cfg, c) && Shape(c.PullItem(arg))
    ensures Flying(cfg, c.PullItem(arg))
  {
  }

  lemma PullKeepsParked(cfg: Config, c: Core, arg: Value)
    requires Shape(c) && Parked(cfg, c) && Shape(c.PullItem(arg))
    ensures Parked(cfg, c.PullItem(arg))
  {
  }

  lemma PullKeepsFinished(cfg: Config, c: Core, arg: Value)
    requires Shape(c) && Finished(cfg, c) && Shape(c.PullItem(arg))
    ensures Finished(cfg, c.PullItem(arg))
  {
  }

  lemma PullKeepsRecorded(cfg: Config, c: Core, arg: Value)
    requires Shape(c) && Recorded(cfg, c)
    ensures Recorded(cfg, c.PullItem(arg))
  {
  }

  lemma ExhaustKeepsInv(cfg: Config, c: Core)
    requires CoreInv(cfg, c) && cfg.input(c.nextIndex) == Stop
    ensures CoreInv(cfg, c.(exhausted := true))
  {
  }

  lemma DropAbandonedKeepsInv(cfg: Config, c: Core, f: Fid)
    requires CoreInv(cfg, c) && f in c.abandoned && c.futures[f].phase.Done?
    ensures CoreInv(cfg, c.DropAbandoned(f))
  {
  }

  // --- collecting a completion ---

  /** Recording an exception that reached the future never finds anything left to record. */
  lemma RecordingFindsNothing(cfg: Config, c: Core, f: Fid)
    requires CoreInv(cfg, c) && f in c.inFlight && c.futures[f].phase.Done?
    ensures c.Retire(f) == c.(inFlight := c.inFlight - {f})
  {
    var w := c.inFlight[f];
    var it := c.items[w];
    var h := c.attempts[it.index];
    assert FlightOk(cfg, c.futures[f].phase, it, h, c.clock, c.stopping);
    assert ReportedOk(cfg, c.futures[f].phase.escaped, it, h, c.clock, c.stopping);
    assert RecordEscaped(it, c.futures[f].phase.escaped) == Moved(it, true);
    assert c.items[w := it] == c.items;
  }

  /** c after the in-flight future f was exchanged for the parked item w of the same index. */
  function Shelved(c: Core, f: Fid, w: Wid, due: real, h: seq<Attempt>): Core
    requires w < |c.items|
    requires c.items[w].index < |c.slots| == |c.attempts|
  {
    var i := c.items[w].index;
    c.(
      inFlight := c.inFlight - {f},
      retryWait := c.retryWait[w := due],
      slots := c.slots[i := Backoff(w)],
      attempts := c.attempts[i := h])
  }

  lemma ShelveKeepsPlaces(cfg: Config, c: Core, f: Fid, w: Wid, due: real, h: seq<Attempt>)
    requires Shape(c) && Placed(c) && Sourced(cfg, c) && f in c.inFlight
    requires w < |c.items| && c.items[w].index == c.items[c.inFlight[f]].index
    ensures var d := Shelved(c, f, w, due, h); Shape(d) && Placed(d) && Sourced(cfg, d)
  {
    FlightIsAlone(c, f);
    ShelveKeepsShape(c, f, w, due, h);
    ShelveKeepsPlaced(c, f, w, due, h);
  }

  lemma ShelveKeepsShape(c: Core, f: Fid, w: Wid, due: real, h: seq<Attempt>)
    requires Shape(c) && f in c.inFlight && w < |c.items|
    ensures Shape(Shelved(c, f, w, due, h))
  {
  }

  lemma ShelveKeepsPlaced(c: Core, f: Fid, w: Wid, due: real, h: seq<Attempt>)
    requires Shape(c) && Placed(c) && f in c.inFlight
    requires w < |c.items| && c.items[w].index == c.items[c.inFlight[f]].index && Shape(Shelved(c, f, w, due, h))
    requires forall g :: g in c.inFlight && g != f ==> c.items[c.inFlight[g]].index != c.items[w].index
    requires forall v :: v in c.retryWait ==> c.items[v].index != c.items[w].index
    requires forall k :: 0 <= k < |c.yielded| ==> c.items[c.yielded[k]].index != c.items[w].index
    ensures Placed(Shelved(c, f, w, due, h))
  {
  }

  /** Drawing a delay after the latest attempt. */
  lemma DelayKeepsHistory(cfg: Config, i: nat, h: seq<Attempt>, delay: real)
    requires h != [] && Genuine(cfg, i, h) && Spaced(cfg, h)
    ensures var h' := h[..|h| - 1] + [Last(h).(delay := delay)];
            && Genuine(cfg, i, h') && Spaced(cfg, h')
            && Charged(h') == Charged(h)
            && (AllRetried(cfg, h, |h|) ==> AllRetried(cfg, h', |h|))
  {
    var h' := h[..|h| - 1] + [Last(h).(delay := delay)];
    ChargedAmend(h, Last(h).(delay := delay));
    forall k | 0 <= k < |h'| ensures GenuineAt(cfg, i, h', k) {
      assert GenuineAt(cfg, i, h, k);
    }
    forall k | 0 < k < |h'| ensures Rested(cfg, h'[k - 1], k, h'[k].start) {
      assert Rested(cfg, h[k - 1], k, h[k].start);
    }
    if AllRetried(cfg, h, |h|) {
      forall k | 0 <= k < |h| ensures Retryable(cfg, h'[k].verdict, k + 1) {
        assert Retryable(cfg, h[k].verdict, k + 1);
      }
    }
  }

  lemma AllRetriedSnoc(cfg: Config, h: seq<Attempt>)
    requires h != [] && AllRetried(cfg, h, |h| - 1) && Retryable(cfg, Last(h).verdict, |h|)
    ensures AllRetried(cfg, h, |h|)
  {
  }

  /** The history of an index after a backoff was drawn. */
  function DelayedHistory(h: seq<Attempt>, delay: real): seq<Attempt>
    requires h != []
  {
    h[..|h| - 1] + [Last(h).(delay := delay)]
  }

  lemma {:induction false} ReportedIsParkable(cfg: Config, escaped: Option<Exc>, it: Item, h: seq<Attempt>, clock: real,
                            stopping: bool, delay: real, due: real)
    requires due == clock + delay
    requires ReportedOk(cfg, escaped, it, h, clock, stopping) && !stopping && it.state == RetryWait
    requires it.elapsed == Charged(h)
    requires Genuine(cfg, it.index, h) && Spaced(cfg, h)
    requires cfg.MayDelay(it.attempts, delay)
    ensures var h' := DelayedHistory(h, delay);
            && ParkedOk(cfg, it, due, h', stopping)
            && Genuine(cfg, it.index, h') && Spaced(cfg, h')
    ensures cfg.retry.Some?
  {
    AllRetriedSnoc(cfg, h);
    DelayKeepsHistory(cfg, it.index, h, delay);
    var h' := DelayedHistory(h, delay);
    assert Last(h') == Last(h).(delay := delay) && |h'| == |h|;
  }

  lemma CollectParkKeepsInv(cfg: Config, c: Core, f: Fid, delay: real, due: real)
    requires due == c.clock + delay
    requires CoreInv(cfg, c) && !c.stopping
    requires f in c.inFlight && c.futures[f].phase.Done?
    requires c.items[c.inFlight[f]].state == RetryWait
    requires cfg.MayDelay(c.items[c.inFlight[f]].attempts, delay)
    ensures CoreInv(cfg, c.(inFlight := c.inFlight - {f}).Park(c.inFlight[f], delay, due))
    ensures cfg.retry.Some?
  {
    var w := c.inFlight[f];
    var it := c.items[w];
    var h := c.attempts[it.index];
    FlightRecord(cfg, c, f);
    ReportedIsParkable(cfg, c.futures[f].phase.escaped, it, h, c.clock, c.stopping, delay, due);
    var h' := DelayedHistory(h, delay);
    ParkShelves(c, f, delay, due);
    ShelveKeepsInv(cfg, c, f, due, h');
  }

  lemma ShelveKeepsInv(cfg: Config, c: Core, f: Fid, due: real, h: seq<Attempt>)
    requires CoreInv(cfg, c) && f in c.inFlight && c.futures[f].phase.Done?
    requires var it := c.items[c.inFlight[f]];
             ParkedOk(cfg, it, due, h, c.stopping) && Genuine(cfg, it.index, h) && Spaced(cfg, h)
    ensures CoreInv(cfg, Shelved(c, f, c.inFlight[f], due, h))
  {
    ShelveKeepsPlaces(cfg, c, f, c.inFlight[f], due, h);
    ShelveKeepsRecords(cfg, c, f, due, h);
  }

  /** What the invariant says about one execution in flight. */
  lemma FlightRecord(cfg: Config, c: Core, f: Fid)
    requires CoreInv(cfg, c) && f in c.inFlight
    ensures var it := c.items[c.inFlight[f]];
            var h := c.attempts[it.index];
            && FlightOk(cfg, c.futures[f].phase, it, h, c.clock, c.stopping)
            && Genuine(cfg, it.index, h) && Spaced(cfg, h)
  {
  }

  lemma ParkShelves(c: Core, f: Fid, delay: real, due: real)
    requires Shape(c) && f in c.inFlight && c.attempts[c.items[c.inFlight[f]].index] != []
    ensures c.(inFlight := c.inFlight - {f}).Park(c.inFlight[f], delay, due)
         == Shelved(c, f, c.inFlight[f], due,
                    DelayedHistory(c.attempts[c.items[c.inFlight[f]].index], delay))
  {
  }

  lemma ShelveKeepsRecords(cfg: Config, c: Core, f: Fid, due: real, h: seq<Attempt>)
    requires CoreInv(cfg, c) && f in c.inFlight && c.futures[f].phase.Done?
    requires var it := c.items[c.inFlight[f]];
             ParkedOk(cfg, it, due, h, c.stopping) && Genuine(cfg, it.index, h) && Spaced(cfg, h)
    requires Shape(Shelved(c, f, c.inFlight[f], due, h))
    ensures var d := Shelved(c, f, c.inFlight[f], due, h);
            Accounted(d) && Flying(cfg, d) && Parked(cfg, d) && Finished(cfg, d) && Recorded(cfg, d)
  {
    FlightIsAlone(c, f);
    ShelveKeepsAccounted(c, f, due, h);
    ShelveKeepsFlying(cfg, c, f, due, h);
    ShelveKeepsRest(cfg, c, f, due, h);
  }

  lemma ShelveKeepsAccounted(c: Core, f: Fid, due: real, h: seq<Attempt>)
    requires Shape(c) && Accounted(c) && f in c.inFlight && c.futures[f].phase.Done?
    requires Shape(Shelved(c, f, c.inFlight[f], due, h))
    ensures Accounted(Shelved(c, f, c.inFlight[f], due, h))
  {
    var d := Shelved(c, f, c.inFlight[f], due, h);
    forall g | g in d.abandoned ensures StaleOk(d.futures[g].phase, d.WorkOf(g)) {
      assert StaleOk(c.futures[g].phase, c.WorkOf(g));
    }
  }

  lemma ShelveKeepsFlying(cfg: Config, c: Core, f: Fid, due: real, h: seq<Attempt>)
    requires Shape(c) && Flying(cfg, c) && f in c.inFlight && Shape(Shelved(c, f, c.inFlight[f], due, h))
    requires forall g :: g in c.inFlight && g != f ==>
               c.items[c.inFlight[g]].index != c.items[c.inFlight[f]].index
    ensures Flying(cfg, Shelved(c, f, c.inFlight[f], due, h))
  {
  }

  lemma ShelveKeepsRest(cfg: Config, c: Core, f: Fid, due: real, h: seq<Attempt>)
    requires Shape(c) && Parked(cfg, c) && Finished(cfg, c) && Recorded(cfg, c) && f in c.inFlight
    requires var it := c.items[c.inFlight[f]];
             ParkedOk(cfg, it, due, h, c.stopping) && Genuine(cfg, it.index, h) && Spaced(cfg, h)
    requires Shape(Shelved(c, f, c.inFlight[f], due, h))
    requires var i := c.items[c.inFlight[f]].index;
             && (forall w :: w in c.retryWait ==> c.items[w].index != i)
             && (forall k :: 0 <= k < |c.yielded| ==> c.items[c.yielded[k]].index != i)
    ensures var d := Shelved(c, f, c.inFlight[f], due, h); Parked(cfg, d) && Finished(cfg, d) && Recorded(cfg, d)
  {
  }

  /** c after the in-flight future f was exchanged for a delivery to the consumer. */
  function HandedOver(c: Core, f: Fid): Core
    requires f in c.inFlight && c.inFlight[f] < |c.items| && c.items[c.inFlight[f]].index < |c.slots|
  {
    c.(
      inFlight := c.inFlight - {f},
      yielded := c.yielded + [c.inFlight[f]],
      slots := c.slots[c.items[c.inFlight[f]].index := Delivered(|c.yielded|)])
  }

  lemma CollectDeliverKeepsInv(cfg: Config, c: Core, f: Fid)
    requires CoreInv(cfg, c) && !c.stopping
    requires f in c.inFlight && c.futures[f].phase.Done?
    requires c.items[c.inFlight[f]].state != RetryWait
    ensures CoreInv(cfg, c.(inFlight := c.inFlight - {f}).Deliver(c.inFlight[f]))
  {
    var it := c.items[c.inFlight[f]];
    var h := c.attempts[it.index];
    assert FlightOk(cfg, c.futures[f].phase, it, h, c.clock, c.stopping);
    assert ReportedOk(cfg, c.futures[f].phase.escaped, it, h, c.clock, c.stopping);
    assert DeliveredOk(cfg, it, h);
    assert c.(inFlight := c.inFlight - {f}).Deliver(c.inFlight[f]) == HandedOver(c, f);
    HandOverKeepsPlaces(cfg, c, f);
    HandOverKeepsRecords(cfg, c, f);
  }

  lemma HandOverKeepsPlaces(cfg: Config, c: Core, f: Fid)
    requires Shape(c) && Placed(c) && Sourced(cfg, c) && f in c.inFlight
    ensures var d := HandedOver(c, f); Shape(d) && Placed(d) && Sourced(cfg, d)
  {
    FlightIsAlone(c, f);
    HandOverKeepsShape(c, f);
    HandOverKeepsPlaced(c, f);
  }

  lemma HandOverKeepsShape(c: Core, f: Fid)
    requires Shape(c) && f in c.inFlight
    ensures Shape(HandedOver(c, f))
  {
  }

  lemma HandOverKeepsPlaced(c: Core, f: Fid)
    requires Shape(c) && Placed(c) && f in c.inFlight && Shape(HandedOver(c, f))
    requires var i := c.items[c.inFlight[f]].index;
             && (forall g :: g in c.inFlight && g != f ==> c.items[c.inFlight[g]].index != i)
             && (forall w :: w in c.retryWait ==> c.items[w].index != i)
             && (forall k :: 0 <= k < |c.yielded| ==> c.items[c.yielded[k]].index != i)
    ensures Placed(HandedOver(c, f))
  {
  }

  lemma HandOverKeepsRecords(cfg: Config, c: Core, f: Fid)
    requires CoreInv(cfg, c) && f in c.inFlight && c.futures[f].phase.Done?
    requires DeliveredOk(cfg, c.items[c.inFlight[f]], c.attempts[c.items[c.inFlight[f]].index])
    requires Shape(HandedOver(c, f))
    ensures var d := HandedOver(c, f);
            Accounted(d) && Flying(cfg, d) && Parked(cfg, d) && Finished(cfg, d)
  {
    HandOverKeepsAccounted(c, f);
    HandOverKeepsFlying(cfg, c, f);
    HandOverKeepsFinished(cfg, c, f);
  }

  lemma HandOverKeepsAccounted(c: Core, f: Fid)
    requires Shape(c) && Accounted(c) && f in c.inFlight && c.futures[f].phase.Done? && Shape(HandedOver(c, f))
    ensures Accounted(HandedOver(c, f))
  {
    var d := HandedOver(c, f);
    forall g | g in d.abandoned ensures StaleOk(d.futures[g].phase, d.WorkOf(g)) {
      assert StaleOk(c.futures[g].phase, c.WorkOf(g));
    }
  }

  lemma HandOverKeepsFlying(cfg: Config, c: Core, f: Fid)
    requires Shape(c) && Flying(cfg, c) && Parked(cfg, c) && f in c.inFlight && Shape(HandedOver(c, f))
    ensures Flying(cfg, HandedOver(c, f)) && Parked(cfg, HandedOver(c, f))
  {
  }

  lemma HandOverKeepsFinished(cfg: Config, c: Core, f: Fid)
    requires Shape(c) && Finished(cfg, c) && f in c.inFlight && Shape(HandedOver(c, f))
    requires DeliveredOk(cfg, c.items[c.inFlight[f]], c.attempts[c.items[c.inFlight[f]].index])
    ensures Finished(cfg, HandedOver(c, f))
  {
  }

  // --- timing out an execution ---

  /** An expired item is one whose worker is inside the task function. */
  lemma ExpiredIsExecuting(cfg: Config, c: Core, f: Fid, now: real, taskTimeout: real)
    requires CoreInv(cfg, c) && f in c.inFlight && Expired(c.items[c.inFlight[f]], now, taskTimeout)
    ensures c.futures[f].phase.Executing?
    ensures var it := c.items[c.inFlight[f]];
            ExecutingOk(cfg, c.futures[f].phase.since, c.futures[f].phase.nth, it, c.attempts[it.index],
                        c.clock, c.stopping)
  {
    var it := c.items[c.inFlight[f]];
    assert FlightOk(cfg, c.futures[f].phase, it, c.attempts[it.index], c.clock, c.stopping);
  }

  function TimedOutItem(it: Item, now: real): Item
    requires it.startedAt.Some?
  {
    it.(state := TimedOut, elapsed := it.elapsed + (now - it.startedAt.value), exception := Some(TIMEOUT_ERROR))
  }

  /** c after f was abandoned: the timeout is what the item and the history say, and f no longer
      stands for its index. */
  function Severed(c: Core, f: Fid, now: real, h: seq<Attempt>): Core
    requires f in c.inFlight && c.inFlight[f] < |c.items|
    requires c.items[c.inFlight[f]].startedAt.Some? && c.items[c.inFlight[f]].index < |c.attempts|
  {
    c.(
      inFlight := c.inFlight - {f},
      abandoned := c.abandoned + {f},
      items := c.items[c.inFlight[f] := TimedOutItem(c.items[c.inFlight[f]], now)],
      attempts := c.attempts[c.items[c.inFlight[f]].index := h])
  }

  /** The history of an index whose open attempt overran. */
  function OverranHistory(h: seq<Attempt>, now: real, delay: real): seq<Attempt>
    requires h != []
  {
    h[..|h| - 1] + [Attempt(Last(h).start, Overran, now - Last(h).start, delay)]
  }

  lemma AbandonSevers(cfg: Config, c: Core, f: Fid, now: real, taskTimeout: real)
    requires CoreInv(cfg, c) && f in c.inFlight && Expired(c.items[c.inFlight[f]], now, taskTimeout)
    ensures var i := c.items[c.inFlight[f]].index;
            && c.attempts[i] != []
            && c.Abandon(f, now, taskTimeout) == Severed(c, f, now, OverranHistory(c.attempts[i], now, 0.0))
  {
    ExpiredIsExecuting(cfg, c, f, now, taskTimeout);
    AbandoningSevers(c, f, now, taskTimeout);
  }

  lemma AbandoningSevers(c: Core, f: Fid, now: real, taskTimeout: real)
    requires Shape(c) && !c.broken && f in c.inFlight && Expired(c.items[c.inFlight[f]], now, taskTimeout)
    requires var it := c.items[c.inFlight[f]];
             var h := c.attempts[it.index];
             h != [] && Last(h) == Attempt(it.startedAt.value, Open, 0.0, 0.0)
    ensures var h := c.attempts[c.items[c.inFlight[f]].index];
            c.Abandon(f, now, taskTimeout) == Severed(c, f, now, OverranHistory(h, now, 0.0))
  {
  }

  lemma {:induction false} OverrunKeepsHistory(cfg: Config, i: nat, h: seq<Attempt>, now: real, delay: real)
    requires h != [] && Genuine(cfg, i, h) && Spaced(cfg, h)
    requires Last(h).verdict == Open && Last(h).spent == 0.0
    requires cfg.taskTimeout.Some? && now - Last(h).start >= cfg.taskTimeout.value > 0.0
    ensures var h' := OverranHistory(h, now, delay);
            && Genuine(cfg, i, h') && Spaced(cfg, h')
            && Charged(h') == Charged(h) + (now - Last(h).start)
            && (AllRetried(cfg, h, |h| - 1) ==> AllRetried(cfg, h', |h| - 1))
  {
    CloseKeepsHistory(cfg, i, h, Attempt(Last(h).start, Overran, now - Last(h).start, delay));
  }

  /** c after the timed-out execution f was given up for good. */
  function GivenUp(c: Core, f: Fid, now: real, h: seq<Attempt>): Core
    requires f in c.inFlight && c.inFlight[f] < |c.items|
    requires c.items[c.inFlight[f]].startedAt.Some?
    requires c.items[c.inFlight[f]].index < |c.slots| == |c.attempts|
  {
    Severed(c, f, now, h).(
      yielded := c.yielded + [c.inFlight[f]],
      slots := c.slots[c.items[c.inFlight[f]].index := Delivered(|c.yielded|)])
  }

  /** c after the timed-out execution f was replaced by a parked clone. */
  function Cloned(c: Core, f: Fid, now: real, due: real, h: seq<Attempt>): Core
    requires f in c.inFlight && c.inFlight[f] < |c.items|
    requires c.items[c.inFlight[f]].startedAt.Some?
    requires c.items[c.inFlight[f]].index < |c.slots| == |c.attempts|
  {
    var e := Severed(c, f, now, h);
    e.(
      items := e.items + [RetryClone(e.items[c.inFlight[f]])],
      retryWait := c.retryWait[|c.items| := due],
      slots := c.slots[c.items[c.inFlight[f]].index := Backoff(|c.items|)])
  }

  /** The timed-out item is rewritten where it is. */
  function Overdue(c: Core, f: Fid, now: real, h: seq<Attempt>): Core
    requires f in c.inFlight && c.inFlight[f] < |c.items|
    requires c.items[c.inFlight[f]].startedAt.Some? && c.items[c.inFlight[f]].index < |c.attempts|
  {
    Severed(c, f, now, h).(inFlight := c.inFlight, abandoned := c.abandoned)
  }

  lemma OverdueKeepsPlaces(cfg: Config, c: Core, f: Fid, now: real, h: seq<Attempt>)
    requires Shape(c) && Placed(c) && Sourced(cfg, c)
    requires f in c.inFlight && c.items[c.inFlight[f]].startedAt.Some?
    ensures var d := Overdue(c, f, now, h); Shape(d) && Placed(d) && Sourced(cfg, d)
  {
    var d := Overdue(c, f, now, h);
    assert forall w :: 0 <= w < |c.items| ==>
      d.items[w].index == c.items[w].index && d.items[w].arg == c.items[w].arg;
    SameIndicesKeepPlaces(cfg, c, d);
  }

  lemma AbandoningKeepsPlaces(cfg: Config, c: Core, f: Fid)
    requires Shape(c) && Placed(c) && Sourced(cfg, c) && f < |c.futures| && f !in c.inFlight
    ensures var d := c.(abandoned := c.abandoned + {f}); Shape(d) && Placed(d) && Sourced(cfg, d)
  {
  }

  lemma GiveUpKeepsPlaces(cfg: Config, c: Core, f: Fid, now: real, h: seq<Attempt>)
    requires Shape(c) && Placed(c) && Sourced(cfg, c)
    requires f in c.inFlight && c.items[c.inFlight[f]].startedAt.Some?
    ensures var d := GivenUp(c, f, now, h); Shape(d) && Placed(d) && Sourced(cfg, d)
  {
    var e := Overdue(c, f, now, h);
    OverdueKeepsPlaces(cfg, c, f, now, h);
    HandOverKeepsPlaces(cfg, e, f);
    AbandoningKeepsPlaces(cfg, HandedOver(e, f), f);
  }

  lemma AddingAnItemKeepsPlaces(cfg: Config, c: Core, it: Item)
    requires Shape(c) && Placed(c) && Sourced(cfg, c)
    requires it.index < c.nextIndex && cfg.input(it.index) == Next(it.arg)
    ensures var d := c.(items := c.items + [it]); Shape(d) && Placed(d) && Sourced(cfg, d)
  {
    var d := c.(items := c.items + [it]);
    assert forall w :: 0 <= w < |c.items| ==> d.items[w] == c.items[w];
    assert Shape(d);
  }

  lemma CloneKeepsPlaces(cfg: Config, c: Core, f: Fid, now: real, due: real, h: seq<Attempt>)
    requires Shape(c) && Placed(c) && Sourced(cfg, c)
    requires f in c.inFlight && c.items[c.inFlight[f]].startedAt.Some?
    ensures var d := Cloned(c, f, now, due, h); Shape(d) && Placed(d) && Sourced(cfg, d)
  {
    var e := Overdue(c, f, now, h);
    OverdueKeepsPlaces(cfg, c, f, now, h);
    var clone := RetryClone(e.items[c.inFlight[f]]);
    AddingAnItemKeepsPlaces(cfg, e, clone);
    var g := e.(items := e.items + [clone]);
    ShelveKeepsPlaces(cfg, g, f, |c.items|, due, h);
    AbandoningKeepsPlaces(cfg, Shelved(g, f, |c.items|, due, h), f);
    CloningComposes(c, f, now, due, h);
  }

  lemma CloningComposes(c: Core, f: Fid, now: real, due: real, h: seq<Attempt>)
    requires Shape(c) && f in c.inFlight && c.items[c.inFlight[f]].startedAt.Some?
    ensures var e := Overdue(c, f, now, h);
            var g := e.(items := e.items + [RetryClone(e.items[c.inFlight[f]])]);
            && g.items[|c.items|].index == c.items[c.inFlight[f]].index < |g.slots| == |g.attempts|
            && Cloned(c, f, now, due, h) == Shelved(g, f, |c.items|, due, h).(abandoned := c.abandoned + {f})
  {
    var e := Overdue(c, f, now, h);
    assert e.attempts[c.items[c.inFlight[f]].index := h] == e.attempts;
  }

  lemma ScanDeliverKeepsInv(cfg: Config, c: Core, f: Fid, now: real)
    requires CoreInv(cfg, c) && !c.stopping && f in c.inFlight
    requires cfg.taskTimeout.Some? && cfg.taskTimeout.value > 0.0
    requires Expired(c.items[c.inFlight[f]], now, cfg.taskTimeout.value)
    requires !cfg.RetriesTimeout(c.items[c.inFlight[f]].attempts)
    ensures CoreInv(cfg, c.Abandon(f, now, cfg.taskTimeout.value).Deliver(c.inFlight[f]))
  {
    var it := c.items[c.inFlight[f]];
    var h := c.attempts[it.index];
    AbandonSevers(cfg, c, f, now, cfg.taskTimeout.value);
    ExpiredIsExecuting(cfg, c, f, now, cfg.taskTimeout.value);
    assert Genuine(cfg, it.index, h) && Spaced(cfg, h);
    OverrunKeepsHistory(cfg, it.index, h, now, 0.0);
    var h' := OverranHistory(h, now, 0.0);
    assert it.elapsed == Charged(h) by {
      assert FlightOk(cfg, c.futures[f].phase, it, h, c.clock, c.stopping);
    }
    assert DeliveredOk(cfg, TimedOutItem(it, now), h');
    assert c.Abandon(f, now, cfg.taskTimeout.value).Deliver(c.inFlight[f]) == GivenUp(c, f, now, h');
    GiveUpKeepsPlaces(cfg, c, f, now, h');
    GiveUpKeepsRecords(cfg, c, f, now, h');
    GiveUpKeepsDelivered(cfg, c, f, now, h');
  }

  lemma GiveUpKeepsRecords(cfg: Config, c: Core, f: Fid, now: real, h: seq<Attempt>)
    requires CoreInv(cfg, c) && f in c.inFlight && c.futures[f].phase.Executing?
    requires var it := c.items[c.inFlight[f]];
             && it.startedAt.Some?
             && DeliveredOk(cfg, TimedOutItem(it, now), h)
             && Genuine(cfg, it.index, h) && Spaced(cfg, h)
    requires Shape(GivenUp(c, f, now, h))
    ensures var d := GivenUp(c, f, now, h);
            Flying(cfg, d) && Parked(cfg, d) && Recorded(cfg, d)
  {
    FlightIsAlone(c, f);
    GiveUpKeepsFlying(cfg, c, f, now, h);
    GiveUpKeepsParked(cfg, c, f, now, h);
  }

  lemma GiveUpKeepsFlying(cfg: Config, c: Core, f: Fid, now: real, h: seq<Attempt>)
    requires Shape(c) && Flying(cfg, c) && f in c.inFlight && c.items[c.inFlight[f]].startedAt.Some?
    requires Shape(GivenUp(c, f, now, h))
    requires forall g :: g in c.inFlight && g != f ==>
               c.items[c.inFlight[g]].index != c.items[c.inFlight[f]].index
    ensures Flying(cfg, GivenUp(c, f, now, h))
  {
  }

  lemma GiveUpKeepsParked(cfg: Config, c: Core, f: Fid, now: real, h: seq<Attempt>)
    requires Shape(c) && Parked(cfg, c) && f in c.inFlight && c.items[c.inFlight[f]].startedAt.Some?
    requires Shape(GivenUp(c, f, now, h))
    requires forall w :: w in c.retryWait ==> c.items[w].index != c.items[c.inFlight[f]].index
    ensures Parked(cfg, GivenUp(c, f, now, h))
  {
  }

  lemma GiveUpKeepsDelivered(cfg: Config, c: Core, f: Fid, now: real, h: seq<Attempt>)
    requires CoreInv(cfg, c) && f in c.inFlight && c.futures[f].phase.Executing?
    requires c.items[c.inFlight[f]].startedAt.Some?
    requires DeliveredOk(cfg, TimedOutItem(c.items[c.inFlight[f]], now), h)
    requires Shape(GivenUp(c, f, now, h))
    ensures var d := GivenUp(c, f, now, h); Accounted(d) && Finished(cfg, d)
  {
    var d := GivenUp(c, f, now, h);
    FlightIsAlone(c, f);
    forall g | g in d.abandoned ensures StaleOk(d.futures[g].phase, d.WorkOf(g)) {
      if g != f {
        assert StaleOk(c.futures[g].phase, c.WorkOf(g));
      }
    }
    assert Accounted(d);
  }

  lemma {:induction false} OverrunIsParkable(cfg: Config, since: real, nth: nat, it: Item, h: seq<Attempt>, clock: real,
                          stopping: bool, now: real, delay: real, due: real)
    requires due == clock + delay
    requires ExecutingOk(cfg, since, nth, it, h, clock, stopping) && !stopping && now <= clock
    requires it.elapsed == Charged(h)
    requires Genuine(cfg, it.index, h) && Spaced(cfg, h)
    requires cfg.taskTimeout.Some? && now - since >= cfg.taskTimeout.value > 0.0
    requires cfg.RetriesTimeout(it.attempts) && cfg.MayDelay(it.attempts, delay)
    ensures var h' := OverranHistory(h, now, delay);
            && ParkedOk(cfg, RetryClone(TimedOutItem(it, now)), due, h', stopping)
            && Genuine(cfg, it.index, h') && Spaced(cfg, h')
  {
    OverrunKeepsHistory(cfg, it.index, h, now, delay);
    var h' := OverranHistory(h, now, delay);
    assert Last(h') == Attempt(since, Overran, now - since, delay) && |h'| == |h|;
    AllRetriedSnoc(cfg, h');
  }

  lemma ScanParkKeepsInv(cfg: Config, c: Core, f: Fid, now: real, delay: real, due: real)
    requires due == c.clock + delay
    requires CoreInv(cfg, c) && !c.stopping && f in c.inFlight && now <= c.clock
    requires cfg.taskTimeout.Some? && cfg.taskTimeout.value > 0.0
    requires Expired(c.items[c.inFlight[f]], now, cfg.taskTimeout.value)
    requires cfg.RetriesTimeout(c.items[c.inFlight[f]].attempts)
    requires cfg.MayDelay(c.items[c.inFlight[f]].attempts, delay)
    ensures CoreInv(cfg, c.Abandon(f, now, cfg.taskTimeout.value).ParkClone(c.inFlight[f], delay, due))
  {
    var it := c.items[c.inFlight[f]];
    var h := c.attempts[it.index];
    var p := c.futures[f].phase;
    AbandonSevers(cfg, c, f, now, cfg.taskTimeout.value);
    ExpiredIsExecuting(cfg, c, f, now, cfg.taskTimeout.value);
    FlightRecord(cfg, c, f);
    OverrunIsParkable(cfg, p.since, p.nth, it, h, c.clock, c.stopping, now, delay, due);
    var h' := OverranHistory(h, now, delay);
    ParkCloneClones(c, f, now, delay, due);
    CloneKeepsInv(cfg, c, f, now, due, h');
  }

  lemma CloneKeepsInv(cfg: Config, c: Core, f: Fid, now: real, due: real, h: seq<Attempt>)
    requires CoreInv(cfg, c) && f in c.inFlight && c.futures[f].phase.Executing?
    requires var it := c.items[c.inFlight[f]];
             && it.startedAt.Some?
             && ParkedOk(cfg, RetryClone(TimedOutItem(it, now)), due, h, c.stopping)
             && Genuine(cfg, it.index, h) && Spaced(cfg, h)
    ensures CoreInv(cfg, Cloned(c, f, now, due, h))
  {
    CloneKeepsPlaces(cfg, c, f, now, due, h);
    CloneKeepsFlying(cfg, c, f, now, due, h);
    CloneKeepsParked(cfg, c, f, now, due, h);
    CloneKeepsDelivered(cfg, c, f, now, due, h);
  }

  lemma ParkCloneClones(c: Core, f: Fid, now: real, delay: real, due: real)
    requires Shape(c) && f in c.inFlight && c.items[c.inFlight[f]].startedAt.Some?
    requires c.attempts[c.items[c.inFlight[f]].index] != []
    ensures var h := c.attempts[c.items[c.inFlight[f]].index];
            && Severed(c, f, now, OverranHistory(h, now, 0.0)).ParkClone(c.inFlight[f], delay, due)
               == Cloned(c, f, now, due, OverranHistory(h, now, delay))
  {
    var i := c.items[c.inFlight[f]].index;
    var h := c.attempts[i];
    var h0, h1 := OverranHistory(h, now, 0.0), OverranHistory(h, now, delay);
    assert h0[..|h0| - 1] + [Last(h0).(delay := delay)] == h1;
    assert c.attempts[i := h0][i := h1] == c.attempts[i := h1];
  }

  lemma CloneLeavesOthers(c: Core, f: Fid, now: real, due: real, h: seq<Attempt>)
    requires Shape(c) && f in c.inFlight && c.items[c.inFlight[f]].startedAt.Some?
    ensures var d := Cloned(c, f, now, due, h);
            forall w :: 0 <= w < |c.items| && c.items[w].index != c.items[c.inFlight[f]].index ==>
              d.items[w] == c.items[w] && d.attempts[c.items[w].index] == c.attempts[c.items[w].index]
  {
  }

  lemma CloneKeepsFlying(cfg: Config, c: Core, f: Fid, now: real, due: real, h: seq<Attempt>)
    requires CoreInv(cfg, c) && f in c.inFlight && c.items[c.inFlight[f]].startedAt.Some?
    requires Shape(Cloned(c, f, now, due, h))
    ensures Flying(cfg, Cloned(c, f, now, due, h))
  {
    FlightIsAlone(c, f);
    CloneLeavesOthers(c, f, now, due, h);
  }

  lemma CloneKeepsParked(cfg: Config, c: Core, f: Fid, now: real, due: real, h: seq<Attempt>)
    requires CoreInv(cfg, c) && f in c.inFlight && c.items[c.inFlight[f]].startedAt.Some?
    requires ParkedOk(cfg, RetryClone(TimedOutItem(c.items[c.inFlight[f]], now)), due, h, c.stopping)
    requires Shape(Cloned(c, f, now, due, h))
    ensures Parked(cfg, Cloned(c, f, now, due, h))
  {
    FlightIsAlone(c, f);
    CloneLeavesOthers(c, f, now, due, h);
  }

  lemma CloneKeepsDelivered(cfg: Config, c: Core, f: Fid, now: real, due: real, h: seq<Attempt>)
    requires CoreInv(cfg, c) && f in c.inFlight && c.futures[f].phase.Executing?
    requires var it := c.items[c.inFlight[f]];
             && it.startedAt.Some?
             && ParkedOk(cfg, RetryClone(TimedOutItem(it, now)), due, h, c.stopping)
             && Genuine(cfg, it.index, h) && Spaced(cfg, h)
    requires Shape(Cloned(c, f, now, due, h))
    ensures var d := Cloned(c, f, now, due, h);
            Accounted(d) && Finished(cfg, d) && Recorded(cfg, d)
  {
    var d := Cloned(c, f, now, due, h);
    FlightIsAlone(c, f);
    forall g | g in d.abandoned ensures StaleOk(d.futures[g].phase, d.WorkOf(g)) {
      if g != f {
        assert StaleOk(c.futures[g].phase, c.WorkOf(g));
      }
    }
    assert Accounted(d);
    CloneLeavesOthers(c, f, now, due, h);
  }

  /** Every execution of an index but the latest was one to be repeated. */
  lemma HistoryIsRetried(cfg: Config, c: Core, i: nat)
    requires CoreInv(cfg, c) && i < c.nextIndex
    ensures c.attempts[i] != [] ==> AllRetried(cfg, c.attempts[i], |c.attempts[i]| - 1)
  {
    var h := c.attempts[i];
    match c.slots[i]
    case InFlight(f) => FlightRecord(cfg, c, f);
    case Backoff(w) =>
      assert ParkedOk(cfg, c.items[w], c.retryWait[w], h, c.stopping);
    case Delivered(k) =>
      assert DeliveredOk(cfg, c.items[c.yielded[k]], h);
  }
}

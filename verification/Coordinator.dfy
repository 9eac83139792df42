/** The coordinator's loop itself, over shared work items, with everybody else moving wherever the
    coordinator holds no lock. Every step it makes is a step of the protocol. */
module Coordinator {
  import opened Numbers
  import opened TaskStates
  import opened Retry
  import opened WorkItems
  import opened Protocol
  import opened Steps
  import opened Effects
  import opened LoopEffects
  import opened Teardown
  import opened Termination
  import opened Progress
  import opened Fairness

  /** What happens outside the coordinator at one point of its run: what the clock, the token and
      the workers do, which of the done futures wait() reports, the jitter drawn, and whether wait()
      is interrupted. */
  datatype Moment = Moment(others: seq<Action>, done: set<Fid>, jitter: real, interrupted: bool)

  /** The objects are different ones, as their places are, and carry these records. */
  ghost predicate Carries(ws: seq<WorkItem>, its: seq<Item>)
    reads ws
  {
    |ws| == |its| && forall w :: 0 <= w < |ws| ==> ws[w].serial == w && ws[w].View() == its[w]
  }

  class Run {
    const cfg: Config
    const world: nat -> Moment
    /** Whether the consumer, having received these items, closes the generator. */
    const reader: seq<Item> -> bool
    var moment: nat
    var clock: real
    var requested: bool
    var items: seq<WorkItem>
    var futures: seq<Future>
    var inFlight: map<Fid, Wid>
    var retryWait: map<Wid, real>
    var abandoned: set<Fid>
    var nextIndex: nat
    var exhausted: bool
    var yielded: seq<Wid>
    /** The state of the protocol that this run is in, how many of its waits have ended, and how many
        productive steps it has made. */
    ghost var s: State
    ghost var waits: nat
    ghost var steps: nat

    ghost predicate Mirrors()
      reads this
    {
      && clock == s.core.clock && requested == s.core.requested
      && futures == s.core.futures && inFlight == s.core.inFlight && retryWait == s.core.retryWait
      && abandoned == s.core.abandoned && nextIndex == s.core.nextIndex
      && exhausted == s.core.exhausted && yielded == s.core.yielded
    }

    /** At some moment cancellation is requested. */
    ghost predicate AsksToStop() {
      exists m :: Request in world(m).others
    }

    /** The fields are those of a state that a run of the protocol reaches. */
    ghost predicate Valid()
      reads this, items
    {
      Sound() && Carries(items, s.core.items)
    }

    ghost predicate Sound()
      reads this
    {
      && cfg.Valid() && Mirrors() && (requested ==> AsksToStop())
      && Reachable(cfg, s) && Heeded(reader, s) && Budgeted(cfg, s, steps)
    }

    /** Time passes, and while nothing productive is done, what the coordinator waits for is the same. */
    twostate predicate Onward()
      reads this
    {
      && old(clock) <= clock && old(moment) <= moment && old(steps) <= steps
      && (steps == old(steps) ==> SameHold(old(s.core), s.core))
    }

    /** Items are only ever added. */
    twostate predicate Grew()
      reads this
    {
      && old(items) <= items && (forall w :: |old(items)| <= w < |items| ==> fresh(items[w]))
      && Onward()
    }

    twostate predicate Grown()
      reads this
    {
      Grew() && waits == old(waits)
    }

    twostate predicate Kept()
      reads this
    {
      items == old(items) && waits == old(waits) && Onward()
    }

    constructor (cfg: Config, world: nat -> Moment, reader: seq<Item> -> bool)
      requires cfg.Valid()
      ensures Valid() && this.cfg == cfg && this.world == world && this.reader == reader
      ensures s == Init() && items == []
    {
      this.cfg, this.world, this.reader := cfg, world, reader;
      moment, clock, requested, items, futures := 0, 0.0, false, [], [];
      inFlight, retryWait, abandoned, nextIndex, exhausted, yielded := map[], map[], {}, 0, false, [];
      s, waits, steps := Init(), 0, 0;
      StartIsReachable(cfg);
      StartIsBudgeted(cfg);
    }

    ghost method Log(a: Action)
      requires cfg.Valid() && Reachable(cfg, s) && Budgeted(cfg, s, steps) && Can(cfg, s, a)
      requires Heeded(reader, s) && Heeds(reader, s, a)
      modifies this`s, this`waits, this`steps
      ensures s == Do(cfg, old(s), a) && Reachable(cfg, s) && Heeded(reader, s) && Budgeted(cfg, s, steps)
      ensures waits == old(waits) + if a.Wake? then 1 else 0
      ensures old(steps) <= steps && (steps == old(steps) ==> SameHold(old(s.core), s.core))
    {
      if Productive(cfg, s, a) {
        LogStep(a);
      } else {
        UnproductiveStepsHold(cfg, s, a);
        Append(a);
      }
    }

    /** A productive step. */
    ghost method LogStep(a: Action)
      requires cfg.Valid() && Reachable(cfg, s) && Budgeted(cfg, s, steps) && Can(cfg, s, a)
      requires Heeded(reader, s) && Heeds(reader, s, a) && Productive(cfg, s, a)
      modifies this`s, this`waits, this`steps
      ensures s == Do(cfg, old(s), a) && Reachable(cfg, s) && Heeded(reader, s) && Budgeted(cfg, s, steps)
      ensures waits == old(waits) && steps == old(steps) + 1
    {
      Append(a);
    }

    ghost method Append(a: Action)
      requires cfg.Valid() && Reachable(cfg, s) && Budgeted(cfg, s, steps) && Can(cfg, s, a)
      requires Heeded(reader, s) && Heeds(reader, s, a)
      modifies this`s, this`waits, this`steps
      ensures s == Do(cfg, old(s), a) && Reachable(cfg, s) && Heeded(reader, s) && Budgeted(cfg, s, steps)
      ensures waits == old(waits) + if a.Wake? then 1 else 0
      ensures steps == old(steps) + if Productive(cfg, old(s), a) then 1 else 0
    {
      ReachableSnoc(cfg, s, a);
      StepsHeed(cfg, reader, s, a);
      StepIsBudgeted(cfg, s, steps, a);
      steps := steps + if Productive(cfg, s, a) then 1 else 0;
      waits := waits + if a.Wake? then 1 else 0;
      s := Do(cfg, s, a);
    }

    /** What every step of the protocol needs and keeps. */
    ghost predicate Traced()
      reads this`s, this`steps
    {
      cfg.Valid() && Reachable(cfg, s) && Heeded(reader, s) && Budgeted(cfg, s, steps)
    }

    /** The loop the coordinator has finished is left for what comes next. */
    ghost method Move(wake: real)
      requires Traced() && CanEnter(cfg, s, wake)
      modifies this`s, this`waits, this`steps
      ensures Traced() && s == DoEnter(cfg, old(s), wake)
      ensures waits == old(waits) && steps == old(steps) && SameHold(old(s.core), s.core)
    {
      EnteringHolds(cfg, s, wake);
      Append(Enter(wake));
    }

    ghost method LogResubmit(w: Wid)
      requires Traced() && s.pc.Resubmitting? && w in s.pc.due && w in s.core.retryWait && w < |s.core.items|
      modifies this`s, this`waits, this`steps
      ensures Traced() && waits == old(waits) && steps > old(steps)
      ensures s == State(old(s.core).Resubmit(w), Resubmitting(old(s.pc.now), old(s.pc.due) - {w}))
    {
      ResubmitEffect(cfg, s, w);
      LogStep(ResubmitOne(w));
    }

    ghost method LogParked(f: Fid, delay: real, due: real)
      requires Traced() && s.pc.Collecting? && f in s.pc.done && f !in s.core.abandoned && KeyPresent(s.core, f)
      requires s.core.items[s.core.inFlight[f]].state == RetryWait && cfg.retry.Some?
      requires cfg.MayDelay(s.core.items[s.core.inFlight[f]].attempts, delay) && due == s.core.clock + delay
      modifies this`s, this`waits, this`steps
      ensures Traced() && waits == old(waits) && steps > old(steps)
      ensures s.pc == Collecting(old(s.pc.done) - {f})
      ensures var c := old(s.core); Retired(c, s.core, f, c.retryWait[c.inFlight[f] := due], c.yielded)
      ensures Consumed(cfg, old(s.core), s.core, f, None)
    {
      CollectEffect(cfg, s, f, delay, due);
      FlightHasAttempt(cfg, s, f);
      ParkingIsConsumed(cfg, s.core, Do(cfg, s, CollectOne(f, delay, due)).core, f, delay, due);
      LogStep(CollectOne(f, delay, due));
    }

    ghost method LogDelivered(f: Fid)
      requires Traced() && s.pc.Collecting? && f in s.pc.done && f !in s.core.abandoned && KeyPresent(s.core, f)
      requires s.core.items[s.core.inFlight[f]].state != RetryWait
      modifies this`s, this`waits, this`steps
      ensures Traced() && waits == old(waits) && steps > old(steps)
      ensures s.pc == Yielding(old(s.core).inFlight[f], OfCollect(old(s.pc.done) - {f}))
      ensures var c := old(s.core); Retired(c, s.core, f, c.retryWait, c.yielded + [c.inFlight[f]])
    {
      var delay := SomeDelay(cfg, s.core.items[s.core.inFlight[f]].attempts);
      var due := s.core.clock + delay;
      CollectEffect(cfg, s, f, delay, due);
      LogStep(CollectOne(f, delay, due));
    }

    ghost method LogGivenUp(f: Fid)
      requires Traced() && s.pc.Scanning? && f in s.pc.todo && KeyPresent(s.core, f) && cfg.taskTimeout.Some?
      requires Expired(s.core.items[s.core.inFlight[f]], s.pc.now, cfg.taskTimeout.value)
      requires !cfg.RetriesTimeout(s.core.items[s.core.inFlight[f]].attempts)
      modifies this`s, this`waits, this`steps
      ensures Traced() && waits == old(waits) && steps > old(steps)
      ensures s.pc == Yielding(old(s.core).inFlight[f], OfScan(old(s.pc.now), old(s.pc.todo) - {f}))
      ensures var c := old(s.core);
              var it := TimeOutIfExpired(c.items[c.inFlight[f]], old(s.pc.now), cfg.taskTimeout.value).item;
              GaveUp(c, s.core, f, c.items[c.inFlight[f] := it], c.retryWait, c.yielded + [c.inFlight[f]])
    {
      var delay := SomeDelay(cfg, s.core.items[s.core.inFlight[f]].attempts);
      var due := s.core.clock + delay;
      ScanDeliverEffect(cfg, s, f, delay, due);
      LogStep(ScanOne(f, delay, due));
    }

    // --- the others ---

    method TickStep(t: real)
      requires Valid() && Can(cfg, s, Tick(t))
      modifies this
      ensures Valid() && Kept() && moment == old(moment) && s == Do(cfg, old(s), Tick(t))
      ensures steps == old(steps) + if Productive(cfg, old(s), Tick(t)) then 1 else 0
    {
      clock := t;
      Append(Tick(t));
    }

    method RequestStep()
      requires Valid() && AsksToStop()
      modifies this
      ensures Valid() && Kept() && moment == old(moment) && s == Do(cfg, old(s), Request)
      ensures steps == old(steps) + if Productive(cfg, old(s), Request) then 1 else 0
    {
      requested := true;
      Append(Request);
    }

    method TakeUpStep(f: Fid)
      requires Valid() && Can(cfg, s, TakeUp(f))
      modifies this
      ensures Valid() && Kept() && moment == old(moment) && s == Do(cfg, old(s), TakeUp(f))
      ensures steps == old(steps) + if Productive(cfg, old(s), TakeUp(f)) then 1 else 0
    {
      futures := futures[f := futures[f].(phase := Taken)];
      LogStep(TakeUp(f));
    }

    method BeginStep(f: Fid)
      requires Valid() && Can(cfg, s, Begin(f))
      modifies this, items
      ensures Valid() && Kept() && moment == old(moment) && s == Do(cfg, old(s), Begin(f))
      ensures steps == old(steps) + if Productive(cfg, old(s), Begin(f)) then 1 else 0
    {
      var w := futures[f].work;
      BeginEffect(cfg, s, f);
      var legal := items[w].Start(clock);
      assert legal;
      futures := futures[f := futures[f].(phase := Executing(clock, items[w].attempts))];
      LogStep(Begin(f));
    }

    method FinishStep(f: Fid, spent: real)
      requires Valid() && Can(cfg, s, Finish(f, spent))
      modifies this, items
      ensures Valid() && Kept() && moment == old(moment) && s == Do(cfg, old(s), Finish(f, spent))
      ensures steps == old(steps) + if Productive(cfg, old(s), Finish(f, spent)) then 1 else 0
    {
      var w := futures[f].work;
      var o := cfg.call(items[w].index, futures[f].phase.nth);
      FinishEffect(cfg, s, f, spent, o);
      var legal := items[w].Report(o, spent, cfg.retry);
      assert legal;
      futures := futures[f := futures[f].(phase := Reported(EscapeOf(o)))];
      LogStep(Finish(f, spent));
    }

    method SettleStep(f: Fid)
      requires Valid() && Can(cfg, s, Protocol.Settle(f))
      modifies this
      ensures Valid() && Kept() && moment == old(moment) && s == Do(cfg, old(s), Protocol.Settle(f))
      ensures steps == old(steps) + if Productive(cfg, old(s), Protocol.Settle(f)) then 1 else 0
    {
      futures := futures[f := futures[f].(phase := Done(futures[f].phase.escaped))];
      LogStep(Protocol.Settle(f));
    }

    // --- the coordinator, one entry of a container at a time ---

    method AskStep(f: Fid)
      requires Valid() && Can(cfg, s, AskOne(f))
      modifies this, items
      ensures Valid() && Kept() && s == Do(cfg, old(s), AskOne(f))
      ensures s.pc == Asking(old(s.pc.todo) - {f})
    {
      AskEffect(cfg, s, f);
      var legal := items[inFlight[f]].AskToStop();
      assert legal;
      Log(AskOne(f));
    }

    /** A new item, numbered by its order of creation. */
    method Enlist(work: WorkItem, ghost its: seq<Item>)
      requires Carries(items, its) && work.serial == |items|
      modifies this`items
      ensures items == old(items) + [work]
      ensures Carries(items, its + [work.View()])
    {
      items := items + [work];
    }

    method EnlistClone(w: Wid, ghost its: seq<Item>)
      requires w < |items| && Carries(items, its)
      modifies this`items
      ensures Grown() && |items| == |old(items)| + 1
      ensures Carries(items, its + [RetryClone(its[w])])
    {
      var clone := items[w].Clone(|items|);
      Enlist(clone, its);
    }

    method EnlistNew(index: nat, arg: Value, ghost its: seq<Item>)
      requires Carries(items, its)
      modifies this`items
      ensures Grown() && |items| == |old(items)| + 1
      ensures Carries(items, its + [NewItem(index, arg)])
    {
      var work := new WorkItem(index, arg, |items|);
      Enlist(work, its);
    }

    method Submit(w: Wid)
      modifies this`futures, this`inFlight
      ensures futures == old(futures) + [Future(w, Queued)]
      ensures inFlight == old(inFlight)[old(|futures|) := w]
    {
      inFlight := inFlight[|futures| := w];
      futures := futures + [Future(w, Queued)];
    }

    method ResubmitStep(w: Wid)
      requires Valid() && s.pc.Resubmitting? && w in s.pc.due
      modifies this, items
      ensures Valid() && Kept() && steps > old(steps)
      ensures w in old(s.core).retryWait && w < |old(s.core).items|
      ensures s == State(old(s.core).Resubmit(w), Resubmitting(old(s.pc.now), old(s.pc.due) - {w}))
    {
      DueCanBeRearmed(cfg, s, w);
      retryWait := retryWait - {w};
      var legal := items[w].RearmForRetry();
      assert legal;
      Submit(w);
      LogResubmit(w);
    }

    /** The newest item is the one for the input just pulled. */
    method SubmitNew(arg: Value)
      requires Sound() && Can(cfg, s, PullOne)
      requires cfg.input(nextIndex) == Next(arg) && Carries(items, s.core.items + [NewItem(nextIndex, arg)])
      modifies this
      ensures Valid() && Kept() && s == Do(cfg, old(s), PullOne) && steps > old(steps)
    {
      PullEffect(cfg, s, arg);
      nextIndex := nextIndex + 1;
      Submit(|items| - 1);
      LogStep(PullOne);
    }

    /** One next() on the input. */
    method PullStep() returns (over: Option<Exit>)
      requires Valid() && Can(cfg, s, PullOne)
      modifies this, items
      ensures Valid() && Grown() && s == Do(cfg, old(s), PullOne) && steps > old(steps)
      ensures over.Some? <==> cfg.input(old(nextIndex)).Broken?
      ensures over.Some? ==> over.value.InputRaised? && s.pc == Cancelling(over.value, inFlight.Keys)
    {
      over := None;
      match cfg.input(nextIndex)
      case Next(arg) =>
        EnlistNew(nextIndex, arg, s.core.items);
        SubmitNew(arg);
      case Stop =>
        exhausted := true;
        LogStep(PullOne);
      case Broken(e) =>
        over := Some(InputRaised(e));
        LogStep(PullOne);
    }

    /** The backoff after `attempts` executions, with the jitter drawn. */
    method Delay(attempts: nat, jitter: real) returns (d: real)
      requires cfg.Valid() && cfg.retry.Some?
      ensures cfg.MayDelay(attempts, d)
      ensures attempts >= 1 ==> BacksOff(cfg.retry.value, attempts, d)
      ensures attempts >= 1 && cfg.retry.value.jitter && BacksOff(cfg.retry.value, attempts, jitter) ==> d == jitter
    {
      if attempts >= 1 {
        DelaysInClosedForm(cfg.retry.value, attempts, jitter);
        DelaysInClosedForm(cfg.retry.value, attempts, cfg.retry.value.FullDelay(attempts));
      }
      FullDelayIsNonNegative(cfg.retry.value, attempts);
      d := cfg.retry.value.FullDelay(attempts);
      if cfg.retry.value.jitter && 0.0 <= jitter <= d {
        d := jitter;
      }
    }

    /** One completed future: it frees its slot, or its item is parked, or its item is delivered. */
    method CollectStep(f: Fid, jitter: real) returns (work: Option<Wid>)
      requires Valid() && s.pc.Collecting? && f in s.pc.done
      modifies this, items
      ensures Valid() && Kept() && steps > old(steps)
      ensures s.pc == if work.None? then Collecting(old(s.pc.done) - {f})
                      else Yielding(work.value, OfCollect(old(s.pc.done) - {f}))
      ensures Consumed(cfg, old(s.core), s.core, f, work)
    {
      work := None;
      CompletionIsKnown(cfg, s, f);
      if f in abandoned {
        FreeSlot(f);
      } else {
        var w := inFlight[f];
        var legal := items[w].RecordEscape(futures[f].phase.escaped);
        assert legal;
        if items[w].state == RetryWait {
          ParkCompleted(f, jitter);
        } else {
          DeliverCompleted(f);
          work := Some(w);
        }
      }
    }

    method FreeSlot(f: Fid)
      requires Valid() && s.pc.Collecting? && f in s.pc.done && f in abandoned && f !in inFlight
      modifies this
      ensures Valid() && Kept() && s.pc == Collecting(old(s.pc.done) - {f}) && steps > old(steps)
      ensures s.core == old(s.core).DropAbandoned(f)
    {
      ghost var due := clock + 0.0;
      CollectEffect(cfg, s, f, 0.0, due);
      abandoned := abandoned - {f};
      LogStep(CollectOne(f, 0.0, due));
    }

    method ParkCompleted(f: Fid, jitter: real)
      requires Valid() && s.pc.Collecting? && f in s.pc.done && f in inFlight && f !in abandoned
      requires inFlight[f] < |items| && items[inFlight[f]].state == RetryWait && cfg.retry.Some?
      modifies this
      ensures Valid() && Kept() && s.pc == Collecting(old(s.pc.done) - {f}) && steps > old(steps)
      ensures Consumed(cfg, old(s.core), s.core, f, None)
    {
      var w := inFlight[f];
      var delay := Delay(items[w].attempts, jitter);
      var due := clock + delay;
      InFlightKeysExist(cfg, s);
      LogParked(f, delay, due);
      inFlight := inFlight - {f};
      retryWait := retryWait[w := due];
    }

    method DeliverCompleted(f: Fid)
      requires Valid() && s.pc.Collecting? && f in s.pc.done && f in inFlight && f !in abandoned
      requires inFlight[f] < |items| && items[inFlight[f]].state != RetryWait
      modifies this
      ensures Valid() && Kept() && steps > old(steps)
      ensures s.pc == Yielding(old(inFlight)[f], OfCollect(old(s.pc.done) - {f}))
      ensures Consumed(cfg, old(s.core), s.core, f, Some(old(inFlight)[f]))
    {
      var w := inFlight[f];
      InFlightKeysExist(cfg, s);
      LogDelivered(f);
      inFlight := inFlight - {f};
      yielded := yielded + [w];
    }

    /** One scanned execution: it is within its time, or its clone is parked, or it is delivered. */
    method ScanStep(f: Fid, now: real, jitter: real) returns (work: Option<Wid>)
      requires Valid() && s.pc.Scanning? && f in s.pc.todo && now == s.pc.now
      modifies this, items
      ensures Valid() && Grown()
      ensures s.pc == if work.None? then Scanning(now, old(s.pc.todo) - {f})
                      else Yielding(work.value, OfScan(now, old(s.pc.todo) - {f}))
      ensures Scanned(cfg, old(s.core), s.core, f, now, work)
    {
      work := None;
      ScannedIsInFlight(cfg, s, f);
      var w := inFlight[f];
      var fired := Expire(f, now);
      if !fired {
        PassOver(f);
      } else if cfg.retry.Some? && cfg.retry.value.ShouldRetry(items[w].exception.value, items[w].attempts) {
        ParkOverrun(f, now, jitter);
      } else {
        DeliverOverrun(f, now);
        work := Some(w);
      }
    }

    /** The compare-and-set on the item. */
    method Expire(f: Fid, now: real) returns (fired: bool)
      requires Valid() && s.pc.Scanning? && f in s.pc.todo && now == s.pc.now
      requires KeyPresent(s.core, f) && cfg.taskTimeout.Some?
      modifies items
      ensures fired == Expired(s.core.items[inFlight[f]], now, cfg.taskTimeout.value)
      ensures !fired ==> Valid()
      ensures fired ==>
                && Overran(f, now) && Carries(items, TimedOutItems(f, now))
                && items[inFlight[f]].exception == Some(TIMEOUT_ERROR)
                && items[inFlight[f]].attempts == s.core.items[inFlight[f]].attempts
    {
      var legal;
      fired, legal := items[inFlight[f]].TimeOut(now, cfg.taskTimeout.value);
      if fired {
        TimingOutIsLegal(s.core.items[inFlight[f]], now, cfg.taskTimeout.value);
        assert legal && items[inFlight[f]].exception.Some?;
      }
    }

    /** An execution within its time is left alone. */
    ghost method PassOver(f: Fid)
      requires Valid() && s.pc.Scanning? && f in s.pc.todo && KeyPresent(s.core, f) && cfg.taskTimeout.Some?
      requires !Expired(s.core.items[inFlight[f]], s.pc.now, cfg.taskTimeout.value)
      modifies this`s, this`waits, this`steps
      ensures Valid() && Kept() && s == State(old(s.core), Scanning(old(s.pc.now), old(s.pc.todo) - {f}))
    {
      var delay := SomeDelay(cfg, s.core.items[inFlight[f]].attempts);
      var due := clock + delay;
      ScanPassEffect(cfg, s, f, delay, due);
      Log(ScanOne(f, delay, due));
    }

    /** The scan is at an execution that has overrun; its item is finalized as timed out. */
    ghost predicate Overran(f: Fid, now: real)
      reads this
    {
      && Sound()
      && s.pc.Scanning? && f in s.pc.todo && now == s.pc.now
      && KeyPresent(s.core, f) && cfg.taskTimeout.Some?
      && Expired(s.core.items[inFlight[f]], now, cfg.taskTimeout.value)
    }

    ghost function TimedOutItems(f: Fid, now: real): seq<Item>
      requires Overran(f, now)
      reads this
    {
      s.core.items[inFlight[f] := TimeOutIfExpired(s.core.items[inFlight[f]], now, cfg.taskTimeout.value).item]
    }

    method ParkOverrun(f: Fid, now: real, jitter: real)
      requires Overran(f, now) && cfg.RetriesTimeout(s.core.items[inFlight[f]].attempts)
      requires Carries(items, TimedOutItems(f, now))
      modifies this
      ensures Valid() && Grown() && s.pc == Scanning(now, old(s.pc.todo) - {f})
      ensures Scanned(cfg, old(s.core), s.core, f, now, None)
    {
      EnlistClone(inFlight[f], TimedOutItems(f, now));
      var delay := Delay(items[|items| - 1].attempts, jitter);
      ParkClone(f, now, delay, clock + delay);
    }

    /** The clone is the newest item. */
    method ParkClone(f: Fid, now: real, delay: real, due: real)
      requires Overran(f, now) && cfg.RetriesTimeout(s.core.items[inFlight[f]].attempts)
      requires Carries(items, TimedOutItems(f, now) + [RetryClone(TimedOutItems(f, now)[inFlight[f]])])
      requires cfg.MayDelay(s.core.items[inFlight[f]].attempts, delay) && due == clock + delay
      modifies this
      ensures Valid() && Kept() && s.pc == Scanning(now, old(s.pc.todo) - {f})
      ensures Scanned(cfg, old(s.core), s.core, f, now, None)
    {
      var clone := |items| - 1;
      LogClone(f, delay, due);
      inFlight := inFlight - {f};
      abandoned := abandoned + {f};
      retryWait := retryWait[clone := due];
    }

    ghost method LogClone(f: Fid, delay: real, due: real)
      requires cfg.Valid() && Reachable(cfg, s) && Budgeted(cfg, s, steps) && Heeded(reader, s)
      requires s.pc.Scanning? && f in s.pc.todo && KeyPresent(s.core, f) && cfg.taskTimeout.Some?
      requires Expired(s.core.items[s.core.inFlight[f]], s.pc.now, cfg.taskTimeout.value)
      requires cfg.RetriesTimeout(s.core.items[s.core.inFlight[f]].attempts)
      requires cfg.MayDelay(s.core.items[s.core.inFlight[f]].attempts, delay) && due == s.core.clock + delay
      modifies this`s, this`waits, this`steps
      ensures Reachable(cfg, s) && Budgeted(cfg, s, steps) && Heeded(reader, s)
      ensures waits == old(waits) && steps > old(steps)
      ensures s.pc == Scanning(old(s.pc.now), old(s.pc.todo) - {f})
      ensures var c := old(s.core);
              var it := TimeOutIfExpired(c.items[c.inFlight[f]], old(s.pc.now), cfg.taskTimeout.value).item;
              GaveUp(c, s.core, f, c.items[c.inFlight[f] := it] + [RetryClone(it)],
                     c.retryWait[|c.items| := due], c.yielded)
      ensures Scanned(cfg, old(s.core), s.core, f, old(s.pc.now), None)
    {
      ScanParks(cfg, s, f, delay, due);
      LogStep(ScanOne(f, delay, due));
    }

    method DeliverOverrun(f: Fid, now: real)
      requires Overran(f, now) && !cfg.RetriesTimeout(s.core.items[inFlight[f]].attempts)
      requires Carries(items, TimedOutItems(f, now))
      modifies this
      ensures Valid() && Kept() && s.pc == Yielding(old(inFlight)[f], OfScan(now, old(s.pc.todo) - {f}))
      ensures Scanned(cfg, old(s.core), s.core, f, now, Some(old(inFlight)[f]))
    {
      var w := inFlight[f];
      LogGivenUp(f);
      inFlight := inFlight - {f};
      abandoned := abandoned + {f};
      yielded := yielded + [w];
    }

    // --- the coordinator's teardown ---

    /** future.cancel() succeeds exactly when no worker has taken the future. */
    method CancelStep(f: Fid)
      requires Valid() && Can(cfg, s, CancelOne(f))
      modifies this, items
      ensures Valid() && Kept() && s == Do(cfg, old(s), CancelOne(f))
      ensures s.pc == Cancelling(old(s.pc.why), old(s.pc.todo) - {f})
    {
      CancelEffect(cfg, s, f);
      if futures[f].phase == Queued {
        futures := futures[f := futures[f].(phase := Withdrawn)];
        var legal := items[inFlight[f]].CancelIfIdle();
        assert legal;
      }
      Log(CancelOne(f));
    }

    method DropStep(w: Wid)
      requires Valid() && Can(cfg, s, DropOne(w))
      modifies this, items
      ensures Valid() && Kept() && s == Do(cfg, old(s), DropOne(w))
      ensures s.pc == Dropping(old(s.pc.why), old(s.pc.parked) - {w})
    {
      DropEffect(cfg, s, w);
      var legal := items[w].CancelIfIdle();
      assert legal;
      Log(DropOne(w));
    }

    // --- where the coordinator holds no lock ---

    /** Only what belongs to the others has changed. */
    twostate predicate Undisturbed()
      reads this
    {
      Kept() && s.pc == old(s.pc) && SameOwned(old(s.core), s.core)
    }

    /** One action of the others, if they can do it now. */
    method Perform(a: Action)
      requires Valid() && (a == Request ==> AsksToStop())
      modifies this, items
      ensures Valid() && Undisturbed()
      ensures moment == old(moment)
      ensures steps == old(steps) +
                       if ByOthers(a) && Can(cfg, old(s), a) && Productive(cfg, old(s), a) then 1 else 0
      ensures s == if ByOthers(a) && Can(cfg, old(s), a) then Do(cfg, old(s), a) else old(s)
    {
      if ByOthers(a) && Enabled(a) {
        OthersEffect(cfg, s, a);
        match a
        case Tick(t) => TickStep(t);
        case Request => RequestStep();
        case TakeUp(f) => TakeUpStep(f);
        case Begin(f) => BeginStep(f);
        case Finish(f, spent) => FinishStep(f, spent);
        case Settle(f) => SettleStep(f);
      }
    }

    predicate Enabled(a: Action)
      requires ByOthers(a) && Valid()
      reads this, items
      ensures Enabled(a) <==> Can(cfg, s, a)
    {
      match a
      case Tick(t) => t >= clock
      case Request => true
      case TakeUp(f) => Submitted(f) && futures[f].phase == Queued
      case Begin(f) => Submitted(f) && futures[f].phase == Taken
      case Finish(f, spent) =>
        Submitted(f) && futures[f].phase.Executing? && 0.0 <= spent <= clock - futures[f].phase.since
      case Settle(f) => Submitted(f) && futures[f].phase.Reported?
    }

    predicate Submitted(f: Fid)
      reads this
    {
      f < |futures| && futures[f].work < |items|
    }

    /** Everything that happens elsewhere until the coordinator's next step. */
    method Others() returns (m: Moment)
      requires Valid()
      modifies this, items
      ensures Valid() && Undisturbed()
      ensures m == world(old(moment)) && moment == old(moment) + 1
      ensures s == Swept(cfg, old(s), m.others)
      ensures steps == old(steps) + SweptSteps(cfg, old(s), m.others)
    {
      m := world(moment);
      moment := moment + 1;
      for k := 0 to |m.others|
        invariant Valid() && Undisturbed()
        invariant moment == old(moment) + 1 && s == Swept(cfg, old(s), m.others[..k])
        invariant steps == old(steps) + SweptSteps(cfg, old(s), m.others[..k])
      {
        SweptNext(cfg, old(s), m.others, k);
        Perform(m.others[k]);
      }
      assert m.others[..|m.others|] == m.others;
    }

    // --- the coordinator's loops ---

    /** Every running task is asked to stop; then Cancelled is raised. */
    method AskAll()
      requires Valid() && s.pc.Turning? && requested
      modifies this, items
      ensures Valid() && Kept() && s.pc == Cancelling(CancelRaised, inFlight.Keys)
      ensures AskedAll(old(s.core), s.core, inFlight.Keys)
    {
      ghost var start := s.core;
      Move(0.0);
      AskEach(start);
      Move(0.0);
    }

    method AskEach(ghost start: Core)
      requires Valid() && s.pc == Asking(inFlight.Keys) && AskedAll(start, s.core, {}) && StaysBegun(start, s.core)
      modifies this, items
      ensures Valid() && Kept() && s.pc == Asking({}) && inFlight == old(inFlight)
      ensures AskedAll(start, s.core, inFlight.Keys)
    {
      var todo := inFlight.Keys;
      ghost var asked: set<Fid> := {};
      while todo != {}
        invariant Valid() && Kept() && s.pc == Asking(todo) && inFlight == old(inFlight)
        invariant asked + todo == inFlight.Keys
        invariant AskedAll(start, s.core, asked) && StaysBegun(start, s.core)
        decreases todo
      {
        var f := AskNext(todo, start, asked);
        todo := todo - {f};
        asked := asked + {f};
      }
    }

    method AskNext(todo: set<Fid>, ghost start: Core, ghost asked: set<Fid>) returns (f: Fid)
      requires Valid() && s.pc == Asking(todo) && todo != {}
      requires AskedAll(start, s.core, asked) && StaysBegun(start, s.core)
      modifies this, items
      ensures moment > old(moment)
      ensures Valid() && Kept() && f in todo && s.pc == Asking(todo - {f}) && inFlight == old(inFlight)
      ensures AskedAll(start, s.core, asked + {f}) && StaysBegun(start, s.core)
    {
      ghost var before := s;
      var m := Others();
      AskedSurvives(cfg, start, before, m.others, asked);
      f := AnyOf(todo);
      AskingOne(cfg, start, s, f, asked);
      AskStep(f);
    }

    /** Every item whose backoff has elapsed is submitted again. */
    method ResubmitDue(now: real)
      requires Valid() && s.pc == Resubmitting(now, Due(s.core, now))
      modifies this, items
      ensures Valid() && Kept() && s.pc == Pulling
      ensures ResubmittedAll(old(s.core), s.core, set w | w in old(retryWait) && old(retryWait)[w] <= now)
      ensures (exists w :: w in old(retryWait) && old(retryWait)[w] <= now) ==> steps > old(steps)
    {
      var due := set w | w in retryWait && retryWait[w] <= now;
      ResubmitEach(now, due, s.core);
      Move(0.0);
    }

    method ResubmitEach(now: real, all: set<Wid>, ghost start: Core)
      requires Valid() && s.pc == Resubmitting(now, all) && ResubmittedAll(start, s.core, {})
      modifies this, items
      ensures Valid() && Kept() && s.pc == Resubmitting(now, {}) && ResubmittedAll(start, s.core, all)
      ensures all != {} ==> steps > old(steps)
    {
      var due := all;
      ghost var launched: set<Wid> := {};
      while due != {}
        invariant Valid() && Kept() && s.pc == Resubmitting(now, due)
        invariant launched + due == all && ResubmittedAll(start, s.core, launched)
        invariant launched != {} ==> steps > old(steps)
        decreases due
      {
        var w := ResubmitNext(now, due, start, launched);
        due := due - {w};
        launched := launched + {w};
      }
    }

    method ResubmitNext(now: real, due: set<Wid>, ghost start: Core, ghost launched: set<Wid>) returns (w: Wid)
      requires Valid() && s.pc == Resubmitting(now, due) && due != {} && ResubmittedAll(start, s.core, launched)
      modifies this, items
      ensures moment > old(moment)
      ensures Valid() && Kept() && w in due && s.pc == Resubmitting(now, due - {w}) && steps > old(steps)
      ensures ResubmittedAll(start, s.core, launched + {w})
    {
      ghost var before := s.core;
      var _ := Others();
      ResubmittedSurvives(start, before, s.core, launched);
      w := AnyOf(due);
      ResubmittingOne(cfg, start, s, w, launched);
      ResubmitStep(w);
    }

    /** The window is filled from the input. */
    method PullInput() returns (over: Option<Exit>)
      requires Valid() && s.pc == Pulling
      modifies this, items
      ensures Valid() && Grown()
      ensures over.None? ==>
                s.pc == Pulling && (exhausted || |inFlight| + |retryWait| + |abandoned| >= cfg.maxPending)
      ensures over.Some? ==> over.value.InputRaised? && s.pc == Cancelling(over.value, inFlight.Keys)
      ensures !old(exhausted) && |old(inFlight)| + |old(retryWait)| + |old(abandoned)| < cfg.maxPending ==>
                steps > old(steps)
    {
      over := None;
      while !exhausted && |inFlight| + |retryWait| + |abandoned| < cfg.maxPending
        invariant Valid() && Grown() && s.pc == Pulling && over.None?
        decreases !exhausted, cfg.maxPending - s.core.Load()
      {
        over := PullNext();
        if over.Some? {
          return;
        }
      }
    }

    method PullNext() returns (over: Option<Exit>)
      requires Valid() && s.pc == Pulling && !exhausted && s.core.Load() < cfg.maxPending
      modifies this, items
      ensures Valid() && Grown() && steps > old(steps) && moment > old(moment)
      ensures over.None? ==> s.pc == Pulling && (exhausted || s.core.Load() > old(s.core.Load()))
      ensures over.Some? ==> over.value.InputRaised? && s.pc == Cancelling(over.value, inFlight.Keys)
    {
      var _ := Others();
      over := PullMore();
    }

    method PullMore() returns (over: Option<Exit>)
      requires Valid() && s.pc == Pulling && !exhausted && s.core.Load() < cfg.maxPending
      modifies this, items
      ensures Valid() && Grown() && steps > old(steps)
      ensures over.None? ==> s.pc == Pulling && (exhausted || s.core.Load() > old(s.core.Load()))
      ensures over.Some? ==> over.value.InputRaised? && s.pc == Cancelling(over.value, inFlight.Keys)
    {
      PullingFills(cfg, s);
      over := PullStep();
    }

    /** The earliest moment at which the coordinator must act, as a time to wait. All items are read
        at one moment. */
    method NextWakeup() returns (timeout: Option<real>)
      requires Valid()
      ensures timeout.None? ==> Candidates(cfg, s.core) == {}
      ensures timeout.Some? ==> exists t :: IsMin(t, Candidates(cfg, s.core)) && timeout.value == Max(0.0, t - clock)
    {
      var due := EarliestDue();
      var deadline := EarliestDeadline();
      var candidate := Sooner(Sooner(due, cfg.OverallDeadline()), deadline);
      CandidatesAreThese(cfg, s.core, due, deadline);
      if candidate.None? {
        return None;
      }
      return Some(Max(0.0, candidate.value - clock));
    }

    method EarliestDue() returns (due: Option<real>)
      requires Valid()
      ensures Earliest(due, Dues(s.core))
    {
      if retryWait == map[] {
        return None;
      }
      ghost var w := Pick(retryWait.Keys);
      assert retryWait[w] in Dues(s.core);
      var first := MinOf(set w | w in retryWait :: retryWait[w]);
      return Some(first);
    }

    /** The earliest deadline of a running task; if nothing runs yet, one timeout period from now. */
    method EarliestDeadline() returns (deadline: Option<real>)
      requires Valid()
      ensures Earliest(deadline, TaskDeadlines(cfg, s.core))
    {
      if cfg.taskTimeout.None? || inFlight == map[] {
        return None;
      }
      var deadlines := RunningDeadlines(cfg.taskTimeout.value);
      if deadlines == {} {
        return Some(clock + cfg.taskTimeout.value);
      }
      var first := MinOf(deadlines);
      return Some(first);
    }

    method RunningDeadlines(taskTimeout: real) returns (deadlines: set<real>)
      requires Valid()
      ensures deadlines == Deadlines(s.core, taskTimeout)
    {
      deadlines := {};
      var todo := inFlight.Keys;
      InFlightKeysExist(cfg, s);
      while todo != {}
        invariant todo <= inFlight.Keys && deadlines == DeadlinesOf(s.core, taskTimeout, inFlight.Keys - todo)
      {
        var f := AnyOf(todo);
        var deadline := items[inFlight[f]].Deadline(taskTimeout);
        OneMoreDeadline(s.core, taskTimeout, inFlight.Keys - todo, f);
        assert inFlight.Keys - (todo - {f}) == inFlight.Keys - todo + {f};
        todo := todo - {f};
        if deadline.Some? {
          deadlines := deadlines + {deadline.value};
        }
      }
      AllDeadlines(s.core, taskTimeout);
    }

    /** Blocks until something completes, or the time is over; the done futures that it reports. */
    method Wait() returns (done: set<Fid>, over: Option<Exit>)
      requires Valid() && s.pc == Pulling && (exhausted || |inFlight| + |retryWait| + |abandoned| >= cfg.maxPending)
      requires !(inFlight == map[] && retryWait == map[] && exhausted)
      modifies this, items
      ensures Valid() && items == old(items) && Onward()
      ensures over.None? ==> s.pc == Collecting(done) && waits == old(waits) + 1
      ensures over.None? ==>
                done == set f | f in world(old(moment)).done && (f in inFlight || f in abandoned)
                                && f < |futures| && futures[f].phase.Done?
      ensures over.None? ==> forall f :: Served(old(moment), f) && (f in old(inFlight) || f in old(abandoned)) ==>
                f in done || steps > old(steps)
      ensures over.Some? ==> over == Some(Interrupted) && s.pc == Cancelling(over.value, inFlight.Keys)
      ensures over.Some? <==> world(old(moment)).interrupted
    {
      BeginWait();
      done, over := EndWait();
    }

    /** At this moment f is served. */
    ghost predicate Served(m: nat, f: Fid) {
      Serves(world(m).others, world(m).done, f)
    }

    /** Everything that happens during the wait, and how it ends. */
    method EndWait() returns (done: set<Fid>, over: Option<Exit>)
      requires Valid() && s.pc.Waiting?
      modifies this, items
      ensures Valid() && items == old(items) && Onward()
      ensures over.None? ==> s.pc == Collecting(done) && waits == old(waits) + 1
      ensures over.None? ==>
                done == set f | f in world(old(moment)).done && (f in inFlight || f in abandoned)
                                && f < |futures| && futures[f].phase.Done?
      ensures over.None? ==> forall f :: Served(old(moment), f) && (f in old(inFlight) || f in old(abandoned)) ==>
                f in done || steps > old(steps)
      ensures over.Some? ==> over == Some(Interrupted) && s.pc == Cancelling(over.value, inFlight.Keys)
      ensures over.Some? <==> world(old(moment)).interrupted
    {
      WaitsMoveOn(cfg, s, world(moment).others, world(moment).done);
      var m := Others();
      done, over := WakeUp(m);
    }

    /** What wait() hands back, unless it is interrupted. */
    method WakeUp(m: Moment) returns (done: set<Fid>, over: Option<Exit>)
      requires Valid() && s.pc.Waiting?
      modifies this
      ensures Valid() && items == old(items) && futures == old(futures) && moment == old(moment)
      ensures clock == old(clock) && steps == old(steps) && SameHold(old(s.core), s.core)
      ensures over.None? ==> s.pc == Collecting(done) && waits == old(waits) + 1
      ensures over.None? ==>
                done == set f | f in m.done && (f in inFlight || f in abandoned)
                                && f < |futures| && futures[f].phase.Done?
      ensures over.Some? ==> over == Some(Interrupted) && s.pc == Cancelling(over.value, inFlight.Keys)
      ensures over.Some? <==> m.interrupted
    {
      if m.interrupted {
        Append(Interrupt);
        return {}, Some(Interrupted);
      }
      done := {};
      if inFlight.Keys + abandoned != {} {
        done := set f | f in m.done && f in inFlight.Keys + abandoned && f < |futures| && futures[f].phase.Done?;
      }
      Append(Wake(done));
      return done, None;
    }

    /** The time to wait is settled. */
    method BeginWait()
      requires Valid() && s.pc == Pulling && (exhausted || |inFlight| + |retryWait| + |abandoned| >= cfg.maxPending)
      requires !(inFlight == map[] && retryWait == map[] && exhausted)
      modifies this
      ensures Valid() && Kept() && moment == old(moment)
      ensures s.pc.Waiting? && s.core == old(s.core)
      ensures s.pc.from == clock && WakesAt(cfg, s.core, s.pc.wake)
      ensures clock <= s.pc.wake <= clock + 0.5
      ensures s.pc.wake == clock + 0.5 || exists t :: MustWakeAt(cfg, s.core, t) && s.pc.wake == Max(clock, t)
    {
      var timeout := NextWakeup();
      var slice := if timeout.None? then MAX_WAIT_SLICE else Min(timeout.value, MAX_WAIT_SLICE);
      WaitsAreNoShorter(cfg, s, clock + slice);
      Move(clock + slice);
    }

    /** The items the generator has yielded. */
    method Yielded() returns (ws: seq<Item>)
      requires Valid()
      ensures ws == Completions(s.core)
    {
      YieldedItemsExist(cfg, s);
      ws := [];
      for k := 0 to |yielded|
        invariant ws == Completions(s.core)[..k]
      {
        var work := items[yielded[k]];
        ws := ws + [work.View()];
      }
    }

    /** The consumer resumes the generator or closes it. */
    method Yield() returns (over: Option<Exit>)
      requires Valid() && s.pc.Yielding?
      modifies this, items
      ensures Valid() && Kept()
      ensures over.None? ==> s.pc == Resumed(old(s.pc.back))
      ensures over.Some? ==> over == Some(ClosedByConsumer) && s.pc == Cancelling(over.value, inFlight.Keys)
      ensures over.None? ==> s.core == Swept(cfg, old(s), world(old(moment)).others).core
      ensures SameOwned(old(s.core), s.core)
      ensures over.Some? <==> reader(Completions(s.core))
    {
      var _ := Others();
      var received := Yielded();
      if reader(received) {
        Log(CloseHere);
        return Some(ClosedByConsumer);
      }
      Log(Resume);
      return None;
    }

    /** What completed is retired, one future after the other. */
    method CollectAll(done: set<Fid>) returns (over: Option<Exit>)
      requires Valid() && s.pc == Collecting(done)
      modifies this, items
      ensures Valid() && Kept()
      ensures over.None? ==> s.pc == Collecting({}) && CollectedAll(old(s.core), s.core, done)
      ensures over.Some? ==> over == Some(ClosedByConsumer) && s.pc == Cancelling(over.value, inFlight.Keys)
      ensures done != {} ==> steps > old(steps)
    {
      ghost var start := s.core;
      over := None;
      var todo := done;
      ghost var retired: set<Fid> := {};
      while todo != {}
        invariant Valid() && Kept() && over.None? && s.pc == Collecting(todo)
        invariant retired + todo == done && CollectedAll(start, s.core, retired)
        invariant retired != {} ==> steps > old(steps)
        decreases todo
      {
        var f;
        f, over := CollectNext(todo, start, retired);
        if over.Some? {
          return;
        }
        todo := todo - {f};
        retired := retired + {f};
      }
    }

    method CollectNext(todo: set<Fid>, ghost start: Core, ghost retired: set<Fid>)
      returns (f: Fid, over: Option<Exit>)
      requires Valid() && s.pc == Collecting(todo) && todo != {} && CollectedAll(start, s.core, retired)
      modifies this, items
      ensures moment > old(moment)
      ensures Valid() && Kept() && f in todo && steps > old(steps)
      ensures over.None? ==> s.pc == Collecting(todo - {f}) && CollectedAll(start, s.core, retired + {f})
      ensures over.Some? ==> over == Some(ClosedByConsumer) && s.pc == Cancelling(over.value, inFlight.Keys)
    {
      over := None;
      ghost var before := s.core;
      var m := Others();
      CollectedSurvives(start, before, s.core, retired);
      f := AnyOf(todo);
      ghost var collecting := s;
      var work := CollectStep(f, m.jitter);
      CollectingOne(cfg, start, collecting, s.core, f, retired, work);
      if work.Some? {
        ghost var suspended := s.core;
        over := Yield();
        CollectedSurvives(start, suspended, s.core, retired + {f});
      }
    }

    /** What runs too long is given up, one execution after the other. */
    method ScanAll() returns (over: Option<Exit>)
      requires Valid() && cfg.taskTimeout.Some? && s.pc == Scanning(clock, inFlight.Keys)
      modifies this, items
      ensures Valid() && Grown()
      ensures over.None? ==>
                && s.pc == Scanning(old(clock), {})
                && ScannedAll(cfg, old(s.core), s.core, old(clock), old(inFlight).Keys)
      ensures over.Some? ==> over == Some(ClosedByConsumer) && s.pc == Cancelling(over.value, inFlight.Keys)
    {
      ghost var start := s.core;
      over := None;
      var now, todo := clock, inFlight.Keys;
      ghost var all, scanned: set<Fid> := inFlight.Keys, {};
      while todo != {}
        invariant Valid() && Grown() && over.None? && s.pc == Scanning(now, todo)
        invariant scanned + todo == all && now <= clock && ScannedAll(cfg, start, s.core, now, scanned)
        decreases todo
      {
        var f;
        f, over := ScanNext(now, todo, start, scanned);
        if over.Some? {
          return;
        }
        todo := todo - {f};
        scanned := scanned + {f};
      }
    }

    method ScanNext(now: real, todo: set<Fid>, ghost start: Core, ghost scanned: set<Fid>)
      returns (f: Fid, over: Option<Exit>)
      requires Valid() && cfg.taskTimeout.Some? && s.pc == Scanning(now, todo) && todo != {}
      requires now <= clock && ScannedAll(cfg, start, s.core, now, scanned)
      modifies this, items
      ensures moment > old(moment)
      ensures Valid() && Grown() && f in todo
      ensures over.None? ==>
                s.pc == Scanning(now, todo - {f}) && now <= clock && ScannedAll(cfg, start, s.core, now, scanned + {f})
      ensures over.Some? ==> over == Some(ClosedByConsumer) && s.pc == Cancelling(over.value, inFlight.Keys)
    {
      over := None;
      ghost var before := s;
      var m := Others();
      ScannedSurvives(cfg, start, before, m.others, now, scanned);
      f := AnyOf(todo);
      ghost var scanning := s;
      var work := ScanStep(f, now, m.jitter);
      ScanningOne(cfg, start, scanning, s.core, f, scanned, work);
      if work.Some? {
        over := YieldInScan(now, start, scanned + {f});
      }
    }

    method YieldInScan(now: real, ghost start: Core, ghost scanned: set<Fid>) returns (over: Option<Exit>)
      requires Valid() && cfg.taskTimeout.Some? && s.pc.Yielding?
      requires now <= clock && ScannedAll(cfg, start, s.core, now, scanned)
      modifies this, items
      ensures Valid() && Kept()
      ensures over.None? ==>
                s.pc == Resumed(old(s.pc.back)) && now <= clock && ScannedAll(cfg, start, s.core, now, scanned)
      ensures over.Some? ==> over == Some(ClosedByConsumer) && s.pc == Cancelling(over.value, inFlight.Keys)
    {
      ghost var suspended, others := s, world(moment).others;
      over := Yield();
      if over.None? {
        ScannedSurvives(cfg, start, suspended, others, now, scanned);
      }
    }

    /** From this moment on, everything this run watches is served at every moment. */
    ghost predicate Pressed(from: nat)
      reads this
    {
      forall m, f :: from <= m && (f in inFlight || f in abandoned) ==> Served(m, f)
    }

    /** At some moment the coordinator is interrupted. */
    ghost predicate Interrupts() {
      exists m :: world(m).interrupted
    }

    /** One turn of the coordinator's loop. */
    method Turn() returns (over: Option<Exit>)
      requires Valid() && s.pc == Head
      modifies this, items
      ensures Valid() && Grew() && moment > old(moment)
      ensures over.None? ==> s.pc == Head && waits == old(waits) + 1
      ensures over.Some? ==> s.pc == Cancelling(over.value, inFlight.Keys)
      ensures old(requested) ==> over == Some(CancelRaised)
      ensures over == Some(Interrupted) ==> Interrupts()
      ensures cfg.overallTimeout.Some? && cfg.overallTimeout.value > 0.0 && old(clock) >= cfg.overallTimeout.value ==>
                over == Some(CancelRaised) || over == Some(OverallTimeoutRaised)
      ensures over.None? && cfg.taskTimeout.Some? ==>
                forall f :: f in inFlight ==> InTime(s.core, f, old(clock), cfg.taskTimeout.value)
      ensures over.None? && old(Pressed(moment)) && (Watches(old(s.core)) || old(retryWait) == map[]) ==>
                steps > old(steps)
      ensures over.None? && (exists w :: w in old(retryWait) && Ticks(world(old(moment)).others, old(retryWait)[w])) ==>
                steps > old(steps)
    {
      var now := BeginTurn();
      over := TurnAt(now);
    }

    /** The clock is read. */
    method BeginTurn() returns (now: real)
      requires Valid() && s.pc == Head
      modifies this, items
      ensures Valid() && Kept() && moment > old(moment) && SameHold(old(s.core), s.core)
      ensures s.pc == Turning(now) && now == clock && (old(requested) ==> requested)
      ensures forall t :: Ticks(world(old(moment)).others, t) ==> t <= now
    {
      SweepsKeepTime(cfg, s, world(moment).others);
      var _ := Others();
      now := clock;
      Move(0.0);
    }

    /** The rest of a turn that began at `now`. */
    method TurnAt(now: real) returns (over: Option<Exit>)
      requires Valid() && s.pc == Turning(now) && now <= clock
      modifies this, items
      ensures Valid() && Grew()
      ensures over.None? ==> s.pc == Head && waits == old(waits) + 1
      ensures over.Some? ==> s.pc == Cancelling(over.value, inFlight.Keys)
      ensures old(requested) ==> over == Some(CancelRaised)
      ensures over == Some(Interrupted) ==> Interrupts()
      ensures cfg.overallTimeout.Some? && cfg.overallTimeout.value > 0.0 && now >= cfg.overallTimeout.value ==>
                over == Some(CancelRaised) || over == Some(OverallTimeoutRaised)
      ensures over.None? && cfg.taskTimeout.Some? ==>
                forall f :: f in inFlight ==> InTime(s.core, f, old(clock), cfg.taskTimeout.value)
      ensures over.None? && old(Pressed(moment)) && (Watches(old(s.core)) || old(retryWait) == map[]) ==>
                steps > old(steps)
      ensures over.None? && (exists w :: w in old(retryWait) && old(retryWait)[w] <= now) ==> steps > old(steps)
    {
      over := Notice(now);
      if over.None? {
        ResubmitDue(now);
        over := FillAndWait();
      }
    }

    /** The token and the overall deadline are looked at. */
    method Notice(now: real) returns (over: Option<Exit>)
      requires Valid() && s.pc == Turning(now)
      modifies this, items
      ensures Valid() && Kept()
      ensures over.None? ==> s.pc == Resubmitting(now, Due(s.core, now)) && SameHold(old(s.core), s.core)
      ensures over.Some? ==> s.pc == Cancelling(over.value, inFlight.Keys)
      ensures over.Some? ==> over == Some(CancelRaised) || over == Some(OverallTimeoutRaised)
      ensures old(requested) ==> over == Some(CancelRaised)
      ensures cfg.overallTimeout.Some? && cfg.overallTimeout.value > 0.0 && now >= cfg.overallTimeout.value ==>
                over.Some?
    {
      var _ := Others();
      if requested {
        AskAll();
        return Some(CancelRaised);
      }
      Move(0.0);
      if cfg.OverallDeadline().Some? && now >= cfg.OverallDeadline().value {
        return Some(OverallTimeoutRaised);
      }
      over := None;
    }

    /** The rest of a turn, from the input on. */
    method FillAndWait() returns (over: Option<Exit>)
      requires Valid() && s.pc == Pulling
      modifies this, items
      ensures Valid() && Grew()
      ensures over.None? ==> s.pc == Head && waits == old(waits) + 1
      ensures over.Some? ==> s.pc == Cancelling(over.value, inFlight.Keys) && over != Some(CancelRaised)
      ensures over == Some(Interrupted) ==> Interrupts()
      ensures over.None? && cfg.taskTimeout.Some? ==>
                forall f :: f in inFlight ==> InTime(s.core, f, old(clock), cfg.taskTimeout.value)
      ensures over.None? && old(Pressed(moment)) && (Watches(old(s.core)) || old(retryWait) == map[]) ==>
                steps > old(steps)
    {
      over := Fill();
      if over.None? {
        over := WaitAndConsume();
      }
    }

    /** The window is filled; a run with nothing left to deliver returns. */
    method Fill() returns (over: Option<Exit>)
      requires Valid() && s.pc == Pulling
      modifies this, items
      ensures Valid() && Grown()
      ensures over.None? ==>
                && s.pc == Pulling && !(inFlight == map[] && retryWait == map[] && exhausted)
                && (exhausted || |inFlight| + |retryWait| + |abandoned| >= cfg.maxPending)
      ensures over.Some? ==> s.pc == Cancelling(over.value, inFlight.Keys)
      ensures over.Some? ==> over.value.InputRaised? || over == Some(Exit.Returned)
      ensures over.None? && !Watches(old(s.core)) && old(retryWait) == map[] ==> steps > old(steps)
    {
      over := PullInput();
      if over.None? && inFlight == map[] && retryWait == map[] && exhausted {
        LogReturn();
        over := Some(Exit.Returned);
      }
    }

    /** One wait, and what follows from it. */
    method WaitAndConsume() returns (over: Option<Exit>)
      requires Valid() && s.pc == Pulling && (exhausted || |inFlight| + |retryWait| + |abandoned| >= cfg.maxPending)
      requires !(inFlight == map[] && retryWait == map[] && exhausted)
      modifies this, items
      ensures Valid() && Grew()
      ensures over.None? ==> s.pc == Head && waits == old(waits) + 1
      ensures over.Some? ==> s.pc == Cancelling(over.value, inFlight.Keys)
      ensures over.Some? ==> over == Some(Interrupted) || over == Some(ClosedByConsumer)
      ensures over == Some(Interrupted) ==> Interrupts()
      ensures over.None? && cfg.taskTimeout.Some? ==>
                forall f :: f in inFlight ==> InTime(s.core, f, old(clock), cfg.taskTimeout.value)
      ensures over.None? && old(Pressed(moment)) && Watches(old(s.core)) ==> steps > old(steps)
    {
      var done;
      done, over := Wait();
      if over.Some? {
        return;
      }
      if Watches(old(s.core)) && old(Pressed(moment)) {
        ghost var f := WatchedExists(old(s.core));
        assert Served(old(moment), f);
      }
      over := Consume(done);
    }

    /** What completed is retired, and then what overran is given up. */
    method Consume(done: set<Fid>) returns (over: Option<Exit>)
      requires Valid() && s.pc == Collecting(done)
      modifies this, items
      ensures Valid() && Grown()
      ensures over.None? ==> s.pc == Head
      ensures over.Some? ==> over == Some(ClosedByConsumer) && s.pc == Cancelling(over.value, inFlight.Keys)
      ensures over.None? && cfg.taskTimeout.Some? ==>
                forall f :: f in inFlight ==> InTime(s.core, f, old(clock), cfg.taskTimeout.value)
      ensures done != {} ==> steps > old(steps)
    {
      over := CollectAll(done);
      if over.None? {
        over := ScanIfTimed(old(clock));
      }
    }

    /** The collection is over; what overran is looked for only if there is a task timeout. */
    method ScanIfTimed(ghost earlier: real) returns (over: Option<Exit>)
      requires Valid() && s.pc == Collecting({}) && earlier <= clock
      modifies this, items
      ensures Valid() && Grown()
      ensures over.None? ==> s.pc == Head
      ensures over.Some? ==> over == Some(ClosedByConsumer) && s.pc == Cancelling(over.value, inFlight.Keys)
      ensures over.None? && cfg.taskTimeout.Some? ==>
                forall f :: f in inFlight ==> InTime(s.core, f, earlier, cfg.taskTimeout.value)
    {
      over := None;
      Move(0.0);
      if cfg.taskTimeout.Some? {
        over := Scan(earlier);
      }
    }

    /** The timeout scan, back to the loop head. */
    method Scan(ghost earlier: real) returns (over: Option<Exit>)
      requires Valid() && cfg.taskTimeout.Some? && s.pc == Scanning(clock, inFlight.Keys) && earlier <= clock
      modifies this, items
      ensures Valid() && Grown()
      ensures over.None? ==>
                && s.pc == Head && ScannedAll(cfg, old(s.core), s.core, old(clock), old(inFlight).Keys)
                && forall f :: f in inFlight ==> InTime(s.core, f, earlier, cfg.taskTimeout.value)
      ensures over.Some? ==> over == Some(ClosedByConsumer) && s.pc == Cancelling(over.value, inFlight.Keys)
    {
      over := ScanAll();
      if over.None? {
        AllInTimeEarlier(cfg, old(s.core), s.core, old(clock), earlier);
        Move(0.0);
      }
    }

    ghost method LogReturn()
      requires Valid() && s.pc == Pulling && inFlight == map[] && retryWait == map[] && exhausted
      modifies this`s, this`waits, this`steps
      ensures Valid() && s.pc == Cancelling(Exit.Returned, inFlight.Keys) && Onward() && waits == old(waits)
    {
      var wake := WakeTimeExists(cfg, s.core);
      Move(wake);
    }

    /** The finally clause. */
    method Finalize(why: Exit) returns (leak: set<Fid>)
      requires Valid() && s.pc == Cancelling(why, inFlight.Keys)
      modifies this, items
      ensures Valid() && Kept() && s.pc == Closed(why, leak)
    {
      CancelPending(why);
      DropParked(why);
      leak := (set f | f in inFlight && !(f < |futures| && futures[f].phase == Withdrawn)) + abandoned;
      Move(0.0);
    }

    method CancelPending(why: Exit)
      requires Valid() && s.pc == Cancelling(why, inFlight.Keys)
      modifies this, items
      ensures Valid() && Kept() && s.pc == Dropping(why, retryWait.Keys)
    {
      var todo := inFlight.Keys;
      while todo != {}
        invariant Valid() && Kept() && s.pc == Cancelling(why, todo)
      {
        var _ := Others();
        var f := AnyOf(todo);
        CancelStep(f);
        todo := todo - {f};
      }
      Move(0.0);
    }

    method DropParked(why: Exit)
      requires Valid() && s.pc == Dropping(why, retryWait.Keys)
      modifies this, items
      ensures Valid() && Kept() && s.pc == Dropping(why, {})
    {
      var parked := retryWait.Keys;
      while parked != {}
        invariant Valid() && Kept() && s.pc == Dropping(why, parked)
      {
        var _ := Others();
        var w := AnyOf(parked);
        DropStep(w);
        parked := parked - {w};
      }
    }

    /** At most `turns` turns of the loop, and the teardown if it ends within them. */
    method Drive(turns: nat) returns (end: Option<Exit>, leak: set<Fid>)
      requires Valid() && s.pc == Head
      modifies this, items
      ensures Valid() && Grew()
      ensures end.None? ==> s.pc == Head && waits == old(waits) + turns
      ensures end.Some? ==> s.pc == Closed(end.value, leak)
    {
      end, leak := None, {};
      for turn := 0 to turns
        invariant Valid() && Grew() && end.None? && s.pc == Head && waits == old(waits) + turn
      {
        end := Turn();
        if end.Some? {
          leak := Finalize(end.value);
          return;
        }
      }
    }
  }

  function Resumed(back: Loop): PC {
    match back
    case OfCollect(done) => Collecting(done)
    case OfScan(now, todo) => Scanning(now, todo)
  }

  lemma TimingOutIsLegal(it: Item, now: real, taskTimeout: real)
    requires Expired(it, now, taskTimeout)
    ensures var m := TimeOutIfExpired(it, now, taskTimeout);
            m.legal && m.item.exception == Some(TIMEOUT_ERROR) && m.item.attempts == it.attempts
  {
  }
}

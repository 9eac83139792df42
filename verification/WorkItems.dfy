/** One unit of work: its record, the moves made on it under its lock, and the object that
    carries it. */
module WorkItems {
  import opened TaskStates
  import opened Retry

  /** A Python object the scheduler only passes along. */
  type Value = int

  /** What one call of the task function does. */
  datatype Outcome = Returned(result: Value) | Raised(error: Exc)

  datatype Item = Item(
    index: nat,
    arg: Value,
    state: TaskState,
    value: Option<Value>,
    exception: Option<Exc>,
    attempts: nat,
    elapsed: real,
    startedAt: Option<real>)

  function NewItem(index: nat, arg: Value): Item {
    Item(index, arg, Pending, None, None, 1, 0.0, None)
  }

  /** The record a move leaves behind, and whether its transition was in the table. An illegal
      transition raises after the other fields were already written, as in the source. */
  datatype Moved = Moved(item: Item, legal: bool)

  function TransitionTo(it: Item, s: TaskState): Moved {
    if Legal(it.state, s) then Moved(it.(state := s), true) else Moved(it, false)
  }

  // --- worker side ---

  function StartExecution(it: Item, now: real): Moved {
    if Legal(it.state, Running) then Moved(it.(state := Running, startedAt := Some(now)), true)
    else Moved(it, false)
  }

  function FinishSuccess(it: Item, v: Value, spent: real): Moved {
    if it.state == TimedOut then Moved(it, true)
    else TransitionTo(it.(elapsed := it.elapsed + spent, value := Some(v), exception := None), Success)
  }

  predicate RetriesFailure(it: Item, e: Exc, retry: Option<RetryPolicy>) {
    it.state == Running && !e.IsCancelled() && retry.Some? && retry.value.ShouldRetry(e, it.attempts)
  }

  function FinishFailure(it: Item, e: Exc, spent: real, retry: Option<RetryPolicy>): Moved {
    if it.state == TimedOut then Moved(it, true)
    else
      TransitionTo(
        it.(elapsed := it.elapsed + spent, exception := Some(e)),
        if RetriesFailure(it, e, retry) then RetryWait else Failed)
  }

  function FinishEscape(it: Item, e: Exc, spent: real): Moved {
    if it.state == TimedOut then Moved(it, true)
    else TransitionTo(it.(elapsed := it.elapsed + spent, exception := Some(e)), Failed)
  }

  /** The worker's report of one call, by what the call did. */
  function FinishWith(it: Item, o: Outcome, spent: real, retry: Option<RetryPolicy>): Moved {
    match o
    case Returned(v) => FinishSuccess(it, v, spent)
    case Raised(e) =>
      if e.IsException() then FinishFailure(it, e, spent, retry) else FinishEscape(it, e, spent)
  }

  /** The exception a worker lets through to its future. */
  function EscapeOf(o: Outcome): Option<Exc> {
    if o.Raised? && !o.error.IsException() then Some(o.error) else None
  }

  // --- coordinator side ---

  function RunningDeadline(it: Item, taskTimeout: real): Option<real> {
    if it.state == Running && it.startedAt.Some? then Some(it.startedAt.value + taskTimeout) else None
  }

  predicate Expired(it: Item, now: real, taskTimeout: real) {
    it.state == Running && it.startedAt.Some? && now - it.startedAt.value >= taskTimeout
  }

  function TimeOutIfExpired(it: Item, now: real, taskTimeout: real): Moved {
    if !Expired(it, now, taskTimeout) then Moved(it, true)
    else
      TransitionTo(
        it.(elapsed := it.elapsed + (now - it.startedAt.value), exception := Some(TIMEOUT_ERROR)),
        TimedOut)
  }

  function Cancel(it: Item): Moved {
    if it.state == Pending || it.state == RetryWait then TransitionTo(it, Cancelled) else Moved(it, true)
  }

  function RequestCancellation(it: Item): Moved {
    if it.state == Running then TransitionTo(it, CancellationRequested) else Moved(it, true)
  }

  /** A fresh record for re-running after a timeout, constructed parked. */
  function RetryClone(it: Item): Item {
    NewItem(it.index, it.arg).(attempts := it.attempts, elapsed := it.elapsed, state := RetryWait)
  }

  /** What the coordinator does to a parked item before it submits it again. */
  function Rearm(it: Item): Moved {
    TransitionTo(it.(attempts := it.attempts + 1), Pending)
  }

  /** Defensive recording of an exception that reached the future. */
  function RecordEscaped(it: Item, escaped: Option<Exc>): Moved {
    if escaped.None? || it.state.Terminal() then Moved(it, true)
    else TransitionTo(it.(exception := escaped), Failed)
  }

  // --- the race between coordinator and worker ---

  /** Whoever finalizes a running item first decides it: a late report after a timeout changes
      nothing, and a timeout scan after a report changes nothing. */
  lemma FirstFinalizerWins(it: Item, o: Outcome, spent: real, retry: Option<RetryPolicy>, now: real, taskTimeout: real)
    requires it.state == Running && it.startedAt.Some?
    ensures Expired(it, now, taskTimeout) ==>
              var timedOut := TimeOutIfExpired(it, now, taskTimeout);
              && timedOut.legal && timedOut.item.state == TimedOut
              && timedOut.item.exception == Some(TIMEOUT_ERROR)
              && FinishWith(timedOut.item, o, spent, retry) == Moved(timedOut.item, true)
    ensures var reported := FinishWith(it, o, spent, retry);
            && reported.legal && reported.item.state in {Success, Failed, RetryWait}
            && TimeOutIfExpired(reported.item, now, taskTimeout) == Moved(reported.item, true)
            && RecordEscaped(reported.item, EscapeOf(o)) == Moved(reported.item, true)
  {
    var reported := FinishWith(it, o, spent, retry);
    match o
    case Returned(v) =>
      assert reported.item.state == Success;
    case Raised(e) =>
      if e.IsException() && RetriesFailure(it, e, retry) {
        assert reported.item.state == RetryWait;
      } else {
        assert reported.item.state == Failed;
      }
  }

  /** The object shared by the coordinator and one worker. Every method is one critical section
      of the item's lock. `legal` is false when check_transition would raise. */
  class WorkItem {
    const index: nat
    const arg: Value
    /** Its place among all work items of a run, in order of creation. */
    ghost const serial: nat
    var state: TaskState
    var value: Option<Value>
    var exception: Option<Exc>
    var attempts: nat
    var elapsed: real
    var startedAt: Option<real>

    function View(): Item
      reads this
    {
      Item(index, arg, state, value, exception, attempts, elapsed, startedAt)
    }

    constructor (index: nat, arg: Value, ghost serial: nat)
      ensures View() == NewItem(index, arg) && this.serial == serial
    {
      this.index, this.arg, this.serial := index, arg, serial;
      state, value, exception, attempts, elapsed, startedAt := Pending, None, None, 1, 0.0, None;
    }

    method Advance(s: TaskState) returns (legal: bool)
      modifies this
      ensures Moved(View(), legal) == TransitionTo(old(View()), s)
    {
      legal := Legal(state, s);
      if legal {
        state := s;
      }
    }

    method Start(now: real) returns (legal: bool)
      modifies this
      ensures Moved(View(), legal) == StartExecution(old(View()), now)
      ensures legal <==> old(state) == Pending
      ensures legal ==> state == Running && startedAt == Some(now)
    {
      legal := Advance(Running);
      if legal {
        startedAt := Some(now);
      }
    }

    method FinishWithValue(v: Value, spent: real) returns (legal: bool)
      modifies this
      ensures Moved(View(), legal) == FinishSuccess(old(View()), v, spent)
      ensures old(state) == TimedOut ==> View() == old(View())
      ensures old(state) == Running ==>
                && legal && state == Success && value == Some(v) && exception == None
                && elapsed == old(elapsed) + spent
    {
      if state == TimedOut {
        return true;
      }
      elapsed := elapsed + spent;
      value := Some(v);
      exception := None;
      legal := Advance(Success);
    }

    method FinishWithFailure(e: Exc, spent: real, retry: Option<RetryPolicy>) returns (legal: bool)
      modifies this
      ensures Moved(View(), legal) == FinishFailure(old(View()), e, spent, retry)
      ensures old(state) == TimedOut ==> View() == old(View())
      ensures old(state) == Running ==>
                && legal && (state == RetryWait || state == Failed)
                && exception == Some(e) && elapsed == old(elapsed) + spent
                && (state == RetryWait <==>
                      && CancelledClass !in e.classes && retry.Some? && attempts < retry.value.maxAttempts
                      && e.classes * retry.value.retryOn != {})
    {
      if state == TimedOut {
        return true;
      }
      elapsed := elapsed + spent;
      exception := Some(e);
      if state == Running && !e.IsCancelled() && retry.Some? && retry.value.ShouldRetry(e, attempts) {
        legal := Advance(RetryWait);
      } else {
        legal := Advance(Failed);
      }
    }

    method FinishWithEscape(e: Exc, spent: real) returns (legal: bool)
      modifies this
      ensures Moved(View(), legal) == FinishEscape(old(View()), e, spent)
      ensures old(state) == TimedOut ==> View() == old(View())
      ensures old(state) == Running ==>
                legal && state == Failed && exception == Some(e) && elapsed == old(elapsed) + spent
    {
      if state == TimedOut {
        return true;
      }
      elapsed := elapsed + spent;
      exception := Some(e);
      legal := Advance(Failed);
    }

    /** The part of a worker's job after the call: dispatch on what the call did. */
    method Report(o: Outcome, spent: real, retry: Option<RetryPolicy>) returns (legal: bool)
      modifies this
      ensures Moved(View(), legal) == FinishWith(old(View()), o, spent, retry)
    {
      match o
      case Returned(v) =>
        legal := FinishWithValue(v, spent);
      case Raised(e) =>
        if e.IsException() {
          legal := FinishWithFailure(e, spent, retry);
        } else {
          legal := FinishWithEscape(e, spent);
        }
    }

    /** When the coordinator must act on this item, if it is running. */
    method Deadline(taskTimeout: real) returns (d: Option<real>)
      ensures d == RunningDeadline(View(), taskTimeout)
      ensures state == Running && startedAt.Some? ==> d == Some(startedAt.value + taskTimeout)
      ensures d.Some? ==> state == Running && startedAt.Some?
    {
      if state == Running && startedAt.Some? {
        return Some(startedAt.value + taskTimeout);
      }
      return None;
    }

    method TimeOut(now: real, taskTimeout: real) returns (fired: bool, legal: bool)
      modifies this
      ensures Moved(View(), legal) == TimeOutIfExpired(old(View()), now, taskTimeout)
      ensures fired <==> old(state) == Running && old(startedAt).Some? && now - old(startedAt).value >= taskTimeout
      ensures fired ==>
                && legal && state == TimedOut && exception == Some(TIMEOUT_ERROR)
                && elapsed == old(elapsed) + (now - old(startedAt).value)
      ensures !fired ==> View() == old(View())
    {
      if state != Running || startedAt.None? {
        return false, true;
      }
      if now - startedAt.value < taskTimeout {
        return false, true;
      }
      elapsed := elapsed + (now - startedAt.value);
      exception := Some(TIMEOUT_ERROR);
      legal := Advance(TimedOut);
      fired := true;
    }

    method CancelIfIdle() returns (legal: bool)
      modifies this
      ensures Moved(View(), legal) == Cancel(old(View()))
      ensures legal
      ensures View() == if old(state) == Pending || old(state) == RetryWait then old(View()).(state := Cancelled)
                        else old(View())
    {
      legal := true;
      if state == Pending || state == RetryWait {
        legal := Advance(Cancelled);
      }
    }

    method AskToStop() returns (legal: bool)
      modifies this
      ensures Moved(View(), legal) == RequestCancellation(old(View()))
      ensures legal
      ensures View() == if old(state) == Running then old(View()).(state := CancellationRequested) else old(View())
    {
      legal := true;
      if state == Running {
        legal := Advance(CancellationRequested);
      }
    }

    method RearmForRetry() returns (legal: bool)
      modifies this
      ensures Moved(View(), legal) == Rearm(old(View()))
      ensures old(state) == RetryWait ==>
                legal && View() == old(View()).(state := Pending, attempts := old(attempts) + 1)
    {
      attempts := attempts + 1;
      legal := Advance(Pending);
    }

    method RecordEscape(escaped: Option<Exc>) returns (legal: bool)
      modifies this
      ensures Moved(View(), legal) == RecordEscaped(old(View()), escaped)
      ensures escaped.None? || old(state).Terminal() ==> legal && View() == old(View())
    {
      legal := true;
      if escaped.Some? && !state.Terminal() {
        exception := escaped;
        legal := Advance(Failed);
      }
    }

    method Clone(ghost serial: nat) returns (clone: WorkItem)
      ensures fresh(clone) && clone.serial == serial
      ensures clone.View() == RetryClone(View())
      ensures clone.state == RetryWait && clone.index == index && clone.arg == arg
      ensures clone.attempts == attempts && clone.elapsed == elapsed && clone.startedAt.None?
      ensures View() == old(View())
    {
      clone := new WorkItem(index, arg, serial);
      clone.attempts := attempts;
      clone.elapsed := elapsed;
      clone.state := RetryWait;
    }
  }
}

/** The pool's readers of a completion stream: they turn an order of completion back into the order
    of the input. */
module Consumers {
  import opened TaskStates
  import opened Retry
  import opened WorkItems

  /** How a completion stream ends once its items are used up. */
  datatype End = Exhausted | Raising(error: PoolError)

  /** What the caller of a pool sees instead of results. */
  datatype PoolError =
    | TaskError(item: Value, index: nat, exception: Exc, attempts: nat, elapsed: real)
    | TaskTimeout(item: Value, index: nat, exception: Exc, attempts: nat, elapsed: real)
    | Propagated(cause: Exc)
    | OverallTimeout
    | PoolClosed
    | InternalError

  datatype Result<+T> = Ok(value: T) | Err(error: PoolError)

  // --- one item ---

  /** A completed item's value, or the error it stands for. */
  function SuccessfulValue(it: Item): Result<Value> {
    if it.state == Success then
      if it.value.Some? then Ok(it.value.value) else Err(InternalError)
    else if it.state == Failed || it.state == TimedOut then
      if it.exception.None? then Err(InternalError)
      else
        var e := it.exception.value;
        if e.IsCancelled() || !e.IsException() then Err(Propagated(e))
        else if it.state == TimedOut then Err(TaskTimeout(it.arg, it.index, e, it.attempts, it.elapsed))
        else Err(TaskError(it.arg, it.index, e, it.attempts, it.elapsed))
    else Err(InternalError)
  }

  /** What the scheduler promises of an item it yields. */
  predicate Definitive(it: Item) {
    match it.state
    case Success => it.value.Some?
    case Failed => it.exception.Some?
    case TimedOut => it.exception.Some?
    case _ => false
  }

  /** What the scheduler promises of a whole stream: definitive items, no index twice, and when it
      simply ends, every index up to the number of items. */
  ghost predicate Promised(ws: seq<Item>, end: End) {
    && (forall k :: 0 <= k < |ws| ==> Definitive(ws[k]))
    && (forall j, k :: 0 <= j < k < |ws| ==> ws[j].index != ws[k].index)
    && (end == Exhausted ==> forall k :: 0 <= k < |ws| ==> ws[k].index < |ws|)
    && (end.Raising? ==> !end.error.InternalError?)
  }

  /** e is what the pool raises for an item that is no success: a cancellation, or an exception that is
      no Exception, as it is; anything else wrapped, by how the item ended. */
  predicate RaisedFor(it: Item, e: PoolError) {
    && (it.state == Failed || it.state == TimedOut) && it.exception.Some?
    && var x := it.exception.value;
       if CancelledClass in x.classes || ExceptionClass !in x.classes then e == Propagated(x)
       else if it.state == Failed then e == TaskError(it.arg, it.index, x, it.attempts, it.elapsed)
       else e == TaskTimeout(it.arg, it.index, x, it.attempts, it.elapsed)
  }

  /** Unwrapping an item the scheduler may yield gives its value exactly for a success, and otherwise
      raises what the pool raises for it; the unexpected state is never met. */
  lemma DefinitiveItemsAreNoInternalErrors(it: Item)
    requires Definitive(it)
    ensures it.state == Success ==> it.value.Some? && SuccessfulValue(it) == Ok(it.value.value)
    ensures it.state != Success ==> SuccessfulValue(it).Err? && RaisedFor(it, SuccessfulValue(it).error)
    ensures SuccessfulValue(it) != Err(InternalError)
  {
  }

  // --- the values completed so far ---

  predicate Succeeds(it: Item) {
    it.state == Success && it.value.Some?
  }

  ghost predicate AllSucceed(ws: seq<Item>) {
    forall k :: 0 <= k < |ws| ==> Succeeds(ws[k])
  }

  /** The dictionary of values by index. */
  function Completed(ws: seq<Item>): map<nat, Value> {
    if ws == [] then map[]
    else
      var it := ws[|ws| - 1];
      var rest := Completed(ws[..|ws| - 1]);
      if Succeeds(it) then rest[it.index := it.value.value] else rest
  }

  lemma {:induction false} CompletedSnoc(ws: seq<Item>, it: Item)
    ensures Completed(ws + [it])
         == if Succeeds(it) then Completed(ws)[it.index := it.value.value] else Completed(ws)
  {
    assert (ws + [it])[..|ws|] == ws;
  }

  /** The dictionary holds nothing but successes. */
  lemma {:induction false} OnlySuccessesComplete(ws: seq<Item>)
    ensures forall i :: i in Completed(ws) ==> CompletedBy(ws, i)
  {
    if ws != [] {
      var n := |ws| - 1;
      var us := ws[..n];
      OnlySuccessesComplete(us);
      forall i | i in Completed(ws) ensures CompletedBy(ws, i) {
        if i in Completed(us) {
          var k :| 0 <= k < |us| && us[k].index == i && Succeeds(us[k]);
          assert ws[k] == us[k];
        } else {
          assert ws[n].index == i && Succeeds(ws[n]);
        }
      }
    }
  }

  /** With no index twice, it holds each success under its own index. */
  lemma {:induction false} CompletedHoldsSuccesses(ws: seq<Item>)
    requires forall j, k :: 0 <= j < k < |ws| ==> ws[j].index != ws[k].index
    ensures forall k :: 0 <= k < |ws| && Succeeds(ws[k]) ==>
              ws[k].index in Completed(ws) && Completed(ws)[ws[k].index] == ws[k].value.value
    ensures AllSucceed(ws) ==> |Completed(ws)| == |ws|
  {
    if ws != [] {
      var n := |ws| - 1;
      var us := ws[..n];
      CompletedHoldsSuccesses(us);
      OnlySuccessesComplete(us);
      assert forall k :: 0 <= k < n ==> us[k] == ws[k];
      assert ws[n].index !in Completed(us);
      if AllSucceed(ws) {
        assert AllSucceed(us);
        assert Succeeds(ws[n]);
      }
    }
  }

  ghost predicate CompletedBy(ws: seq<Item>, i: nat) {
    exists k :: 0 <= k < |ws| && ws[k].index == i && Succeeds(ws[k])
  }

  /** n distinct numbers below n are all the numbers below n. */
  lemma {:induction false} DistinctBelowIsEverything(m: map<nat, Value>, n: nat)
    requires |m| == n && forall i :: i in m ==> i < n
    ensures forall i :: 0 <= i < n ==> i in m
  {
    if n > 0 {
      if n - 1 in m {
        var rest := m - {n - 1};
        DistinctBelowIsEverything(rest, n - 1);
        forall i | 0 <= i < n ensures i in m {
          if i < n - 1 {
            assert i in rest;
          }
        }
      } else {
        KeysBelow(m, n - 1);
      }
    }
  }

  lemma {:induction false} KeysBelow(m: map<nat, Value>, n: nat)
    requires forall i :: i in m ==> i < n
    ensures |m| <= n
  {
    if n == 0 {
      assert m == map[];
    } else {
      KeysBelow(m - {n - 1}, n - 1);
    }
  }

  lemma {:induction false} EveryIndexCompleted(ws: seq<Item>)
    requires Promised(ws, Exhausted) && AllSucceed(ws)
    ensures |Completed(ws)| == |ws|
    ensures forall i :: i in Completed(ws) <==> 0 <= i < |ws|
  {
    CompletedHoldsSuccesses(ws);
    OnlySuccessesComplete(ws);
    forall i | i in Completed(ws) ensures i < |ws| {
      assert CompletedBy(ws, i);
    }
    DistinctBelowIsEverything(Completed(ws), |ws|);
  }

  /** The results in input order. */
  function InOrder(m: map<nat, Value>, n: nat): seq<Value> {
    seq(n, i requires 0 <= i < n => if i in m then m[i] else 0)
  }

  /** values holds the value of every item at the item's own index. */
  ghost predicate Filed(ws: seq<Item>, values: seq<Value>) {
    && |values| == |ws|
    && forall k :: 0 <= k < |ws| ==>
         ws[k].index < |ws| && ws[k].state == Success && ws[k].value == Some(values[ws[k].index])
  }

  /** The first item of a stream that is not a success. */
  ghost predicate FirstFailure(ws: seq<Item>, k: nat) {
    k < |ws| && !Succeeds(ws[k]) && AllSucceed(ws[..k])
  }

  // --- map, under the raise policy ---

  /** All values in input order; or the error of the first item that is not a success, in order of
      completion; or, if there is none, the error the stream ends with. */
  method Map(ws: seq<Item>, end: End) returns (r: Result<seq<Value>>)
    requires Promised(ws, end)
    ensures AllSucceed(ws) && end == Exhausted ==>
              r.Ok? && Filed(ws, r.value)
    ensures AllSucceed(ws) && end.Raising? ==> r == Err(end.error)
    ensures !AllSucceed(ws) ==> exists k: nat :: FirstFailure(ws, k) && r.Err? && RaisedFor(ws[k], r.error)
    ensures r != Err(InternalError)
  {
    var completed: map<nat, Value> := map[];
    for k := 0 to |ws|
      invariant completed == Completed(ws[..k])
      invariant AllSucceed(ws[..k])
    {
      var work := ws[k];
      var v := SuccessfulValue(work);
      DefinitiveItemsAreNoInternalErrors(work);
      if v.Err? {
        assert FirstFailure(ws, k);
        return Err(v.error);
      }
      completed := completed[work.index := v.value];
      assert ws[..k + 1] == ws[..k] + [work];
      CompletedSnoc(ws[..k], work);
    }
    assert ws[..|ws|] == ws;
    if end.Raising? {
      return Err(end.error);
    }
    EveryIndexCompleted(ws);
    CompletedHoldsSuccesses(ws);
    r := Assemble(completed);
  }

  /** The values of a dictionary by consecutive keys from 0; an internal error if one is missing. */
  method Assemble(completed: map<nat, Value>) returns (r: Result<seq<Value>>)
    ensures (forall i :: 0 <= i < |completed| ==> i in completed) ==> r == Ok(InOrder(completed, |completed|))
    ensures !(forall i :: 0 <= i < |completed| ==> i in completed) ==> r == Err(InternalError)
  {
    var values: seq<Value> := [];
    for i := 0 to |completed|
      invariant values == InOrder(completed, i)
      invariant forall j :: 0 <= j < i ==> j in completed
    {
      if i !in completed {
        return Err(InternalError);
      }
      values := values + [completed[i]];
    }
    return Ok(values);
  }

  // --- map, under the collect policy ---

  /** The report of one item: a task result carries a value, a task failure an exception. */
  datatype Report<T> = Report(item: Value, index: nat, outcome: T, attempts: nat, elapsed: real)

  predicate ReportsSuccess(x: Report<Value>, it: Item) {
    && it.state == Success && it.value == Some(x.outcome)
    && x.item == it.arg && x.index == it.index && x.attempts == it.attempts && x.elapsed == it.elapsed
  }

  predicate ReportsFailure(x: Report<Exc>, it: Item) {
    && (it.state == Failed || it.state == TimedOut) && it.exception == Some(x.outcome)
    && ExceptionClass in x.outcome.classes && CancelledClass !in x.outcome.classes
    && x.item == it.arg && x.index == it.index && x.attempts == it.attempts && x.elapsed == it.elapsed
  }

  /** A cancellation, or an exception that is no Exception, is never collected. */
  predicate Escapes(it: Item) {
    && (it.state == Failed || it.state == TimedOut)
    && it.exception.Some?
    && (CancelledClass in it.exception.value.classes || ExceptionClass !in it.exception.value.classes)
  }

  ghost predicate NoneEscapes(ws: seq<Item>) {
    forall k :: 0 <= k < |ws| ==> !Escapes(ws[k])
  }

  ghost predicate FirstEscape(ws: seq<Item>, k: nat) {
    k < |ws| && Escapes(ws[k]) && NoneEscapes(ws[..k])
  }

  ghost predicate Sorted<T>(rs: seq<Report<T>>) {
    forall j, k :: 0 <= j < k < |rs| ==> rs[j].index < rs[k].index
  }

  datatype BatchResult = BatchResult(successful: seq<Report<Value>>, failed: seq<Report<Exc>>)

  /** The batch is the two sorted halves of the stream: every item is reported once, on its side. */
  ghost predicate BatchOf(ws: seq<Item>, b: BatchResult) {
    && Sorted(b.successful) && Sorted(b.failed)
    && |b.successful| + |b.failed| == |ws|
    && (forall x :: x in b.successful <==>
          exists k :: 0 <= k < |ws| && ReportsSuccess(x, ws[k]))
    && (forall x :: x in b.failed <==>
          exists k :: 0 <= k < |ws| && ReportsFailure(x, ws[k]))
  }

  lemma InsertionSorts<T>(rs: seq<Report<T>>, k: nat, x: Report<T>)
    requires Sorted(rs) && k <= |rs|
    requires forall j :: 0 <= j < k ==> rs[j].index < x.index
    requires forall j :: k <= j < |rs| ==> x.index < rs[j].index
    ensures Sorted(rs[..k] + [x] + rs[k..])
    ensures forall y :: y in rs[..k] + [x] + rs[k..] <==> y in rs || y == x
  {
    assert rs == rs[..k] + rs[k..];
  }

  /** Insert a report of a new index into sorted reports. */
  method Insert<T>(rs: seq<Report<T>>, x: Report<T>) returns (s: seq<Report<T>>)
    requires Sorted(rs) && forall k :: 0 <= k < |rs| ==> rs[k].index != x.index
    ensures Sorted(s) && |s| == |rs| + 1
    ensures forall y :: y in s <==> y in rs || y == x
  {
    var k := |rs|;
    while k > 0 && rs[k - 1].index > x.index
      invariant 0 <= k <= |rs|
      invariant forall j :: k <= j < |rs| ==> rs[j].index > x.index
    {
      k := k - 1;
    }
    InsertionSorts(rs, k, x);
    s := rs[..k] + [x] + rs[k..];
  }

  ghost predicate Distinct<T>(rs: seq<Report<T>>) {
    forall j, k :: 0 <= j < k < |rs| ==> rs[j].index != rs[k].index
  }

  method SortByIndex<T>(rs: seq<Report<T>>) returns (s: seq<Report<T>>)
    requires Distinct(rs)
    ensures Sorted(s) && |s| == |rs| && forall x :: x in s <==> x in rs
  {
    s := [];
    for k := 0 to |rs|
      invariant Sorted(s) && |s| == k
      invariant forall x :: x in s <==> x in rs[..k]
    {
      forall j | 0 <= j < |s| ensures s[j].index != rs[k].index {
        assert s[j] in rs[..k];
      }
      s := Insert(s, rs[k]);
      assert rs[..k + 1] == rs[..k] + [rs[k]];
    }
    assert rs[..|rs|] == rs;
  }

  /** What the collecting loop has gathered from a prefix. */
  ghost predicate Gathered(ws: seq<Item>, successful: seq<Report<Value>>, failed: seq<Report<Exc>>) {
    && Distinct(successful) && Distinct(failed)
    && |successful| + |failed| == |ws|
    && (forall x :: x in successful <==>
          exists k :: 0 <= k < |ws| && ReportsSuccess(x, ws[k]))
    && (forall x :: x in failed <==>
          exists k :: 0 <= k < |ws| && ReportsFailure(x, ws[k]))
  }

  lemma GatherSuccess(
    ws: seq<Item>, it: Item, x: Report<Value>, successful: seq<Report<Value>>, failed: seq<Report<Exc>>)
    requires forall k :: 0 <= k < |ws| ==> ws[k].index != it.index
    requires ReportsSuccess(x, it) && Gathered(ws, successful, failed)
    ensures Gathered(ws + [it], successful + [x], failed)
  {
    var us, ss := ws + [it], successful + [x];
    assert us[|ws|] == it;
    forall y ensures y in ss <==> exists k :: 0 <= k < |us| && ReportsSuccess(y, us[k]) {
      if y in successful {
        var k :| 0 <= k < |ws| && ReportsSuccess(y, ws[k]);
        assert us[k] == ws[k];
      }
    }
    forall y ensures y in failed <==> exists k :: 0 <= k < |us| && ReportsFailure(y, us[k]) {
      if y in failed {
        var k :| 0 <= k < |ws| && ReportsFailure(y, ws[k]);
        assert us[k] == ws[k];
      }
    }
    forall j | 0 <= j < |successful| ensures successful[j].index != it.index {
      assert successful[j] in successful;
    }
  }

  lemma GatherFailure(
    ws: seq<Item>, it: Item, x: Report<Exc>, successful: seq<Report<Value>>, failed: seq<Report<Exc>>)
    requires forall k :: 0 <= k < |ws| ==> ws[k].index != it.index
    requires ReportsFailure(x, it) && Gathered(ws, successful, failed)
    ensures Gathered(ws + [it], successful, failed + [x])
  {
    var us, fs := ws + [it], failed + [x];
    assert us[|ws|] == it;
    forall y ensures y in successful <==> exists k :: 0 <= k < |us| && ReportsSuccess(y, us[k]) {
      if y in successful {
        var k :| 0 <= k < |ws| && ReportsSuccess(y, ws[k]);
        assert us[k] == ws[k];
      }
    }
    forall y ensures y in fs <==> exists k :: 0 <= k < |us| && ReportsFailure(y, us[k]) {
      if y in failed {
        var k :| 0 <= k < |ws| && ReportsFailure(y, ws[k]);
        assert us[k] == ws[k];
      }
    }
    forall j | 0 <= j < |failed| ensures failed[j].index != it.index {
      assert failed[j] in failed;
    }
  }

  /** Every item runs regardless of failures: the sorted successes and failures; or the first
      outcome that must not be collected; or the error the stream ends with. */
  method Collect(ws: seq<Item>, end: End) returns (r: Result<BatchResult>)
    requires Promised(ws, end)
    ensures NoneEscapes(ws) && end == Exhausted ==> r.Ok? && BatchOf(ws, r.value)
    ensures NoneEscapes(ws) && end.Raising? ==> r == Err(end.error)
    ensures !NoneEscapes(ws) ==>
              exists k: nat :: FirstEscape(ws, k) && r == Err(Propagated(ws[k].exception.value))
    ensures r != Err(InternalError)
  {
    var successful: seq<Report<Value>>, failed: seq<Report<Exc>> := [], [];
    for k := 0 to |ws|
      invariant NoneEscapes(ws[..k])
      invariant Gathered(ws[..k], successful, failed)
    {
      var work := ws[k];
      assert ws[..k + 1] == ws[..k] + [work];
      if work.state == Success {
        var result := Report(work.arg, work.index, work.value.value, work.attempts, work.elapsed);
        GatherSuccess(ws[..k], work, result, successful, failed);
        successful := successful + [result];
      } else if work.state == Failed || work.state == TimedOut {
        if work.exception.None? {
          return Err(InternalError);
        }
        if work.exception.value.IsCancelled() {
          assert FirstEscape(ws, k);
          return Err(Propagated(work.exception.value));
        }
        if !work.exception.value.IsException() {
          assert FirstEscape(ws, k);
          return Err(Propagated(work.exception.value));
        }
        var failure := Report(work.arg, work.index, work.exception.value, work.attempts, work.elapsed);
        GatherFailure(ws[..k], work, failure, successful, failed);
        failed := failed + [failure];
      } else {
        return Err(InternalError);
      }
    }
    assert ws[..|ws|] == ws;
    if end.Raising? {
      return Err(end.error);
    }
    var ss := SortByIndex(successful);
    var fs := SortByIndex(failed);
    return Ok(BatchResult(ss, fs));
  }

  /** Sorted reports are determined by what they contain. */
  lemma {:induction false} SortedReportsAreUnique<T>(a: seq<Report<T>>, b: seq<Report<T>>)
    requires Sorted(a) && Sorted(b) && forall x :: x in a <==> x in b
    ensures a == b
  {
    var m, n := |a| - 1, |b| - 1;
    assert (a != [] ==> a[m] in b) && (b != [] ==> b[n] in a);
    if a != [] && b != [] {
      assert a[m] == b[n];
      forall x ensures x in a[..m] <==> x in b[..n] {
        if x in a[..m] {
          assert x in b;
        }
        if x in b[..n] {
          assert x in a;
        }
      }
      SortedReportsAreUnique(a[..m], b[..n]);
    }
  }
}

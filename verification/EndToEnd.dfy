/** The readers of the pool over the stream that the coordinator really produces. */
module EndToEnd {
  import opened Numbers
  import opened TaskStates
  import opened Retry
  import opened WorkItems
  import opened Protocol
  import opened Invariants
  import opened Steps
  import opened Safety
  import opened Teardown
  import opened Causes
  import opened Consumers
  import opened Coordinator
  import opened Effects
  import opened LoopEffects
  import opened Streams
  import PoolBooks

  /** The exceptions that end a run from outside. */
  const CANCELLED: Exc := Exc({BaseExceptionClass, ExceptionClass, CancelledClass}, 1)
  const KEYBOARD_INTERRUPT: Exc := Exc({BaseExceptionClass}, 2)

  /** How the stream of a run ends, for a reader that did not close it. */
  function EndOf(why: Exit): End {
    match why
    case Returned => Exhausted
    case ClosedByConsumer => Raising(PoolClosed)
    case CancelRaised => Raising(Propagated(CANCELLED))
    case OverallTimeoutRaised => Raising(OverallTimeout)
    case InputRaised(e) => Raising(Propagated(e))
    case Interrupted => Raising(Propagated(KEYBOARD_INTERRUPT))
  }

  lemma CompletionsAreDefinitive(cfg: Config, s: State, k: nat)
    requires cfg.Valid() && Reachable(cfg, s) && k < |s.core.yielded|
    ensures Definitive(Completions(s.core)[k])
    ensures Completions(s.core)[k].index < s.core.nextIndex
  {
    OnlyDefinitiveOutcomesAreYielded(cfg, s, k);
    ReachableStatesAreSound(cfg, s);
  }

  lemma CompletionsAreDistinct(cfg: Config, s: State)
    requires cfg.Valid() && Reachable(cfg, s)
    ensures var ws := Completions(s.core);
            forall j, k :: 0 <= j < k < |ws| ==> ws[j].index != ws[k].index
  {
    IndicesAreConserved(cfg, s);
  }

  /** Every run keeps, however it ends, the promise on which the readers of its stream rely. */
  lemma StreamsKeepTheirPromise(cfg: Config, s: State)
    requires cfg.Valid() && Reachable(cfg, s) && s.pc.Closed?
    ensures Promised(Completions(s.core), EndOf(s.pc.why))
  {
    CompletionsAreDistinct(cfg, s);
    forall k | 0 <= k < |s.core.yielded|
      ensures Definitive(Completions(s.core)[k]) && Completions(s.core)[k].index < s.core.nextIndex
    {
      CompletionsAreDefinitive(cfg, s, k);
    }
    if s.pc.why == Exit.Returned {
      ReturningMeansEverythingWasDelivered(cfg, s);
    }
  }

  // --- the sequential program ---

  function ArgOf(cfg: Config, i: nat): Value {
    if cfg.input(i).Next? then cfg.input(i).arg else 0
  }

  /** What the retry loop over index i gives, when the coordinator timed out what this history says. */
  function Looped(cfg: Config, hs: seq<seq<Attempt>>, i: nat): (nat, Verdict)
    requires i < |hs|
  {
    RetryLoop(cfg, i, OverranIn(hs[i]), 1)
  }

  /** The report of index i, on the side it belongs to. */
  function SuccessOf(cfg: Config, hs: seq<seq<Attempt>>, i: nat): (r: seq<Report<Value>>)
    requires i < |hs|
    ensures |r| <= 1 && forall x :: x in r ==> x.index == i
  {
    match Looped(cfg, hs, i)
    case (a, Ended(Returned(x))) => [Report(ArgOf(cfg, i), i, x, a, Charged(hs[i]))]
    case _ => []
  }

  function FailureOf(cfg: Config, hs: seq<seq<Attempt>>, i: nat): (r: seq<Report<Exc>>)
    requires i < |hs|
    ensures |r| <= 1 && forall x :: x in r ==> x.index == i
  {
    match Looped(cfg, hs, i)
    case (a, Ended(Raised(e))) =>
      if ExceptionClass in e.classes && CancelledClass !in e.classes then
        [Report(ArgOf(cfg, i), i, e, a, Charged(hs[i]))]
      else []
    case (a, Overran) => [Report(ArgOf(cfg, i), i, TIMEOUT_ERROR, a, Charged(hs[i]))]
    case _ => []
  }

  /** One loop over the input, each element retried on the spot, collecting what comes out. */
  function SequentialBatch(cfg: Config, hs: seq<seq<Attempt>>, n: nat): BatchResult
    requires n <= |hs|
  {
    if n == 0 then BatchResult([], [])
    else
      var b := SequentialBatch(cfg, hs, n - 1);
      BatchResult(b.successful + SuccessOf(cfg, hs, n - 1), b.failed + FailureOf(cfg, hs, n - 1))
  }

  // --- what the sequential program would raise ---

  /** The retry loop over index i gives a value. */
  ghost predicate LoopReturns(cfg: Config, hs: seq<seq<Attempt>>, i: nat) {
    i < |hs| && Looped(cfg, hs, i).1.Ended? && Looped(cfg, hs, i).1.outcome.Returned?
  }

  /** It ends with a cancellation, or with an exception that is no Exception: this one is e. */
  ghost predicate LoopEscapes(cfg: Config, hs: seq<seq<Attempt>>, i: nat, e: Exc) {
    && i < |hs| && Looped(cfg, hs, i).1 == Ended(Raised(e))
    && (CancelledClass in e.classes || ExceptionClass !in e.classes)
  }

  /** It ends in a failure or timeout, for which e is raised. */
  ghost predicate LoopRaises(cfg: Config, hs: seq<seq<Attempt>>, i: nat, e: PoolError) {
    && i < |hs|
    && match Looped(cfg, hs, i)
       case (n, Ended(Raised(x))) =>
         if ExceptionClass in x.classes && CancelledClass !in x.classes then
           e == TaskError(ArgOf(cfg, i), i, x, n, Charged(hs[i]))
         else e == Propagated(x)
       case (n, Overran) => e == TaskTimeout(ArgOf(cfg, i), i, TIMEOUT_ERROR, n, Charged(hs[i]))
       case _ => false
  }

  ghost predicate AllReturn(cfg: Config, hs: seq<seq<Attempt>>, indices: seq<nat>) {
    forall k :: 0 <= k < |indices| ==> LoopReturns(cfg, hs, indices[k])
  }

  ghost predicate NoneEscape(cfg: Config, hs: seq<seq<Attempt>>, indices: seq<nat>) {
    forall k, e :: 0 <= k < |indices| ==> !LoopEscapes(cfg, hs, indices[k], e)
  }

  /** This item says of its index what the sequential program says. */
  ghost predicate Agrees(cfg: Config, hs: seq<seq<Attempt>>, it: Item) {
    && it.index < |hs|
    && Looped(cfg, hs, it.index).0 == it.attempts
    && Concluded(it, Looped(cfg, hs, it.index).1)
    && it.arg == ArgOf(cfg, it.index)
    && it.elapsed == Charged(hs[it.index])
  }

  lemma CompletionsAgree(cfg: Config, s: State, k: nat)
    requires cfg.Valid() && Reachable(cfg, s) && k < |s.core.yielded|
    ensures Agrees(cfg, s.core.attempts, Completions(s.core)[k])
  {
    DeliveredItemsAreRetryLoops(cfg, s, k);
    ReachableStatesAreSound(cfg, s);
    var it := Completions(s.core)[k];
    assert DeliveredOk(cfg, it, s.core.attempts[it.index]);
  }

  /** What an item and the loop over its index say of each other. */
  lemma AgreeingItems(cfg: Config, hs: seq<seq<Attempt>>, it: Item)
    requires Agrees(cfg, hs, it) && Definitive(it)
    ensures Succeeds(it) <==> LoopReturns(cfg, hs, it.index)
    ensures Succeeds(it) ==> Looped(cfg, hs, it.index).1 == Ended(Outcome.Returned(it.value.value))
    ensures forall e :: RaisedFor(it, e) ==> LoopRaises(cfg, hs, it.index, e)
    ensures forall e :: Escapes(it) && it.exception == Some(e) <==> LoopEscapes(cfg, hs, it.index, e)
  {
  }

  lemma StreamedItem(cfg: Config, s: State, k: nat)
    requires cfg.Valid() && Reachable(cfg, s) && k < |s.core.yielded|
    ensures var it, hs := Completions(s.core)[k], s.core.attempts;
            && Stream(s.core)[k] == it.index && it.index < |hs| && Definitive(it)
            && (Succeeds(it) <==> LoopReturns(cfg, hs, it.index))
            && (Succeeds(it) ==> Looped(cfg, hs, it.index).1 == Ended(Outcome.Returned(it.value.value)))
            && (forall e :: RaisedFor(it, e) ==> LoopRaises(cfg, hs, it.index, e))
            && (forall e :: Escapes(it) && it.exception == Some(e) <==> LoopEscapes(cfg, hs, it.index, e))
  {
    CompletionsAgree(cfg, s, k);
    CompletionsAreDefinitive(cfg, s, k);
    AgreeingItems(cfg, s.core.attempts, Completions(s.core)[k]);
  }

  /** Every index below n has its item among these. */
  ghost predicate Complete(cfg: Config, hs: seq<seq<Attempt>>, ws: seq<Item>) {
    && |ws| == |hs|
    && (forall k :: 0 <= k < |ws| ==> Agrees(cfg, hs, ws[k]))
    && (forall i :: 0 <= i < |hs| ==> Has(ws, i))
  }

  ghost predicate Has(ws: seq<Item>, i: nat) {
    exists k :: 0 <= k < |ws| && ws[k].index == i
  }

  lemma ReturnedStreamsAreComplete(cfg: Config, s: State)
    requires cfg.Valid() && Reachable(cfg, s) && s.pc.Closed? && s.pc.why == Exit.Returned
    ensures |s.core.attempts| == s.core.nextIndex
    ensures Complete(cfg, s.core.attempts, Completions(s.core))
  {
    var ws := Completions(s.core);
    ReturningMeansEverythingWasDelivered(cfg, s);
    HistoriesAreIndexed(cfg, s);
    forall k | 0 <= k < |ws| ensures Agrees(cfg, s.core.attempts, ws[k]) {
      CompletionsAgree(cfg, s, k);
    }
    forall i | 0 <= i < |s.core.attempts| ensures Has(ws, i) {
      YieldedIsHad(s.core, i);
    }
  }

  lemma HistoriesAreIndexed(cfg: Config, s: State)
    requires cfg.Valid() && Reachable(cfg, s)
    ensures |s.core.attempts| == s.core.nextIndex
  {
    IndicesAreConserved(cfg, s);
  }

  lemma YieldedIsHad(c: Core, i: nat)
    requires i in YieldedIndices(c)
    ensures Has(Completions(c), i)
  {
    var k :| 0 <= k < |c.yielded| && c.yielded[k] < |c.items| && c.items[c.yielded[k]].index == i;
    assert Completions(c)[k].index == i;
  }

  ghost predicate SaysSuccess(cfg: Config, hs: seq<seq<Attempt>>, n: nat, x: Report<Value>)
    requires n <= |hs|
  {
    x.index < n && x in SuccessOf(cfg, hs, x.index)
  }

  ghost predicate SaysFailure(cfg: Config, hs: seq<seq<Attempt>>, n: nat, x: Report<Exc>)
    requires n <= |hs|
  {
    x.index < n && x in FailureOf(cfg, hs, x.index)
  }

  lemma AppendingSorts<T>(rs: seq<Report<T>>, last: seq<Report<T>>, n: nat)
    requires Sorted(rs) && forall x :: x in rs ==> x.index < n
    requires |last| <= 1 && forall x :: x in last ==> x.index == n
    ensures Sorted(rs + last) && forall x :: x in rs + last ==> x.index < n + 1
  {
    assert forall k :: 0 <= k < |rs| ==> rs[k] in rs;
    assert forall k :: 0 <= k < |last| ==> last[k] in last;
  }

  lemma OneMoreSuccess(cfg: Config, hs: seq<seq<Attempt>>, n: nat, x: Report<Value>)
    requires 0 < n <= |hs|
    ensures SaysSuccess(cfg, hs, n, x) <==> SaysSuccess(cfg, hs, n - 1, x) || x in SuccessOf(cfg, hs, n - 1)
  {
  }

  lemma OneMoreFailure(cfg: Config, hs: seq<seq<Attempt>>, n: nat, x: Report<Exc>)
    requires 0 < n <= |hs|
    ensures SaysFailure(cfg, hs, n, x) <==> SaysFailure(cfg, hs, n - 1, x) || x in FailureOf(cfg, hs, n - 1)
  {
  }

  lemma {:induction false} SequentialSuccesses(cfg: Config, hs: seq<seq<Attempt>>, n: nat)
    requires n <= |hs|
    ensures Sorted(SequentialBatch(cfg, hs, n).successful)
    ensures forall x :: x in SequentialBatch(cfg, hs, n).successful <==> SaysSuccess(cfg, hs, n, x)
  {
    if n > 0 {
      SequentialSuccesses(cfg, hs, n - 1);
      var before, last := SequentialBatch(cfg, hs, n - 1).successful, SuccessOf(cfg, hs, n - 1);
      AppendingSorts(before, last, n - 1);
      forall x ensures x in before + last <==> SaysSuccess(cfg, hs, n, x) {
        OneMoreSuccess(cfg, hs, n, x);
      }
    }
  }

  lemma {:induction false} SequentialFailures(cfg: Config, hs: seq<seq<Attempt>>, n: nat)
    requires n <= |hs|
    ensures Sorted(SequentialBatch(cfg, hs, n).failed)
    ensures forall x :: x in SequentialBatch(cfg, hs, n).failed <==> SaysFailure(cfg, hs, n, x)
  {
    if n > 0 {
      SequentialFailures(cfg, hs, n - 1);
      var before, last := SequentialBatch(cfg, hs, n - 1).failed, FailureOf(cfg, hs, n - 1);
      AppendingSorts(before, last, n - 1);
      forall x ensures x in before + last <==> SaysFailure(cfg, hs, n, x) {
        OneMoreFailure(cfg, hs, n, x);
      }
    }
  }

  /** The collecting reader of a run that returns gives exactly what the sequential program gives,
      whatever the interleaving, the number of workers, the window and the order of completion. */
  lemma {:induction false} CollectIsSequential(cfg: Config, s: State, b: BatchResult)
    requires cfg.Valid() && Reachable(cfg, s) && s.pc.Closed? && s.pc.why == Exit.Returned
    requires BatchOf(Completions(s.core), b)
    ensures s.core.nextIndex <= |s.core.attempts|
    ensures b == SequentialBatch(cfg, s.core.attempts, s.core.nextIndex)
  {
    var ws, hs := Completions(s.core), s.core.attempts;
    ReturningMeansEverythingWasDelivered(cfg, s);
    ReturnedStreamsAreComplete(cfg, s);
    var q := SequentialBatch(cfg, hs, |hs|);
    SequentialSuccesses(cfg, hs, |hs|);
    SequentialFailures(cfg, hs, |hs|);
    forall x ensures x in b.successful <==> x in q.successful {
      SuccessesAgree(cfg, hs, ws, x);
    }
    forall x ensures x in b.failed <==> x in q.failed {
      FailuresAgree(cfg, hs, ws, x);
    }
    SortedReportsAreUnique(b.successful, q.successful);
    SortedReportsAreUnique(b.failed, q.failed);
  }

  lemma SuccessesAgree(cfg: Config, hs: seq<seq<Attempt>>, ws: seq<Item>, x: Report<Value>)
    requires Complete(cfg, hs, ws)
    ensures SaysSuccess(cfg, hs, |hs|, x) <==> exists k :: 0 <= k < |ws| && ReportsSuccess(x, ws[k])
  {
    if SaysSuccess(cfg, hs, |hs|, x) {
      assert Has(ws, x.index);
      var k :| 0 <= k < |ws| && ws[k].index == x.index;
      assert Agrees(cfg, hs, ws[k]);
      assert ReportsSuccess(x, ws[k]);
    }
    if k :| 0 <= k < |ws| && ReportsSuccess(x, ws[k]) {
      assert Agrees(cfg, hs, ws[k]);
    }
  }

  lemma FailuresAgree(cfg: Config, hs: seq<seq<Attempt>>, ws: seq<Item>, x: Report<Exc>)
    requires Complete(cfg, hs, ws)
    ensures SaysFailure(cfg, hs, |hs|, x) <==> exists k :: 0 <= k < |ws| && ReportsFailure(x, ws[k])
  {
    if SaysFailure(cfg, hs, |hs|, x) {
      assert Has(ws, x.index);
      var k :| 0 <= k < |ws| && ws[k].index == x.index;
      assert Agrees(cfg, hs, ws[k]);
      assert ReportsFailure(x, ws[k]);
    }
    if k :| 0 <= k < |ws| && ReportsFailure(x, ws[k]) {
      assert Agrees(cfg, hs, ws[k]);
    }
  }

  // --- map ---

  /** The task function is total and deterministic, and nothing is timed out. */
  ghost predicate Applies(cfg: Config, g: Value -> Value) {
    && cfg.taskTimeout.None?
    && forall i: nat, a: nat :: cfg.input(i).Next? ==> cfg.call(i, a) == Outcome.Returned(g(cfg.input(i).arg))
  }

  /** [g(x) for x in items], for the first n of them. */
  ghost function Comprehension(cfg: Config, g: Value -> Value, n: nat): seq<Value> {
    seq(n, i requires 0 <= i < n => g(ArgOf(cfg, i)))
  }

  /** With such a function, map is [g(x) for x in items]. */
  lemma MapIsComprehension(cfg: Config, s: State, g: Value -> Value, k: nat)
    requires cfg.Valid() && Reachable(cfg, s) && Applies(cfg, g) && k < |s.core.yielded|
    ensures var it := Completions(s.core)[k];
            && cfg.input(it.index) == Next(it.arg)
            && it.state == Success && it.attempts == 1 && SuccessfulValue(it) == Ok(g(it.arg))
  {
    DeliveredItemsAreRetryLoops(cfg, s, k);
    var it := Completions(s.core)[k];
    WithoutTimeoutNothingOverran(cfg, s, it.index);
    assert RetryLoop(cfg, it.index, {}, 1) == (1, Ended(cfg.call(it.index, 1)));
  }

  /** The list that map returns holds, for each index, what the retry loop over it returns. */
  lemma MapIsSequential(cfg: Config, s: State, values: seq<Value>)
    requires cfg.Valid() && Reachable(cfg, s) && s.pc.Closed? && s.pc.why == Exit.Returned
    requires Filed(Completions(s.core), values)
    ensures |values| == s.core.nextIndex <= |s.core.attempts|
    ensures forall i :: 0 <= i < |values| ==>
              Looped(cfg, s.core.attempts, i).1 == Ended(Outcome.Returned(values[i]))
  {
    ReturningMeansEverythingWasDelivered(cfg, s);
    ReturnedStreamsAreComplete(cfg, s);
    forall i | 0 <= i < |values|
      ensures Looped(cfg, s.core.attempts, i).1 == Ended(Outcome.Returned(values[i]))
    {
      FiledIsLooped(cfg, s.core.attempts, Completions(s.core), values, i);
    }
  }

  lemma FiledIsLooped(cfg: Config, hs: seq<seq<Attempt>>, ws: seq<Item>, values: seq<Value>, i: nat)
    requires Complete(cfg, hs, ws) && Filed(ws, values) && i < |hs|
    ensures Looped(cfg, hs, i).1 == Ended(Outcome.Returned(values[i]))
  {
    assert Has(ws, i);
    var k :| 0 <= k < |ws| && ws[k].index == i;
    assert Agrees(cfg, hs, ws[k]);
  }

  lemma MappedEverything(cfg: Config, s: State, g: Value -> Value, values: seq<Value>)
    requires cfg.Valid() && Reachable(cfg, s) && s.pc.Closed? && s.pc.why == Exit.Returned && Applies(cfg, g)
    requires Filed(Completions(s.core), values)
    ensures values == Comprehension(cfg, g, s.core.nextIndex)
  {
    ReturningMeansEverythingWasDelivered(cfg, s);
    ReturnedStreamsAreComplete(cfg, s);
    var ws := Completions(s.core);
    forall i | 0 <= i < |values| ensures values[i] == g(ArgOf(cfg, i)) {
      assert Has(ws, i);
      var k :| 0 <= k < |ws| && ws[k].index == i;
      MapIsComprehension(cfg, s, g, k);
    }
  }

  lemma ApplyingSucceeds(cfg: Config, s: State, g: Value -> Value)
    requires cfg.Valid() && Reachable(cfg, s) && Applies(cfg, g)
    ensures AllSucceed(Completions(s.core))
  {
    forall k | 0 <= k < |s.core.yielded| ensures Succeeds(Completions(s.core)[k]) {
      MapIsComprehension(cfg, s, g, k);
    }
  }

  /** Without task timeouts, neither the window, nor the number of workers, nor the interleaving, nor
      the order of completion has any influence on how many items there are, how often each is
      executed, and what comes of it. */
  lemma OutcomesDoNotDependOnTheSchedule(cfg: Config, s: State, other: Config, t: State)
    requires cfg.Valid() && Reachable(cfg, s) && s.pc.Closed? && s.pc.why == Exit.Returned
    requires other.Valid() && Reachable(other, t) && t.pc.Closed? && t.pc.why == Exit.Returned
    requires other.input == cfg.input && other.call == cfg.call && other.retry == cfg.retry
    requires cfg.taskTimeout.None? && other.taskTimeout.None?
    ensures s.core.nextIndex == t.core.nextIndex == |s.core.attempts| == |t.core.attempts|
    ensures forall i :: 0 <= i < s.core.nextIndex ==>
              Looped(cfg, s.core.attempts, i) == Looped(other, t.core.attempts, i)
  {
    ReturningMeansEverythingWasDelivered(cfg, s);
    ReturningMeansEverythingWasDelivered(other, t);
    HistoriesAreIndexed(cfg, s);
    HistoriesAreIndexed(other, t);
    assert !cfg.input(s.core.nextIndex).Next? && !cfg.input(t.core.nextIndex).Next?;
    forall i | 0 <= i < s.core.nextIndex
      ensures Looped(cfg, s.core.attempts, i) == Looped(other, t.core.attempts, i)
    {
      WithoutTimeoutNothingOverran(cfg, s, i);
      WithoutTimeoutNothingOverran(other, t, i);
      LoopIgnoresTheRest(cfg, other, i, {}, 1);
    }
  }

  lemma {:induction false} LoopIgnoresTheRest(cfg: Config, other: Config, i: nat, overran: set<nat>, a: nat)
    requires other.call == cfg.call && other.retry == cfg.retry
    ensures RetryLoop(cfg, i, overran, a) == RetryLoop(other, i, overran, a)
    decreases cfg.MaxAttempts() - a
  {
    var v := if a in overran then Overran else Ended(cfg.call(i, a));
    if Retryable(cfg, v, a) {
      LoopIgnoresTheRest(cfg, other, i, overran, a + 1);
    }
  }

  // --- the readers ---

  /** map and imap leave the stream at the first item that is no success. */
  predicate RaisingReader(ws: seq<Item>) {
    ws != [] && !Succeeds(ws[|ws| - 1])
  }

  /** The collecting map leaves it at the first outcome that must not be collected. */
  predicate CollectingReader(ws: seq<Item>) {
    ws != [] && Escapes(ws[|ws| - 1])
  }

  ghost predicate ReadBy(run: Run, reader: seq<Item> -> bool) {
    forall ws :: run.reader(ws) == reader(ws)
  }

  /** A stream left by map ends with its only item that is no success; any other has none. */
  lemma RaisingReaderLeavesAtTheFirstFailure(reader: seq<Item> -> bool, s: State)
    requires Heeded(reader, s) && s.pc.Closed? && forall ws :: reader(ws) == RaisingReader(ws)
    ensures var ws := Completions(s.core);
            if s.pc.why == ClosedByConsumer then ws != [] && FirstFailure(ws, |ws| - 1) else AllSucceed(ws)
  {
    var ws := Completions(s.core);
    var n := if s.pc.why == ClosedByConsumer then |ws| - 1 else |ws|;
    forall k | 0 <= k < n ensures Succeeds(ws[k]) {
      assert !reader(ws[..k + 1]);
      assert ws[..k + 1][k] == ws[k];
    }
  }

  lemma CollectingReaderLeavesAtTheFirstEscape(reader: seq<Item> -> bool, s: State)
    requires Heeded(reader, s) && s.pc.Closed? && forall ws :: reader(ws) == CollectingReader(ws)
    ensures var ws := Completions(s.core);
            if s.pc.why == ClosedByConsumer then ws != [] && FirstEscape(ws, |ws| - 1) else NoneEscapes(ws)
  {
    var ws := Completions(s.core);
    var n := if s.pc.why == ClosedByConsumer then |ws| - 1 else |ws|;
    forall k | 0 <= k < n ensures !Escapes(ws[k]) {
      assert !reader(ws[..k + 1]);
      assert ws[..k + 1][k] == ws[k];
    }
  }

  lemma AllBeforeSucceed(ws: seq<Item>, k: nat, j: nat)
    requires FirstFailure(ws, k) && j < k
    ensures Succeeds(ws[j])
  {
    assert ws[..k][j] == ws[j];
  }

  lemma FirstFailureIsUnique(ws: seq<Item>, j: nat, k: nat)
    requires FirstFailure(ws, j) && FirstFailure(ws, k)
    ensures j == k
  {
    if j < k {
      AllBeforeSucceed(ws, k, j);
    } else if k < j {
      AllBeforeSucceed(ws, j, k);
    }
  }

  lemma NoneBeforeEscapes(ws: seq<Item>, k: nat, j: nat)
    requires FirstEscape(ws, k) && j < k
    ensures !Escapes(ws[j])
  {
    assert ws[..k][j] == ws[j];
  }

  lemma FirstEscapeIsUnique(ws: seq<Item>, j: nat, k: nat)
    requires FirstEscape(ws, j) && FirstEscape(ws, k)
    ensures j == k
  {
    if j < k {
      NoneBeforeEscapes(ws, k, j);
    } else if k < j {
      NoneBeforeEscapes(ws, j, k);
    }
  }

  // --- the pool's methods over a real run ---

  lemma ClosedRunsLeaveNothing(cfg: Config, s: State)
    requires cfg.Valid() && Reachable(cfg, s) && s.pc.Closed?
    ensures forall f :: 0 <= f < |s.core.futures| ==>
              && s.core.futures[f].phase != Queued
              && (Unreturned(s.core.futures[f].phase) ==> f in s.pc.leak)
              && (f in s.pc.leak ==> s.core.futures[f].phase != Withdrawn)
  {
    NothingIsLeftBehind(cfg, s);
  }

  lemma AllCompletionsAgree(cfg: Config, s: State)
    requires cfg.Valid() && Reachable(cfg, s)
    ensures forall k :: 0 <= k < |s.core.yielded| ==>
              s.core.yielded[k] < |s.core.items| && Agrees(cfg, s.core.attempts, s.core.items[s.core.yielded[k]])
  {
    YieldedItemsExist(cfg, s);
    forall k | 0 <= k < |s.core.yielded| ensures Agrees(cfg, s.core.attempts, s.core.items[s.core.yielded[k]]) {
      CompletionsAgree(cfg, s, k);
    }
  }

  /** At most `turns` turns of the coordinator's loop, under any behaviour of the others. */
  method Execute(run: Run, turns: nat) returns (end: Option<Exit>, leak: set<Fid>)
    requires run.Valid() && run.s == Init()
    modifies run, run.items
    ensures run.Valid() && (end.Some? ==> run.s.pc == Closed(end.value, leak))
    ensures end.None? ==> run.waits == old(run.waits) + turns
    ensures end == Some(Exit.Returned) ==>
              run.cfg.input(run.nextIndex) == Stop && |run.yielded| == run.nextIndex
    ensures end.Some? ==> forall f :: 0 <= f < |run.futures| ==>
              && run.futures[f].phase != Queued
              && (Unreturned(run.futures[f].phase) ==> f in leak)
              && (f in leak ==> run.futures[f].phase != Withdrawn)
    ensures forall k :: 0 <= k < |run.yielded| ==>
              run.yielded[k] < |run.items| && Agrees(run.cfg, run.s.core.attempts, run.items[run.yielded[k]].View())
  {
    end, leak := run.Drive(turns);
    if end.Some? {
      ClosedRunsLeaveNothing(run.cfg, run.s);
      if end.value == Exit.Returned {
        ReturningMeansEverythingWasDelivered(run.cfg, run.s);
      }
    }
    AllCompletionsAgree(run.cfg, run.s);
  }

  /** The loops over all these indices give values, and then this error of the run itself is raised. */
  ghost predicate EndsWith(cfg: Config, s: State, e: PoolError)
    requires s.pc.Closed?
  {
    match s.pc.why
    case CancelRaised => e == Propagated(CANCELLED) && CancelledClass in CANCELLED.classes
    case OverallTimeoutRaised => e == OverallTimeout
    case InputRaised(x) => cfg.input(s.core.nextIndex) == Broken(x) && e == Propagated(x)
    case Interrupted => e == Propagated(KEYBOARD_INTERRUPT) && ExceptionClass !in KEYBOARD_INTERRUPT.classes
    case _ => false
  }

  lemma EndsAreRaised(cfg: Config, s: State)
    requires cfg.Valid() && Reachable(cfg, s) && s.pc.Closed?
    requires s.pc.why != Exit.Returned && s.pc.why != ClosedByConsumer
    ensures EndOf(s.pc.why).Raising? && EndsWith(cfg, s, EndOf(s.pc.why).error)
  {
    EndsAreJustified(cfg, s);
  }

  /** What map gives or raises after the run, in terms of the sequential retry loops over the indices
      yielded: all values in input order; or what the first loop that gives no value raises, which is the
      last one yielded; or the error that ended the run. */
  ghost predicate MapOutcome(cfg: Config, s: State, r: Result<seq<Value>>)
    requires s.pc.Closed?
  {
    var hs, indices := s.core.attempts, Stream(s.core);
    match s.pc.why
    case Returned =>
      && r.Ok? && |r.value| == s.core.nextIndex <= |hs|
      && forall i :: 0 <= i < |r.value| ==> Looped(cfg, hs, i).1 == Ended(Outcome.Returned(r.value[i]))
    case ClosedByConsumer =>
      && indices != [] && AllReturn(cfg, hs, indices[..|indices| - 1])
      && r.Err? && LoopRaises(cfg, hs, indices[|indices| - 1], r.error)
    case _ =>
      AllReturn(cfg, hs, indices) && r.Err? && EndsWith(cfg, s, r.error)
  }

  lemma SuccessesReturn(cfg: Config, s: State, n: nat)
    requires cfg.Valid() && Reachable(cfg, s) && n <= |s.core.yielded| && AllSucceed(Completions(s.core)[..n])
    ensures AllReturn(cfg, s.core.attempts, Stream(s.core)[..n])
  {
    forall k | 0 <= k < n ensures LoopReturns(cfg, s.core.attempts, Stream(s.core)[..n][k]) {
      assert Succeeds(Completions(s.core)[..n][k]);
      StreamedItem(cfg, s, k);
    }
  }

  lemma AllSuccessesReturn(cfg: Config, s: State)
    requires cfg.Valid() && Reachable(cfg, s) && AllSucceed(Completions(s.core))
    ensures AllReturn(cfg, s.core.attempts, Stream(s.core))
  {
    assert Completions(s.core)[..|s.core.yielded|] == Completions(s.core);
    assert Stream(s.core)[..|s.core.yielded|] == Stream(s.core);
    SuccessesReturn(cfg, s, |s.core.yielded|);
  }

  /** What Map promises. */
  ghost predicate Mapped(ws: seq<Item>, end: End, r: Result<seq<Value>>) {
    && (AllSucceed(ws) && end == Exhausted ==> r.Ok? && Filed(ws, r.value))
    && (AllSucceed(ws) && end.Raising? ==> r == Err(end.error))
    && (!AllSucceed(ws) ==> exists k: nat :: FirstFailure(ws, k) && r.Err? && RaisedFor(ws[k], r.error))
  }

  lemma MapLeftAtFailure(ws: seq<Item>, end: End, r: Result<seq<Value>>)
    requires Mapped(ws, end, r) && ws != [] && FirstFailure(ws, |ws| - 1)
    ensures r.Err? && RaisedFor(ws[|ws| - 1], r.error)
  {
    assert !Succeeds(ws[|ws| - 1]);
    var k: nat :| FirstFailure(ws, k) && RaisedFor(ws[k], r.error);
    FirstFailureIsUnique(ws, k, |ws| - 1);
  }

  lemma MappingIsRight(cfg: Config, reader: seq<Item> -> bool, s: State, r: Result<seq<Value>>)
    requires cfg.Valid() && Reachable(cfg, s) && s.pc.Closed? && Heeded(reader, s)
    requires forall ws :: reader(ws) == RaisingReader(ws)
    requires Mapped(Completions(s.core), EndOf(s.pc.why), r)
    ensures MapOutcome(cfg, s, r)
  {
    RaisingReaderLeavesAtTheFirstFailure(reader, s);
    if s.pc.why == Exit.Returned {
      MapIsSequential(cfg, s, r.value);
    } else if s.pc.why == ClosedByConsumer {
      MapLeftAtFailure(Completions(s.core), EndOf(s.pc.why), r);
      LeftAtFailure(cfg, s, r.error);
    } else {
      AllSuccessesReturn(cfg, s);
      EndsAreRaised(cfg, s);
    }
  }

  /** The loops over the indices yielded before the last one gave values, and the last one's is raised. */
  lemma LeftAtFailure(cfg: Config, s: State, e: PoolError)
    requires cfg.Valid() && Reachable(cfg, s)
    requires var ws := Completions(s.core); ws != [] && FirstFailure(ws, |ws| - 1) && RaisedFor(ws[|ws| - 1], e)
    ensures var indices := Stream(s.core);
            && indices != [] && AllReturn(cfg, s.core.attempts, indices[..|indices| - 1])
            && LoopRaises(cfg, s.core.attempts, indices[|indices| - 1], e)
  {
    StreamedItem(cfg, s, |s.core.yielded| - 1);
    SuccessesReturn(cfg, s, |s.core.yielded| - 1);
  }

  /** map over a run: when the run returns, index by index what the sequential retry loops return, and for a
      total function without timeouts [fn(x) for x in items]; when an item is no success, the run is left
      at that very yield, and its error is raised; otherwise, what ended the run is raised. */
  method PoolMap(run: Run, turns: nat, ghost g: Value -> Value) returns (r: Option<Result<seq<Value>>>)
    requires run.Valid() && run.s == Init() && ReadBy(run, RaisingReader)
    modifies run, run.items
    ensures run.Valid()
    ensures r.None? ==> run.waits == old(run.waits) + turns
    ensures r.Some? ==> run.s.pc.Closed? && MapOutcome(run.cfg, run.s, r.value)
    ensures r.Some? && run.s.pc.why == Exit.Returned && Applies(run.cfg, g) ==>
              r.value == Ok(Comprehension(run.cfg, g, run.nextIndex))
  {
    var end, leak := run.Drive(turns);
    if end.None? {
      return None;
    }
    var m := MapStream(run, end.value, g);
    return Some(m);
  }

  /** The part of map that comes after the run. */
  method MapStream(run: Run, why: Exit, ghost g: Value -> Value) returns (r: Result<seq<Value>>)
    requires run.Valid() && run.s.pc.Closed? && run.s.pc.why == why && ReadBy(run, RaisingReader)
    ensures MapOutcome(run.cfg, run.s, r)
    ensures why == Exit.Returned && Applies(run.cfg, g) ==> r == Ok(Comprehension(run.cfg, g, run.nextIndex))
  {
    var ws := run.Yielded();
    StreamsKeepTheirPromise(run.cfg, run.s);
    r := Map(ws, EndOf(why));
    MappingIsRight(run.cfg, run.reader, run.s, r);
    if why == Exit.Returned && Applies(run.cfg, g) {
      ApplyingSucceeds(run.cfg, run.s, g);
      MappedEverything(run.cfg, run.s, g, r.value);
    }
  }

  /** What the collecting map gives or raises after the run: the batch of the sequential program, if none of
      its loops escapes; or what the first loop that escapes raises, which is the last one yielded; or the
      error that ended the run. */
  ghost predicate CollectOutcome(cfg: Config, s: State, r: Result<BatchResult>)
    requires s.pc.Closed?
  {
    var hs, indices := s.core.attempts, Stream(s.core);
    match s.pc.why
    case Returned =>
      && NoneEscape(cfg, hs, indices)
      && s.core.nextIndex <= |hs| && r == Ok(SequentialBatch(cfg, hs, s.core.nextIndex))
    case ClosedByConsumer =>
      && indices != [] && NoneEscape(cfg, hs, indices[..|indices| - 1])
      && exists e :: LoopEscapes(cfg, hs, indices[|indices| - 1], e) && r == Err(Propagated(e))
    case _ =>
      NoneEscape(cfg, hs, indices) && r.Err? && EndsWith(cfg, s, r.error)
  }

  lemma CollectablesDoNotEscape(cfg: Config, s: State, n: nat)
    requires cfg.Valid() && Reachable(cfg, s) && n <= |s.core.yielded| && NoneEscapes(Completions(s.core)[..n])
    ensures NoneEscape(cfg, s.core.attempts, Stream(s.core)[..n])
  {
    forall k, e | 0 <= k < n ensures !LoopEscapes(cfg, s.core.attempts, Stream(s.core)[..n][k], e) {
      assert !Escapes(Completions(s.core)[..n][k]);
      StreamedItem(cfg, s, k);
    }
  }

  lemma NoCollectableEscapes(cfg: Config, s: State)
    requires cfg.Valid() && Reachable(cfg, s) && NoneEscapes(Completions(s.core))
    ensures NoneEscape(cfg, s.core.attempts, Stream(s.core))
  {
    assert Completions(s.core)[..|s.core.yielded|] == Completions(s.core);
    assert Stream(s.core)[..|s.core.yielded|] == Stream(s.core);
    CollectablesDoNotEscape(cfg, s, |s.core.yielded|);
  }

  /** What Collect promises. */
  ghost predicate CollectedFrom(ws: seq<Item>, end: End, r: Result<BatchResult>) {
    && (NoneEscapes(ws) && end == Exhausted ==> r.Ok? && BatchOf(ws, r.value))
    && (NoneEscapes(ws) && end.Raising? ==> r == Err(end.error))
    && (!NoneEscapes(ws) ==> exists k: nat :: FirstEscape(ws, k) && r == Err(Propagated(ws[k].exception.value)))
  }

  lemma CollectLeftAtEscape(cfg: Config, s: State, end: End, r: Result<BatchResult>)
    requires cfg.Valid() && Reachable(cfg, s)
    requires var ws := Completions(s.core); CollectedFrom(ws, end, r) && ws != [] && FirstEscape(ws, |ws| - 1)
    ensures var hs, indices := s.core.attempts, Stream(s.core);
            && indices != [] && NoneEscape(cfg, hs, indices[..|indices| - 1])
            && exists e :: LoopEscapes(cfg, hs, indices[|indices| - 1], e) && r == Err(Propagated(e))
  {
    var ws := Completions(s.core);
    assert Escapes(ws[|ws| - 1]);
    var k: nat :| FirstEscape(ws, k) && r == Err(Propagated(ws[k].exception.value));
    FirstEscapeIsUnique(ws, k, |ws| - 1);
    StreamedItem(cfg, s, |ws| - 1);
    assert LoopEscapes(cfg, s.core.attempts, Stream(s.core)[|ws| - 1], ws[|ws| - 1].exception.value);
    CollectablesDoNotEscape(cfg, s, |ws| - 1);
  }

  lemma CollectingIsRight(cfg: Config, reader: seq<Item> -> bool, s: State, r: Result<BatchResult>)
    requires cfg.Valid() && Reachable(cfg, s) && s.pc.Closed? && Heeded(reader, s)
    requires forall ws :: reader(ws) == CollectingReader(ws)
    requires CollectedFrom(Completions(s.core), EndOf(s.pc.why), r)
    ensures CollectOutcome(cfg, s, r)
  {
    CollectingReaderLeavesAtTheFirstEscape(reader, s);
    if s.pc.why == ClosedByConsumer {
      CollectLeftAtEscape(cfg, s, EndOf(s.pc.why), r);
    } else {
      NoCollectableEscapes(cfg, s);
      if s.pc.why == Exit.Returned {
        CollectIsSequential(cfg, s, r.value);
      } else {
        EndsAreRaised(cfg, s);
      }
    }
  }

  /** The collecting map over a run: when the run returns, the batch of the sequential program; at an
      outcome that must not be collected, the run is left at that very yield. */
  method PoolCollect(run: Run, turns: nat) returns (r: Option<Result<BatchResult>>)
    requires run.Valid() && run.s == Init() && ReadBy(run, CollectingReader)
    modifies run, run.items
    ensures run.Valid()
    ensures r.None? ==> run.waits == old(run.waits) + turns
    ensures r.Some? ==> run.s.pc.Closed? && CollectOutcome(run.cfg, run.s, r.value)
    ensures r.Some? && r.value.Ok? ==> forall x :: x in r.value.value.failed ==>
              ExceptionClass in x.outcome.classes && CancelledClass !in x.outcome.classes
  {
    var end, leak := run.Drive(turns);
    if end.None? {
      return None;
    }
    var b := CollectStream(run, end.value);
    return Some(b);
  }

  /** The part of the collecting map that comes after the run. */
  method CollectStream(run: Run, why: Exit) returns (r: Result<BatchResult>)
    requires run.Valid() && run.s.pc.Closed? && run.s.pc.why == why && ReadBy(run, CollectingReader)
    ensures CollectOutcome(run.cfg, run.s, r)
    ensures r.Ok? ==> forall x :: x in r.value.failed ==>
              ExceptionClass in x.outcome.classes && CancelledClass !in x.outcome.classes
  {
    var ws := run.Yielded();
    StreamsKeepTheirPromise(run.cfg, run.s);
    r := Collect(ws, EndOf(why));
    CollectingIsRight(run.cfg, run.reader, run.s, r);
  }

  /** out are the values of the loops over the first |out| indices, all yielded, and the next is not. */
  ghost predicate LongestPrefix(cfg: Config, hs: seq<seq<Attempt>>, indices: seq<nat>, out: seq<Value>) {
    && (forall i :: 0 <= i < |out| ==>
          i in indices && i < |hs| && Looped(cfg, hs, i).1 == Ended(Outcome.Returned(out[i])))
    && |out| !in indices
  }

  /** What draining imap gives and raises after the run. */
  ghost predicate ImapOutcome(cfg: Config, s: State, out: seq<Value>, last: Step)
    requires s.pc.Closed?
  {
    var hs, indices := s.core.attempts, Stream(s.core);
    match s.pc.why
    case Returned => last == Stops && MapOutcome(cfg, s, Ok(out))
    case ClosedByConsumer =>
      && indices != [] && AllReturn(cfg, hs, indices[..|indices| - 1])
      && last.Raises? && LoopRaises(cfg, hs, indices[|indices| - 1], last.error)
      && LongestPrefix(cfg, hs, indices[..|indices| - 1], out)
    case _ =>
      && AllReturn(cfg, hs, indices) && last.Raises? && EndsWith(cfg, s, last.error)
      && LongestPrefix(cfg, hs, indices, out)
  }

  lemma MaximalIsLongest(cfg: Config, s: State, n: nat, out: seq<Value>)
    requires cfg.Valid() && Reachable(cfg, s) && n <= |s.core.yielded|
    requires var ws := Completions(s.core)[..n]; AllSucceed(ws) && MaximalPrefix(out, Completed(ws))
    ensures LongestPrefix(cfg, s.core.attempts, Stream(s.core)[..n], out)
  {
    var ws, indices := Completions(s.core)[..n], Stream(s.core)[..n];
    CompletionsAreDistinct(cfg, s);
    OnlySuccessesComplete(ws);
    CompletedHoldsSuccesses(ws);
    forall i | 0 <= i < |out|
      ensures i in indices && i < |s.core.attempts|
      ensures Looped(cfg, s.core.attempts, i).1 == Ended(Outcome.Returned(out[i]))
    {
      assert CompletedBy(ws, i);
      var k :| 0 <= k < |ws| && ws[k].index == i && Succeeds(ws[k]);
      StreamedItem(cfg, s, k);
      assert indices[k] == i;
    }
    forall k | 0 <= k < n ensures indices[k] != |out| {
      assert Succeeds(ws[k]) && indices[k] == ws[k].index;
    }
  }

  lemma MaximalIsLongestOfAll(cfg: Config, s: State, out: seq<Value>)
    requires cfg.Valid() && Reachable(cfg, s)
    requires var ws := Completions(s.core); AllSucceed(ws) && MaximalPrefix(out, Completed(ws))
    ensures LongestPrefix(cfg, s.core.attempts, Stream(s.core), out)
  {
    assert Completions(s.core)[..|s.core.yielded|] == Completions(s.core);
    assert Stream(s.core)[..|s.core.yielded|] == Stream(s.core);
    MaximalIsLongest(cfg, s, |s.core.yielded|, out);
  }

  lemma StreamingIsRight(cfg: Config, reader: seq<Item> -> bool, s: State, out: seq<Value>, last: Step)
    requires cfg.Valid() && Reachable(cfg, s) && s.pc.Closed? && Heeded(reader, s)
    requires forall ws :: reader(ws) == RaisingReader(ws)
    requires Drained(Completions(s.core), EndOf(s.pc.why), out, last)
    ensures ImapOutcome(cfg, s, out, last)
  {
    RaisingReaderLeavesAtTheFirstFailure(reader, s);
    if s.pc.why == Exit.Returned {
      InOrderIsSequential(cfg, s);
    } else if s.pc.why == ClosedByConsumer {
      StreamingLeftAtFailure(cfg, s, out, last);
    } else {
      StreamingCutShort(cfg, s, out, last);
    }
  }

  lemma StreamingLeftAtFailure(cfg: Config, s: State, out: seq<Value>, last: Step)
    requires cfg.Valid() && Reachable(cfg, s) && s.pc.Closed? && s.pc.why == ClosedByConsumer
    requires Drained(Completions(s.core), EndOf(s.pc.why), out, last)
    requires var ws := Completions(s.core); ws != [] && FirstFailure(ws, |ws| - 1)
    ensures ImapOutcome(cfg, s, out, last)
  {
    StreamLeftAtFailure(Completions(s.core), EndOf(s.pc.why), out, last);
    LeftAtFailure(cfg, s, last.error);
    MaximalIsLongest(cfg, s, |s.core.yielded| - 1, out);
  }

  lemma StreamingCutShort(cfg: Config, s: State, out: seq<Value>, last: Step)
    requires cfg.Valid() && Reachable(cfg, s) && s.pc.Closed?
    requires s.pc.why != Exit.Returned && s.pc.why != ClosedByConsumer && AllSucceed(Completions(s.core))
    requires Drained(Completions(s.core), EndOf(s.pc.why), out, last)
    ensures ImapOutcome(cfg, s, out, last)
  {
    AllSuccessesReturn(cfg, s);
    EndsAreRaised(cfg, s);
    MaximalIsLongestOfAll(cfg, s, out);
  }

  /** What DrainOrdered promises. */
  ghost predicate Drained(ws: seq<Item>, end: End, out: seq<Value>, last: Step) {
    && (AllSucceed(ws) && end == Exhausted ==> last == Stops && out == InOrder(Completed(ws), |ws|))
    && (AllSucceed(ws) && end.Raising? ==> last == Raises(end.error) && MaximalPrefix(out, Completed(ws)))
    && (!AllSucceed(ws) ==> exists k: nat ::
          && FirstFailure(ws, k)
          && last.Raises? && RaisedFor(ws[k], last.error)
          && MaximalPrefix(out, Completed(ws[..k])))
  }

  lemma StreamLeftAtFailure(ws: seq<Item>, end: End, out: seq<Value>, last: Step)
    requires Drained(ws, end, out, last) && ws != [] && FirstFailure(ws, |ws| - 1)
    ensures last.Raises? && RaisedFor(ws[|ws| - 1], last.error)
    ensures MaximalPrefix(out, Completed(ws[..|ws| - 1]))
  {
    assert !Succeeds(ws[|ws| - 1]);
    var k: nat :| && FirstFailure(ws, k) && last.Raises? && RaisedFor(ws[k], last.error)
                  && MaximalPrefix(out, Completed(ws[..k]));
    FirstFailureIsUnique(ws, k, |ws| - 1);
  }

  lemma InOrderIsSequential(cfg: Config, s: State)
    requires cfg.Valid() && Reachable(cfg, s) && s.pc.Closed? && s.pc.why == Exit.Returned
    requires AllSucceed(Completions(s.core))
    ensures var ws := Completions(s.core); MapOutcome(cfg, s, Ok(InOrder(Completed(ws), |ws|)))
  {
    var ws := Completions(s.core);
    StreamsKeepTheirPromise(cfg, s);
    InOrderIsFiled(ws);
    MapIsSequential(cfg, s, InOrder(Completed(ws), |ws|));
  }

  lemma {:induction false} InOrderIsFiled(ws: seq<Item>)
    requires Promised(ws, Exhausted) && AllSucceed(ws)
    ensures Filed(ws, InOrder(Completed(ws), |ws|))
  {
    CompletedHoldsSuccesses(ws);
    assert forall k :: 0 <= k < |ws| ==> Succeeds(ws[k]);
  }

  /** list(imap) over a run: the list that map returns when the run returns; the maximal prefix before the
      first failure, at whose yield the run is left; otherwise the maximal prefix of what completed. */
  method PoolImap(run: Run, turns: nat) returns (r: Option<(seq<Value>, Step)>)
    requires run.Valid() && run.s == Init() && ReadBy(run, RaisingReader)
    modifies run, run.items
    ensures run.Valid()
    ensures r.None? ==> run.waits == old(run.waits) + turns
    ensures r.Some? ==> run.s.pc.Closed? && ImapOutcome(run.cfg, run.s, r.value.0, r.value.1)
  {
    var end, leak := run.Drive(turns);
    if end.None? {
      return None;
    }
    var ws := run.Yielded();
    StreamsKeepTheirPromise(run.cfg, run.s);
    var out, last := DrainOrdered(ws, EndOf(end.value));
    StreamingIsRight(run.cfg, run.reader, run.s, out, last);
    return Some((out, last));
  }

  /** What draining imap_unordered gives and raises after the run: the values of the loops over the indices
      yielded, in the order of completion. */
  ghost predicate UnorderedOutcome(cfg: Config, s: State, out: seq<Value>, last: Step)
    requires s.pc.Closed?
  {
    var hs, indices := s.core.attempts, Stream(s.core);
    && |out| <= |indices|
    && (forall k :: 0 <= k < |out| ==>
          indices[k] < |hs| && Looped(cfg, hs, indices[k]).1 == Ended(Outcome.Returned(out[k])))
    && match s.pc.why
       case Returned => last == Stops && |out| == |indices| == s.core.nextIndex
       case ClosedByConsumer =>
         |out| + 1 == |indices| && last.Raises? && LoopRaises(cfg, hs, indices[|out|], last.error)
       case _ =>
         |out| == |indices| && last.Raises? && EndsWith(cfg, s, last.error)
  }

  lemma SuccessesEndBefore(ws: seq<Item>, n: nat)
    requires n <= |ws| && AllSucceed(ws[..n]) && ws != [] && FirstFailure(ws, |ws| - 1)
    ensures n < |ws|
  {
    assert forall k :: 0 <= k < n ==> ws[..n][k] == ws[k];
  }

  lemma UnorderedIsRight(cfg: Config, reader: seq<Item> -> bool, s: State, out: seq<Value>, last: Step)
    requires cfg.Valid() && Reachable(cfg, s) && s.pc.Closed? && Heeded(reader, s)
    requires forall ws :: reader(ws) == RaisingReader(ws)
    requires var ws, end := Completions(s.core), EndOf(s.pc.why);
             && |out| <= |ws| && AllSucceed(ws[..|out|])
             && (forall k :: 0 <= k < |out| ==> ws[k].value == Some(out[k]))
             && if |out| < |ws| then FirstFailure(ws, |out|) && last.Raises? && RaisedFor(ws[|out|], last.error)
                else last == (if end.Raising? then Raises(end.error) else Stops)
    ensures UnorderedOutcome(cfg, s, out, last)
  {
    var ws := Completions(s.core);
    RaisingReaderLeavesAtTheFirstFailure(reader, s);
    forall k | 0 <= k < |out|
      ensures Stream(s.core)[k] < |s.core.attempts|
      ensures Looped(cfg, s.core.attempts, Stream(s.core)[k]).1 == Ended(Outcome.Returned(out[k]))
    {
      assert Succeeds(ws[..|out|][k]);
      StreamedItem(cfg, s, k);
    }
    if s.pc.why == ClosedByConsumer {
      SuccessesEndBefore(ws, |out|);
      FirstFailureIsUnique(ws, |out|, |ws| - 1);
      StreamedItem(cfg, s, |ws| - 1);
    } else if s.pc.why == Exit.Returned {
      ReturningMeansEverythingWasDelivered(cfg, s);
    } else {
      EndsAreRaised(cfg, s);
    }
  }

  /** list(imap_unordered) over a run. */
  method PoolImapUnordered(run: Run, turns: nat) returns (r: Option<(seq<Value>, Step)>)
    requires run.Valid() && run.s == Init() && ReadBy(run, RaisingReader)
    modifies run, run.items
    ensures run.Valid()
    ensures r.None? ==> run.waits == old(run.waits) + turns
    ensures r.Some? ==> run.s.pc.Closed? && UnorderedOutcome(run.cfg, run.s, r.value.0, r.value.1)
  {
    var end, leak := run.Drive(turns);
    if end.None? {
      return None;
    }
    var ws := run.Yielded();
    StreamsKeepTheirPromise(run.cfg, run.s);
    var out, last := DrainUnordered(ws, EndOf(end.value));
    UnorderedIsRight(run.cfg, run.reader, run.s, out, last);
    return Some((out, last));
  }

  // --- the readers among themselves, and the pool's books ---

  /** Where both succeed, imap yields the list that map returns. */
  lemma {:induction false} MapAndImapAgree(ws: seq<Item>, values: seq<Value>, yielded: seq<Value>)
    requires Promised(ws, Exhausted) && AllSucceed(ws)
    requires Filed(ws, values)
    requires yielded == InOrder(Completed(ws), |ws|)
    ensures yielded == values
  {
    EveryIndexCompleted(ws);
    CompletedHoldsSuccesses(ws);
    OnlySuccessesComplete(ws);
    forall i | 0 <= i < |ws| ensures yielded[i] == values[i] {
      assert CompletedBy(ws, i);
    }
  }

  function FinishedFutures(c: Core): set<Fid> {
    set f | 0 <= f < |c.futures| && c.futures[f].phase.Done?
  }

  function WithdrawnFutures(c: Core): set<Fid> {
    set f | 0 <= f < |c.futures| && c.futures[f].phase == Withdrawn
  }

  /** What a run hands over at its end is what the pool's books demand of it. */
  lemma RunsAreTornDown(cfg: Config, s: State)
    requires cfg.Valid() && Reachable(cfg, s) && s.pc.Closed?
    ensures PoolBooks.TornDown(UpTo(|s.core.futures|), FinishedFutures(s.core), WithdrawnFutures(s.core), s.pc.leak)
    ensures FinishedFutures(s.core) !! WithdrawnFutures(s.core)
  {
    NothingIsLeftBehind(cfg, s);
  }
}

/** What holds at every moment of every run. */
module Invariants {
  import opened TaskStates
  import opened Retry
  import opened WorkItems
  import opened Protocol

  // --- the history of one index ---

  /** Whether an execution that ended this way, as the a-th of its index, is to be repeated. */
  predicate Retryable(cfg: Config, v: Verdict, a: nat) {
    match v
    case Open => false
    case Ended(Returned(_)) => false
    case Ended(Raised(e)) =>
      e.IsException() && !e.IsCancelled() && cfg.retry.Some? && cfg.retry.value.ShouldRetry(e, a)
    case Overran => cfg.RetriesTimeout(a)
  }

  /** The time charged to the executions of an index. */
  function Charged(h: seq<Attempt>): real {
    if h == [] then 0.0 else Charged(h[..|h| - 1]) + h[|h| - 1].spent
  }

  function Last(h: seq<Attempt>): Attempt
    requires h != []
  {
    h[|h| - 1]
  }

  /** The k-th execution of index i is either still open, or timed out, or did what the k-th call
      on that input does; only the latest can be open. */
  ghost predicate Genuine(cfg: Config, i: nat, h: seq<Attempt>) {
    forall k :: 0 <= k < |h| ==> GenuineAt(cfg, i, h, k)
  }

  predicate GenuineAt(cfg: Config, i: nat, h: seq<Attempt>, k: nat)
    requires k < |h|
  {
    && h[k].spent >= 0.0
    && match h[k].verdict
       case Open => k == |h| - 1 && h[k].spent == 0.0
       case Ended(o) => o == cfg.call(i, k + 1)
       case Overran => cfg.taskTimeout.Some? && h[k].spent >= cfg.taskTimeout.value
  }

  /** The next execution may begin at `now`: the previous one was over and its backoff has elapsed. */
  predicate Rested(cfg: Config, a: Attempt, n: nat, now: real) {
    a.start + a.spent + a.delay <= now && cfg.MayDelay(n, a.delay)
  }

  ghost predicate Spaced(cfg: Config, h: seq<Attempt>) {
    forall k :: 0 < k < |h| ==> Rested(cfg, h[k - 1], k, h[k].start)
  }

  /** The first n executions were all to be repeated. */
  ghost predicate AllRetried(cfg: Config, h: seq<Attempt>, n: nat) {
    forall k :: 0 <= k < n && k < |h| ==> Retryable(cfg, h[k].verdict, k + 1)
  }

  /** The item's fields say how its last execution ended. */
  predicate Concluded(it: Item, v: Verdict) {
    match v
    case Open => false
    case Ended(Returned(x)) => it.state == Success && it.value == Some(x) && it.exception == None
    case Ended(Raised(e)) => it.state == Failed && it.value == None && it.exception == Some(e)
    case Overran => it.state == TimedOut && it.value == None && it.exception == Some(TIMEOUT_ERROR)
  }

  // --- the record of one index, by where it is ---

  ghost predicate FlightOk(cfg: Config, p: Phase, it: Item, h: seq<Attempt>, clock: real, stopping: bool) {
    && it.elapsed == Charged(h)
    && match p
       case Queued => ReadyOk(cfg, it, h, clock)
       case Taken => ReadyOk(cfg, it, h, clock)
       case Executing(since, nth) => ExecutingOk(cfg, since, nth, it, h, clock, stopping)
       case Reported(escaped) => ReportedOk(cfg, escaped, it, h, clock, stopping)
       case Done(escaped) => ReportedOk(cfg, escaped, it, h, clock, stopping)
       case Withdrawn =>
         stopping && it.state == Cancelled && it.attempts == |h| + 1 && AllRetried(cfg, h, |h|)
  }

  ghost predicate ReadyOk(cfg: Config, it: Item, h: seq<Attempt>, clock: real) {
    && it.state == Pending
    && it.value == None
    && it.attempts == |h| + 1
    && AllRetried(cfg, h, |h|)
    && (h != [] ==> Rested(cfg, Last(h), |h|, clock))
  }

  ghost predicate ExecutingOk(
    cfg: Config, since: real, nth: nat, it: Item, h: seq<Attempt>, clock: real, stopping: bool)
  {
    && (it.state == Running || (stopping && it.state == CancellationRequested))
    && it.value == None
    && it.startedAt == Some(since)
    && since <= clock
    && it.attempts == |h| == nth
    && h != []
    && Last(h) == Attempt(since, Open, 0.0, 0.0)
    && AllRetried(cfg, h, |h| - 1)
  }

  ghost predicate ReportedOk(
    cfg: Config, escaped: Option<Exc>, it: Item, h: seq<Attempt>, clock: real, stopping: bool)
  {
    && it.attempts == |h|
    && h != []
    && AllRetried(cfg, h, |h| - 1)
    && Last(h).start + Last(h).spent <= clock
    && Last(h).verdict.Ended?
    && escaped == EscapeOf(Last(h).verdict.outcome)
    && if it.state == RetryWait then
         Retryable(cfg, Last(h).verdict, |h|) && it.value == None
       else
         Concluded(it, Last(h).verdict) && (stopping || !Retryable(cfg, Last(h).verdict, |h|))
  }

  ghost predicate ParkedOk(cfg: Config, it: Item, due: real, h: seq<Attempt>, stopping: bool) {
    && (it.state == RetryWait || (stopping && it.state == Cancelled))
    && it.value == None
    && it.elapsed == Charged(h)
    && it.attempts == |h|
    && h != []
    && AllRetried(cfg, h, |h|)
    && Rested(cfg, Last(h), |h|, due)
  }

  ghost predicate DeliveredOk(cfg: Config, it: Item, h: seq<Attempt>) {
    && h != []
    && it.attempts == |h|
    && it.elapsed == Charged(h)
    && AllRetried(cfg, h, |h| - 1)
    && Concluded(it, Last(h).verdict)
    && !Retryable(cfg, Last(h).verdict, |h|)
  }

  // --- the data of a run ---

  /** Every name refers to something, and the three containers are disjoint. */
  ghost predicate Shape(c: Core) {
    && |c.slots| == |c.attempts| == c.nextIndex
    && (forall w :: 0 <= w < |c.items| ==> c.items[w].index < c.nextIndex)
    && (forall f :: 0 <= f < |c.futures| ==> c.futures[f].work < |c.items|)
    && (forall f :: f in c.inFlight ==> f < |c.futures| && c.inFlight[f] == c.futures[f].work)
    && (forall f :: f in c.abandoned ==> f < |c.futures| && f !in c.inFlight)
    && (forall w :: w in c.retryWait ==> w < |c.items|)
    && (forall k :: 0 <= k < |c.yielded| ==> c.yielded[k] < |c.items|)
  }

  /** Every pulled index is in exactly one place, and every occupied place is that of its index. */
  ghost predicate Placed(c: Core)
    requires Shape(c)
  {
    && (forall i :: 0 <= i < c.nextIndex && c.slots[i].InFlight? ==>
          c.slots[i].f in c.inFlight && c.items[c.inFlight[c.slots[i].f]].index == i)
    && (forall i :: 0 <= i < c.nextIndex && c.slots[i].Backoff? ==>
          c.slots[i].w in c.retryWait && c.items[c.slots[i].w].index == i)
    && (forall i :: 0 <= i < c.nextIndex && c.slots[i].Delivered? ==>
          c.slots[i].k < |c.yielded| && c.items[c.yielded[c.slots[i].k]].index == i)
    && (forall f :: f in c.inFlight ==> c.slots[c.items[c.inFlight[f]].index] == InFlight(f))
    && (forall w :: w in c.retryWait ==> c.slots[c.items[w].index] == Backoff(w))
    && (forall k :: 0 <= k < |c.yielded| ==> c.slots[c.items[c.yielded[k]].index] == Delivered(k))
  }

  /** Futures outside the containers are done, and an abandoned one is past its item's timeout. */
  ghost predicate Accounted(c: Core)
    requires Shape(c)
  {
    && (forall f :: 0 <= f < |c.futures| && f !in c.inFlight && f !in c.abandoned ==> c.futures[f].phase.Done?)
    && (forall f :: f in c.abandoned ==> StaleOk(c.futures[f].phase, c.WorkOf(f)))
  }

  predicate StaleOk(p: Phase, it: Item) {
    && it.state == TimedOut
    && (p.Executing? || p.Reported? || p.Done?)
  }

  ghost predicate Flying(cfg: Config, c: Core)
    requires Shape(c)
  {
    forall f :: f in c.inFlight ==>
      FlightOk(cfg, c.futures[f].phase, c.items[c.inFlight[f]],
               c.attempts[c.items[c.inFlight[f]].index], c.clock, c.stopping)
  }

  ghost predicate Parked(cfg: Config, c: Core)
    requires Shape(c)
  {
    forall w :: w in c.retryWait ==>
      ParkedOk(cfg, c.items[w], c.retryWait[w], c.attempts[c.items[w].index], c.stopping)
  }

  ghost predicate Finished(cfg: Config, c: Core)
    requires Shape(c)
  {
    forall k :: 0 <= k < |c.yielded| ==>
      DeliveredOk(cfg, c.items[c.yielded[k]], c.attempts[c.items[c.yielded[k]].index])
  }

  ghost predicate Recorded(cfg: Config, c: Core) {
    forall i :: 0 <= i < |c.attempts| ==>
      Genuine(cfg, i, c.attempts[i]) && Spaced(cfg, c.attempts[i])
  }

  /** Items carry the input they were pulled for. */
  ghost predicate Sourced(cfg: Config, c: Core) {
    && (forall i :: 0 <= i < c.nextIndex ==> cfg.input(i).Next?)
    && (forall w :: 0 <= w < |c.items| ==> cfg.input(c.items[w].index) == Next(c.items[w].arg))
    && (c.exhausted ==> cfg.input(c.nextIndex) == Stop)
  }

  ghost predicate CoreInv(cfg: Config, c: Core) {
    && c.clock >= 0.0
    && !c.broken
    && Shape(c)
    && Placed(c)
    && Accounted(c)
    && Flying(cfg, c)
    && Parked(cfg, c)
    && Finished(cfg, c)
    && Recorded(cfg, c)
    && Sourced(cfg, c)
  }

  // --- the coordinator ---

  ghost predicate LoopOk(cfg: Config, c: Core, l: Loop) {
    match l
    case OfCollect(done) => CollectOk(c, done)
    case OfScan(now, todo) => ScanOk(cfg, c, now, todo)
  }

  ghost predicate CollectOk(c: Core, done: set<Fid>) {
    && done <= c.inFlight.Keys + c.abandoned
    && forall f :: f in done ==> f < |c.futures| && c.futures[f].phase.Done?
  }

  ghost predicate ScanOk(cfg: Config, c: Core, now: real, todo: set<Fid>) {
    now <= c.clock && todo <= c.inFlight.Keys && cfg.taskTimeout.Some?
  }

  /** A wait that began at `from` ends, without any completion, no later than every moment at which
      the coordinator has something to do. */
  ghost predicate WaitOk(cfg: Config, c: Core, from: real, wake: real) {
    && from <= c.clock
    && from <= wake <= from + MAX_WAIT_SLICE
    && (forall w :: w in c.retryWait ==> wake <= Max(from, c.retryWait[w]))
    && (cfg.OverallDeadline().Some? ==> wake <= Max(from, cfg.OverallDeadline().value))
    && (cfg.taskTimeout.Some? ==> forall f :: f in c.inFlight && f < |c.futures| ==>
          OverrunAfter(cfg.taskTimeout.value, c.futures[f].phase, from, wake))
  }

  /** No execution of this future overruns before `wake`, unless it already had when the wait began:
      one that begins during the wait overruns a whole task timeout after that. */
  predicate OverrunAfter(taskTimeout: real, p: Phase, from: real, wake: real) {
    match p
    case Queued => wake <= from + taskTimeout
    case Taken => wake <= from + taskTimeout
    case Executing(since, _) => wake <= Max(from, since + taskTimeout)
    case _ => true
  }

  /** Something is there to wait for: an unreturned worker, or a due time. */
  predicate Awaited(c: Core) {
    c.inFlight != map[] || c.abandoned != {} || c.retryWait != map[]
  }

  ghost predicate Untouched(c: Core, parked: set<Wid>) {
    forall w :: w in parked ==> w in c.retryWait && w < |c.items| && c.items[w].state == RetryWait
  }

  ghost predicate Drained(c: Core, todo: set<Fid>) {
    forall f :: f in c.inFlight && f !in todo && f < |c.futures| ==> c.futures[f].phase != Queued
  }

  ghost predicate Emptied(c: Core, parked: set<Wid>) {
    forall w :: w in c.retryWait && w !in parked && w < |c.items| ==> c.items[w].state == Cancelled
  }

  ghost predicate ReturnOk(c: Core, why: Exit) {
    why == Exit.Returned ==> c.inFlight == map[] && c.retryWait == map[] && c.exhausted
  }

  ghost predicate LeakOk(c: Core, leak: set<Fid>) {
    && leak == (set f | f in c.inFlight && f < |c.futures| && c.futures[f].phase != Withdrawn) + c.abandoned
  }

  ghost predicate PcInv(cfg: Config, s: State) {
    var c := s.core;
    match s.pc
    case Head => !c.stopping
    case Turning(now) => !c.stopping && now <= c.clock
    case Asking(todo) => c.stopping && todo <= c.inFlight.Keys && Untouched(c, c.retryWait.Keys)
    case Resubmitting(now, due) =>
      !c.stopping && now <= c.clock && forall w :: w in due ==> w in c.retryWait && c.retryWait[w] <= now
    case Pulling => !c.stopping
    case Waiting(from, wake) => !c.stopping && Awaited(c) && WaitOk(cfg, c, from, wake)
    case Collecting(done) => !c.stopping && CollectOk(c, done)
    case Scanning(now, todo) => !c.stopping && ScanOk(cfg, c, now, todo)
    case Yielding(w, back) =>
      && !c.stopping
      && c.yielded != [] && c.yielded[|c.yielded| - 1] == w
      && LoopOk(cfg, c, back)
    case Cancelling(why, todo) =>
      && c.stopping && todo <= c.inFlight.Keys
      && ReturnOk(c, why) && Drained(c, todo) && Untouched(c, c.retryWait.Keys)
    case Dropping(why, parked) =>
      && c.stopping
      && ReturnOk(c, why) && Drained(c, {}) && Untouched(c, parked) && Emptied(c, parked)
    case Closed(why, leak) =>
      && c.stopping
      && ReturnOk(c, why) && Drained(c, {}) && Emptied(c, {}) && LeakOk(c, leak)
  }

  ghost predicate Inv(cfg: Config, s: State) {
    CoreInv(cfg, s.core) && PcInv(cfg, s)
  }
}

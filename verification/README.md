# A verified model of tanda's bounded scheduler

tanda runs a function over a stream of inputs on a thread pool, with a bounded number of executions
outstanding, retries with backoff, per-execution timeouts, an overall timeout and cooperative
cancellation. This project models the coordinator loop that does this, the workers and the clock that
race with it, the pool methods that read its stream of completions, and the pool's bookkeeping of who
drives it and what it still has to wait for. It proves what all of that guarantees, for every input,
every behaviour of the called function, every number of workers and every interleaving.

    dafny verify dfyconfig.toml

## How it is organised

* `TaskStates`, `Retry`, `WorkItems`: the transition table, the retry arithmetic, and the work item:
  a class whose methods are the critical sections of its lock, each specified by a function on records.
* `Protocol`: a run as a transition system. A `Core` holds the coordinator's three containers, the
  futures, the items and the clock; a `PC` says which loop the coordinator is in. One `Action` is one
  critical section or one iteration of one loop, so that workers, the clock and the token move between
  any two iterations, and the consumer may close the generator at any yield. `attempts` and `slots` are
  history: they are written, never read, by a step. A transition outside the table, a failing internal
  assertion or a missing dictionary key sets `broken`.
* `Invariants`, `Preservation`, `Steps`: one invariant relating future, item, container, attempt
  history and place of every index, kept by each of the 18 actions.
* `Safety`, `Teardown`, `Timing`, `Accounts`, `Termination`, `Progress`, `Causes`: what follows for all
  reachable states and all runs.
* `Window` bounds what a run has outstanding; `Holdings`, `Punctuality`, `WindowRounds` and
  `WindowExactness` find the least bound and exactly when it is within `max_pending`.
* `Effects`, `LoopEffects`, `Coordinator`: the loop itself as imperative code over shared `WorkItem`
  objects. Its class invariant says that its fields are those of a reachable protocol state, so every
  theorem about reachable states is one about the code. What happens outside the coordinator is read
  from an arbitrary script (`world`), at every point where the coordinator holds no lock; whether the
  consumer closes the generator at a yield is an arbitrary function of the items received (`reader`).
* `Consumers`, `Streams`: map, the collecting map, imap and imap_unordered over any stream that keeps
  the scheduler's promise. `EndToEnd` shows that every run keeps it, and composes the two halves: the
  pool's methods over an imperative run which their own reader leaves.
* `Fairness`, `Completion`: the loop without any bound on its turns, and that it ends, in every world that
  does the enabled work.
* `PoolBooks`: ownership and the leak set, over any history of claims, runs and closes by any threads.

The main results are these. A run that returns gives exactly what a sequential program gives that
retries each element on the spot (`EndToEnd.CollectIsSequential`, `EndToEnd.PoolMap`), and if the workers
work and the clock runs, the loop comes to its end (`Completion.RunToEnd`), so that map and the collecting
map are totally correct (`Completion.MapToEnd`, `Completion.CollectToEnd`). Every pulled
index is at all times in exactly one of delivered, in flight and backing off
(`Safety.IndicesAreConserved`). No reachable interleaving breaks an internal invariant
(`Safety.NothingBreaks`). Whoever finalizes an item first is the last to touch it
(`Safety.FinalItemsNeverChange`), and a timed-out execution reaches nothing but its own future
(`Safety.StaleExecutionsAreIsolated`). The largest number of futures a run can have outstanding is
known, and so is exactly when it is within `max_pending` (`WindowExactness.LoadBoundIsTight`,
`WindowExactness.WindowHoldsExactlyWhenSafe`). Every run makes a bounded number of productive steps
(`Termination.RunsAreBounded`) and can be continued to its end from wherever it is
(`Progress.RunsCanEnd`); every exit leaves nothing queued and hands over every unreturned worker
(`Teardown.NothingIsLeftBehind`). While a run is open no other thread can close its pool
(`PoolBooks.OpenRunsAreProtected`).

## Where the code and its documentation differ

The pool's documentation says that at most `max_pending` executions are outstanding. That does not
hold when timeouts are retried: an overrun execution keeps its slot as an abandoned future while its
clone takes another as a parked retry, and resubmission is not gated by the window. How many futures one
index can come to hold (`Holdings.Holdable`) is max_attempts or, with an overall deadline, one more than
the number of consecutive timeouts, with the shortest backoffs between them, for which there is time. The
window holds in every run exactly if no timeout is retried, or so many futures for each item of the first
window fit into it, or the input raises before the window is first full
(`WindowExactness.WindowHoldsExactlyWhenSafe`); for an input that fills the window this means that no
timeout is retried (`WindowExactness.FullWindowsAreNeverSafe`).

## Model

| member | source | states |
|---|---|---|
| TaskStates.LegalHistoriesNeverRerunFinishedWork | src/tanda/_states.py:39-72 | Along any history of legal moves a terminal state is the last one, and every execution after the first was preceded by its own stay in RETRY_WAIT |
| TaskStates.WaysInto | src/tanda/_states.py:39-66 | From which states each state can be reached: an item runs only from PENDING, is parked or asked to stop only while it runs, is never cancelled while it runs, and has a result only after having run |
| Retry.ExponentialBackoffDoubles | src/tanda/retry.py:67-78 | n exponential delays without jitter add up to backoff * (2^n - 1) |
| Retry.DelaysAreNonNegative | src/tanda/retry.py:43-78 | Every delay a valid policy may draw, with or without jitter, is non-negative |
| Retry.DelaysInClosedForm | src/tanda/retry.py:67-78 | The delays that may be drawn after n executions are exactly backoff, or backoff * 2^(n-1), or with jitter anything from zero up to that |
| WorkItems.FirstFinalizerWins | src/tanda/_scheduler.py:93-158 | A late report after a timeout changes nothing; a timeout scan, and the defensive recording, after a report change nothing; both first moves are legal |
| WorkItems.WorkItem.constructor | src/tanda/_scheduler.py:70-79 | A new item is pending, at its first attempt, with nothing elapsed |
| WorkItems.WorkItem.Advance | src/tanda/_scheduler.py:81-84 | The state advances exactly if the table allows it; otherwise nothing changes and the check raises |
| WorkItems.WorkItem.Start | src/tanda/_scheduler.py:88-91 | The whole new record, and whether the transition was legal |
| WorkItems.WorkItem.FinishWithValue | src/tanda/_scheduler.py:93-100 | A timed-out item is left alone; otherwise value, elapsed and a cleared exception are written before the transition is checked |
| WorkItems.WorkItem.FinishWithFailure | src/tanda/_scheduler.py:102-118 | A timed-out item is left alone; otherwise elapsed and exception are written, and a running item is parked exactly if the failure is no cancellation, max_attempts leaves room and its classes meet retry_on; else it is failed |
| WorkItems.WorkItem.FinishWithEscape | src/tanda/_scheduler.py:120-136 | An exception outside Exception finalizes the item as failed and is never retried |
| WorkItems.WorkItem.Report | src/tanda/_scheduler.py:431-443 | The worker's dispatch on what its call did is the specification function used by the protocol |
| WorkItems.WorkItem.Deadline | src/tanda/_scheduler.py:140-144 | A deadline exists exactly for a running, started item |
| WorkItems.WorkItem.TimeOut | src/tanda/_scheduler.py:146-158 | Fires exactly if the item is running and has run for at least the task timeout, charging the observed time; otherwise nothing changes |
| WorkItems.WorkItem.CancelIfIdle | src/tanda/_scheduler.py:160-164 | Only a pending or parked item becomes cancelled |
| WorkItems.WorkItem.AskToStop | src/tanda/_scheduler.py:166-170 | Only a running item is asked |
| WorkItems.WorkItem.RearmForRetry | src/tanda/_scheduler.py:289-291 | The attempt count goes up and a parked item becomes pending |
| WorkItems.WorkItem.RecordEscape | src/tanda/_scheduler.py:446-464 | An exception that reached the future is recorded only on an item that is not final |
| WorkItems.WorkItem.Clone | src/tanda/_scheduler.py:172-185 | A fresh object that continues attempts and elapsed, parked; the original is unchanged |
| Steps.StepKeepsInv | src/tanda/_scheduler.py:270-381 | Every action of coordinator, workers, clock, token and consumer keeps the invariant |
| Steps.ReachableStatesAreSound | src/tanda/_scheduler.py:224-381 | The invariant holds at every moment of every run |
| Safety.IndicesAreConserved | src/tanda/_scheduler.py:287-369 | The indices 0..next_index-1 are the disjoint union of those yielded, in flight and backing off, each present once |
| Safety.ReturningMeansEverythingWasDelivered | src/tanda/_scheduler.py:306-313 | A normal return means the input has ended and every input was yielded, whatever abandoned executions still run |
| Safety.NothingBreaks | src/tanda/_scheduler.py:339-369 | No reachable interleaving attempts an illegal transition, trips an internal assertion or looks up a missing key |
| Safety.StepsMoveItemsLegally | src/tanda/_states.py:39-72 | One action leaves final items alone and moves every other along the table, and only a pending or parked item is ever cancelled |
| Safety.FinalItemsNeverChange | src/tanda/_scheduler.py:93-158 | A final item has the same state, value, exception, attempts and elapsed after any further run |
| Safety.StaleExecutionsAreIsolated | src/tanda/_scheduler.py:172-185 | Whatever a timed-out execution does later changes only its own future: no item, container or history |
| Safety.HistoryIsRetryLoop | src/tanda/_scheduler.py:102-118 | A recorded history that is over is the run of the sequential retry loop on the outcomes of its executions |
| Safety.DeliveredItemsAreRetryLoops | src/tanda/_scheduler.py:339-369 | A yielded item has the attempts and the outcome of the sequential retry loop over its index, over exactly the executions begun |
| Safety.WithoutTimeoutNothingOverran | src/tanda/_scheduler.py:353-360 | Without a timeout per execution the result depends on the outcomes alone |
| Safety.OnlyDefinitiveOutcomesAreYielded | src/tanda/_scheduler.py:343-369 | Only success, failure and timeout are yielded, with the value or exception of the last execution; a failure only if it is no Exception, is a cancellation, max_attempts is used up, or none of its classes is in retry_on, and a timeout only if max_attempts is used up or retry_on matches no TimeoutError |
| Safety.RepeatedOnlyOnRequest | src/tanda/retry.py:62-65 | An execution is followed by another only if it raised an Exception that is no cancellation and is an instance of a class in retry_on, or overran and a TimeoutError is one, and max_attempts leaves room |
| Safety.FuturesCarryEscapes | src/tanda/_scheduler.py:431-443 | A future carries an exception exactly if the call raised what is no Exception |
| Safety.FinalItemsAreWhole | src/tanda/_scheduler.py:93-185 | Every item at every moment, the timed-out originals of clones included: a success carries a value and no exception, a failure or timeout carries an exception, and nothing but a success carries a value |
| Safety.ExecutionsAreBounded | src/tanda/retry.py:62-65 | No index is executed more often than max_attempts, and without a policy not more than once |
| Teardown.NothingIsLeftBehind | src/tanda/_scheduler.py:370-381 | After every exit nothing is queued, withdrawn and parked items are cancelled, and the leak set is exactly the in-flight futures not withdrawn and the abandoned ones, every unreturned future among them |
| Teardown.OnlyTakenWorkBeginsAfterwards | src/tanda/_scheduler.py:467-475 | After a run is closed, calls begin only on futures a worker had already taken, and nothing more is yielded |
| Teardown.WaitingIsForSomething | src/tanda/_scheduler.py:306-337 | At every wait a future is outstanding or a backoff is running; without any future, the wait ends by a due time |
| Teardown.WaitsCanEnd | src/tanda/_scheduler.py:188-200 | No wait watches a withdrawn future, which would never be reported as done |
| Causes.EndsAreJustified | src/tanda/_scheduler.py:271-305 | A run raises Cancelled only if cancellation was requested, OverallTimeout only once the overall timeout has passed, an input error only if the next answer of the input is that error; it returns only with nothing in flight or parked and the input at its end, and is closed by its consumer only at a yield |
| Timing.WaitsAreShortEnough | src/tanda/_scheduler.py:315-417 | A wait lasts at most half a second, and never extends past a due time, the overall timeout, or the deadline of any execution in flight, including one that begins during the wait |
| LoopEffects.WaitsAreNoShorter | src/tanda/_scheduler.py:315-417 | A wait is cut below half a second only by a due time, the overall timeout, the deadline of a running item, or a whole task timeout from now while something is in flight, and lasts just until then |
| Timing.NothingIsEarly | src/tanda/_scheduler.py:146-158 | No retry is resubmitted before it is due, and nothing is timed out before the whole timeout has passed since it began |
| Timing.ExecutionsAreSpaced | src/tanda/_scheduler.py:287-367 | Consecutive executions of an index are apart by the time charged and a delay the policy allows, after failures and timeouts alike |
| Timing.BackoffsAddUp | src/tanda/retry.py:67-78 | The n-th execution begins no earlier than the first plus all delays in between |
| Timing.ExponentialBackoffHolds | src/tanda/retry.py:67-78 | Under exponential backoff without jitter the last of a executions begins at least backoff * (2^(a-1) - 1) after the first |
| Timing.FixedBackoffHolds | src/tanda/retry.py:67-78 | Under fixed backoff without jitter consecutive executions of an index begin at least the backoff apart |
| Timing.ElapsedIsConserved | src/tanda/_scheduler.py:93-185 | A yielded item's elapsed is the sum of what its executions were charged, through clones, and at least the timeout for each that overran |
| Window.WindowIsBounded | src/tanda/_scheduler.py:293-369 | In flight plus parked never exceed max_pending; with abandoned futures the total never exceeds max_pending if timeouts are not retried, nor max_attempts for each slot of the window and for each index pulled if they are |
| Punctuality.LoadIsHoldable | src/tanda/_scheduler.py:271-369 | With retried timeouts the total never exceeds, for each slot of the window and for each index pulled, what max_attempts and the overall deadline leave one index to hold |
| WindowExactness.HoldableIsAtLeastTwo | src/tanda/_scheduler.py:353-369 | If timeouts are retried an index can hold at least two futures and at most max_attempts, and exactly max_attempts without an overall deadline |
| WindowExactness.AllCanBeOutstanding | src/tanda/_scheduler.py:353-369 | If every execution of the first window hangs, in some run all its items hold at once all they can |
| WindowExactness.LoadBoundIsTight | src/tanda/_scheduler.py:293-369 | The largest total over all runs is exactly what the items of the first window can hold, for any input, window, policy and deadline with retried timeouts |
| WindowExactness.WindowHoldsExactlyWhenSafe | src/tanda/_scheduler.py:293-369 | max_pending bounds the total in every run if and only if no timeout is retried, or what the items of the first window can hold fits into it, or the input raises before it is first full |
| WindowExactness.FullWindowsAreNeverSafe | src/tanda/_scheduler.py:293-369 | For an input that fills the window, that condition is that no timeout is retried |
| Termination.StepDecreases | src/tanda/_scheduler.py:271-369 | Over a finite input, whether it stops or raises, every productive step decreases a natural-number measure and no step increases it |
| Termination.RunsAreBounded | src/tanda/_scheduler.py:271-369 | Over n inputs, after which the input stops or raises, with at most M attempts each, no run makes more than n * (7M + 1) + 1 productive steps |
| Progress.RunsCanEnd | src/tanda/_scheduler.py:271-381 | From every reachable state over a finite input some continuation closes the run; and unless a request, an overall deadline, an input error or an exit under way stands against it, some continuation makes it return with everything delivered |
| Coordinator.Run.constructor | src/tanda/_scheduler.py:258-265 | A new run is the initial state of the protocol |
| Coordinator.Run.BeginStep | src/tanda/_scheduler.py:431-432 | A worker begins: the item's legal transition and the future's phase are the protocol's step |
| Coordinator.Run.FinishStep | src/tanda/_scheduler.py:433-443 | A worker reports: legal in every reachable state, and the protocol's step |
| Coordinator.Run.Others | src/tanda/_scheduler.py:339-369 | Between two steps of the coordinator exactly those of the scripted actions happen that are possible in their turn; its containers and its place stay, the clock never goes back and a request is never withdrawn |
| Coordinator.Run.AskAll | src/tanda/_scheduler.py:273-282 | Before Cancelled is raised every in-flight item is asked, one by one: none that had begun when asked is still running afterwards |
| Coordinator.Run.ResubmitStep | src/tanda/_scheduler.py:287-292 | One due item is removed, counted, made pending and submitted |
| Coordinator.Run.ResubmitDue | src/tanda/_scheduler.py:287-292 | Exactly the items due at the start of the turn have left the retry map and are in flight again under new futures; the others are parked as before |
| Coordinator.Run.PullStep | src/tanda/_scheduler.py:298-305 | One next(): a new item in flight, the end of the input, or an input error that ends the run |
| Coordinator.Run.PullInput | src/tanda/_scheduler.py:293-305 | Pulls until the window is full, the input has ended or an input error ends the run, and terminates |
| Coordinator.Run.NextWakeup | src/tanda/_scheduler.py:390-417 | The time to the least of all due times, the overall deadline and the executions' deadlines; none exactly if there is no such moment |
| Coordinator.Run.RunningDeadlines | src/tanda/_scheduler.py:404-408 | The deadlines of exactly the running in-flight items |
| Coordinator.Run.BeginWait | src/tanda/_scheduler.py:315-324 | The wake-up time is that of the earliest moment to act, at most half a second away, and not earlier without a reason |
| Coordinator.Run.Wait | src/tanda/_scheduler.py:315-337 | The wait is entered with a correct wake-up time, ends interrupted exactly if an interrupt arrives, and otherwise reports exactly those of the futures handed back by wait() that are watched and done at its end; a watched future that is served is then done and reported, or something has moved |
| Coordinator.Run.Delay | src/tanda/retry.py:67-78 | The delay drawn is the configured backoff in closed form; under jitter, the amount drawn |
| Coordinator.Run.CollectStep | src/tanda/_scheduler.py:339-351 | Which of three things happened to a done future: it frees the slot of an abandoned one; or its item asks for a retry and is parked for exactly the configured backoff; or its item, final, is the next one yielded; the recording and the internal assertion cannot fail |
| Coordinator.Run.ParkCompleted | src/tanda/_scheduler.py:345-349 | The future leaves the in-flight map and its item is parked for exactly the configured backoff |
| Coordinator.Run.DeliverCompleted | src/tanda/_scheduler.py:350-351 | The future leaves the in-flight map and its item is the next one yielded |
| Coordinator.Run.ScanStep | src/tanda/_scheduler.py:355-369 | Exactly an execution running past its deadline is abandoned; its clone is parked for exactly the configured backoff if the policy repeats a timeout, and otherwise the item is yielded |
| Coordinator.Run.ParkOverrun | src/tanda/_scheduler.py:358-367 | The future is abandoned and a new item continuing its attempts is parked in its place for exactly the configured backoff |
| Coordinator.Run.DeliverOverrun | src/tanda/_scheduler.py:358-369 | The future is abandoned and its item is the next one yielded |
| Coordinator.Run.Yield | src/tanda/_scheduler.py:350-369 | The generator is closed exactly if the reader, given all items so far, closes it; otherwise the loop that yielded is resumed, with only the moves of the others in between |
| Coordinator.Run.CollectAll | src/tanda/_scheduler.py:339-351 | Unless the run is left at a yield, every future of the done set has left both containers and its item is yielded or parked, with everybody moving in between |
| Coordinator.Run.ScanAll | src/tanda/_scheduler.py:353-369 | Unless the run is left at a yield, what has left the in-flight map is abandoned and was in the snapshot, and nothing of the snapshot that is still in flight is running past its deadline at the time read when the scan began |
| Coordinator.Run.Turn | src/tanda/_scheduler.py:271-369 | A turn leads from loop head to loop head through one finished wait, or into the teardown with everything in flight still to cancel; a request or an expired overall timeout is always noticed, the request first; what was running past its deadline when the turn began is no longer in flight after it; and the turn makes progress if what the coordinator waits for happens |
| Coordinator.Run.Finalize | src/tanda/_scheduler.py:370-381 | The teardown ends closed, with the leak set of the protocol |
| Coordinator.Run.CancelStep | src/tanda/_scheduler.py:467-475 | A future no worker has taken is withdrawn and its item cancelled; any other is left alone |
| Coordinator.Run.Drive | src/tanda/_scheduler.py:270-381 | Up to a given number of turns, one finished wait each, stays within the reachable states of the protocol and ends at the loop head or closed |
| Consumers.DefinitiveItemsAreNoInternalErrors | src/tanda/pool.py:94-126 | For the items the scheduler promises, unwrapping gives the value of a success and otherwise raises the right error with all its fields: a cancellation or non-Exception as it is, a timeout as TaskTimeout, any other failure as TaskError |
| Consumers.Map | src/tanda/pool.py:355-375 | All values under their own index; or the error, category and fields, of the first item in completion order that is no success; or the stream's error; never an internal error |
| Consumers.Assemble | src/tanda/pool.py:369-375 | The values by consecutive keys, or the internal error exactly if a key is missing |
| Consumers.Collect | src/tanda/pool.py:626-685 | Both lists sorted, every item reported once on its side, no cancellation and no non-Exception among the failures; or the first outcome that must not be collected; or the stream's error; never an internal error |
| Consumers.SortedReportsAreUnique | src/tanda/pool.py:683-685 | Sorted reports are determined by what they contain |
| Streams.OrderedStream.constructor | src/tanda/pool.py:441-447 | A new stream has pulled and yielded nothing |
| Streams.OrderedStream.Next | src/tanda/pool.py:449-473 | One resumption: a pull happens only while the next index is missing; a failure finds the longest contiguous prefix yielded; a plain end means all was yielded in order; a closed pool is noticed before anything else |
| Streams.OrderedStream.Emit | src/tanda/pool.py:452-455 | The next index leaves the buffer, which still holds exactly the completed rest |
| Streams.OrderedStream.PullCompletion | src/tanda/pool.py:456-462 | A completion is held, or its failure ends the stream at once with the longest prefix yielded |
| Streams.OrderedStream.Finish | src/tanda/pool.py:463-473 | At the end nothing is held: the non-contiguous error is unreachable |
| Streams.DrainOrdered | src/tanda/pool.py:377-473 | The whole of imap: the list of values in input order, or the maximal prefix before the first failure and that failure's error, category and fields |
| Streams.DrainUnordered | src/tanda/pool.py:535-555 | The values in completion order up to the first item that is no success, and that item's error, category and fields |
| PoolBooks.OwnershipHolds | src/tanda/pool.py:221-253 | Over any history the depth is the number of open claims, all the owner's, there is an owner exactly while there are claims, and the guard at a release never skips |
| PoolBooks.OpenRunsAreProtected | src/tanda/pool.py:221-253 | Over any history, while a run is open the pool is owned by the thread that opened it, and a claim or a close by any other thread is refused and changes nothing |
| PoolBooks.LeaksAreComplete | src/tanda/pool.py:215-219 | Over any history, refused closes during a run included: while no run is open on an unclosed pool, the unfinished futures are exactly the leaked ones that are not done, and no withdrawn one is among them |
| PoolBooks.ClosingIsFinal | src/tanda/pool.py:576-612 | A close that is not refused leaves the pool closed whatever follows, and no claim is taken and no run opened again; a refused one changes nothing |
| PoolBooks.Pool.Begin | src/tanda/pool.py:336-342 | A batch starts exactly on an open pool that no other thread owns; a closed pool is noticed before anything is claimed |
| PoolBooks.Pool.Enter | src/tanda/pool.py:232-242 | A claim is refused exactly if another thread owns the pool |
| PoolBooks.Pool.Leave | src/tanda/pool.py:243-253 | A release always gives one claim back, on whatever thread it runs |
| PoolBooks.Pool.RecordLeaks | src/tanda/pool.py:215-219 | The leak set after a run's teardown covers every unfinished future once no run is open |
| PoolBooks.Pool.Shutdown | src/tanda/pool.py:576-610 | Refused, with nothing changed, exactly if another thread owns the pool, whether or not a run is open; otherwise the pool is closed, and a bounded close waits for exactly the unfinished futures and reports exactly those still unfinished |
| EndToEnd.StreamsKeepTheirPromise | src/tanda/_scheduler.py:339-369 | Every run, however it ends, gives its reader definitive items, no index twice, and all indices if it simply ends |
| EndToEnd.CollectIsSequential | src/tanda/pool.py:626-685 | The collected batch of a run that returns is that of a sequential loop which retries each element on the spot and collects every value and every failure that may be collected |
| EndToEnd.MapIsSequential | src/tanda/pool.py:355-375 | The list map returns holds for each index what the retry loop over it returns |
| EndToEnd.MapIsComprehension | src/tanda/pool.py:355-375 | For a total, deterministic function without timeouts every yielded item is a first-attempt success with fn of its own input |
| EndToEnd.OutcomesDoNotDependOnTheSchedule | src/tanda/_scheduler.py:271-369 | Without timeouts per execution, two returning runs over the same input agree on all attempts and outcomes, whatever their windows, workers and interleavings |
| EndToEnd.Execute | src/tanda/_scheduler.py:270-381 | The imperative run: all delivered when it returns, all yielded items as the sequential program has them, nothing queued and every unreturned worker handed over when it ends |
| EndToEnd.PoolMap | src/tanda/pool.py:283-375 | map over a real run, told by the sequential retry loops: index by index what they return, and [fn(x) for x in items] for a total function; or, at the first loop in completion order that gives no value, which is the last item yielded, TaskError, TaskTimeout or the exception itself with all fields; or the very error that ended the run |
| EndToEnd.PoolCollect | src/tanda/pool.py:626-685 | The collecting map over a real run: the batch of the sequential program, none of whose loops ends in a cancellation or a non-Exception; or the exception of the first loop in completion order that does, which is the last item yielded; or the very error that ended the run |
| EndToEnd.PoolImap | src/tanda/pool.py:419-473 | imap over a real run: the sequential results in input order; or, at the first failure, the longest prefix that had completed before it, with the run left at that yield and TaskError, TaskTimeout or the exception itself raised; or the same prefix and the very error that ended the run |
| EndToEnd.PoolImapUnordered | src/tanda/pool.py:535-555 | imap_unordered over a real run: what the sequential retry loops return, in the order of completion, up to the first failure, at whose yield the run is left, or the error that ended the run |
| EndToEnd.RaisingReaderLeavesAtTheFirstFailure | src/tanda/pool.py:355-375 | A run read by map or imap is left by it exactly at the first item that is no success |
| EndToEnd.CollectingReaderLeavesAtTheFirstEscape | src/tanda/pool.py:648-685 | A run read by the collecting map is left by it exactly at the first outcome that must not be collected |
| EndToEnd.MapAndImapAgree | src/tanda/pool.py:446-473 | Where both succeed, imap yields the list that map returns |
| EndToEnd.RunsAreTornDown | src/tanda/_scheduler.py:375-381 | What a run hands over at its end is what the pool's leak bookkeeping demands |
| Completion.RunToEnd | src/tanda/_scheduler.py:270-381 | The endless loop over a finite input comes to its end in every world in which every future is sooner or later served, the clock passes every time, and nobody interrupts or requests anything; and then it was not cancelled or interrupted |
| Completion.SomeWorldIsFair | src/tanda/_scheduler.py:326-337 | There are such worlds |
| Completion.ExecuteToEnd | src/tanda/_scheduler.py:270-381 | In such a world a run over an input that stops, without an overall timeout and with a reader that never closes, returns with all n items delivered as the sequential program has them |
| Completion.MapToEnd | src/tanda/pool.py:283-375 | In such a world map over n items with a total function and without timeouts comes to an end and gives [fn(x) for x in items] |
| Completion.CollectToEnd | src/tanda/pool.py:626-685 | In such a world the collecting map comes to an end, and if every failure may be collected gives the batch of the sequential program over all n items |

## Left out

- Threads and futures themselves: a future runs its worker function at most once, `cancel()` succeeds
  exactly while no worker has taken it, and nobody else cancels futures during a run, as the scheduler's
  borrowing contract demands. The number of workers is not bounded, so every number is covered.
- Time: one monotone clock over the reals stands for both clocks of the code. `spent` may be any amount
  up to the time since the execution began, and jitter any amount up to the delay. Floating-point
  rounding and the overflow of a very long exponential delay are not modelled.
- Coordinator.Run.NextWakeup: reads the items' deadlines and the clock at one moment, where the code
  locks one item after the other.
- Coordinator.Run.Drive: the endless loop is cut after an arbitrary number of turns, since in an
  arbitrary world it need not end; Completion.RunToEnd runs it without a bound.
- Coordinator.Run.Others: the outside world is an arbitrary script, and an entry that is not possible
  when its turn comes is skipped.
- Iteration order over dictionaries and sets is arbitrary, and `wait` may report any of the done futures.
- Safety.NothingBreaks: `submit`, the policy's methods and memory allocation do not fail unexpectedly.
  KeyboardInterrupt reaches the coordinator between two iterations of its loops or in the wait, never
  inside one; `Coordinator.Run` is interrupted only in the wait.
- PoolBooks.LeaksAreComplete: the owner does not close the pool while one of its own streams is
  suspended, and no second thread enters between the ownership check of `close` and its effect.
- PoolBooks.Pool.Shutdown: the default taken from `shutdown_timeout`, its validation, and the executor's
  own shutdown are not part of the model; the two `done()` snapshots are parameters.
- Consumers.Map: reads the finished sequence of completions; that it closes the generator at the first
  failure is stated by EndToEnd.PoolMap, over a run that its reader leaves.
- Consumers.Collect: likewise; EndToEnd.PoolCollect states where the run is left.
- Progress reporting, logging, exception messages, argument validation, the result classes and the
  cancellation wrapper: no behaviour of theirs enters a result.

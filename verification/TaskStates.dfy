/** The life-cycle states of a work item and the only moves allowed between them. */
module TaskStates {

  datatype TaskState =
    | Pending
    | Running
    | RetryWait
    | CancellationRequested
    | Success
    | Failed
    | TimedOut
    | Cancelled
  {
    predicate Terminal() {
      Success? || Failed? || TimedOut? || Cancelled?
    }
  }

  /** The transition table. */
  function LegalTransitions(s: TaskState): set<TaskState> {
    match s
    case Pending => {Running, Cancelled}
    case Running => {Success, RetryWait, Failed, TimedOut, CancellationRequested}
    case RetryWait => {Pending, Cancelled}
    case CancellationRequested => {Success, Failed, TimedOut, Cancelled}
    case Success => {}
    case Failed => {}
    case TimedOut => {}
    case Cancelled => {}
  }

  predicate Legal(s: TaskState, t: TaskState) {
    t in LegalTransitions(s)
  }

  /** The table read backwards: an item runs only from PENDING, is parked or asked to stop only while it runs,
      becomes pending again only from its backoff, is never cancelled while it runs, and has a result only
      after having run. */
  lemma WaysInto(s: TaskState)
    ensures Legal(s, Running) <==> s == Pending
    ensures Legal(s, Pending) <==> s == RetryWait
    ensures Legal(s, RetryWait) <==> s == Running
    ensures Legal(s, CancellationRequested) <==> s == Running
    ensures Legal(s, Cancelled) <==> s == Pending || s == RetryWait || s == CancellationRequested
    ensures forall t :: t in {Success, Failed, TimedOut} ==>
              (Legal(s, t) <==> s == Running || s == CancellationRequested)
  {
  }

  /** A history of states in which every move is legal. */
  ghost predicate LegalHistory(h: seq<TaskState>) {
    forall k :: 0 <= k < |h| - 1 ==> Legal(h[k], h[k + 1])
  }

  function Visits(h: seq<TaskState>, s: TaskState): nat {
    if h == [] then 0 else Visits(h[..|h| - 1], s) + (if h[|h| - 1] == s then 1 else 0)
  }

  /** Along any legal history that starts out Pending, completed work is never re-run: a
      terminal state can only be the last one, and every execution after the first was paid
      for by its own stay in RetryWait. */
  lemma {:induction false} LegalHistoriesNeverRerunFinishedWork(h: seq<TaskState>)
    requires h != [] && h[0] == Pending && LegalHistory(h)
    ensures forall k :: 0 <= k < |h| - 1 ==> !h[k].Terminal()
    ensures Visits(h, Running) <= 1 + Visits(h, RetryWait)
    ensures h[|h| - 1] == Pending ==> Visits(h, Running) == Visits(h, RetryWait)
    ensures h[|h| - 1] == Running ==> Visits(h, Running) == 1 + Visits(h, RetryWait)
    ensures h[|h| - 1] == RetryWait ==> Visits(h, Running) == Visits(h, RetryWait)
  {
    if |h| == 1 {
      assert h[..0] == [];
    } else {
      var g := h[..|h| - 1];
      LegalHistoriesNeverRerunFinishedWork(g);
      assert Legal(h[|h| - 2], h[|h| - 1]);
      assert g[|g| - 1] == h[|h| - 2];
      forall k | 0 <= k < |h| - 1 ensures !h[k].Terminal() {
        if k < |h| - 2 {
          assert !g[k].Terminal();
        }
      }
    }
  }
}

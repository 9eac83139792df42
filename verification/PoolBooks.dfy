/** Who may drive a pool, and which futures it still has to wait for, over any history of runs. */
module PoolBooks {
  import opened Retry

  type ThreadId = nat
  type RunId = nat
  type Fid = nat

  /** A run that has not ended: the thread under whose claim it was opened, and what it submitted. */
  datatype Run = Run(thread: ThreadId, futures: set<Fid>)

  /** A pool's own fields, and the history they are about: the claims not yet released, the runs not
      yet ended, and what became of every future. */
  datatype Books = Books(
    owner: Option<ThreadId>,
    depth: int,
    leaked: set<Fid>,
    open: bool,
    claims: multiset<ThreadId>,
    runs: map<RunId, Run>,
    submitted: set<Fid>,
    finished: set<Fid>,
    withdrawn: set<Fid>)
  {
    /** Future.done(). */
    predicate IsDone(f: Fid) {
      f in finished || f in withdrawn
    }

    /** The open runs of a thread. */
    function RunsOf(t: ThreadId): set<RunId> {
      set r | r in runs && runs[r].thread == t
    }

    /** The futures some worker is still busy with, or that still wait in the queue. */
    function Unfinished(): set<Fid> {
      submitted - finished - withdrawn
    }
  }

  datatype Event =
    | Claim(thread: ThreadId)
    | Release(thread: ThreadId)
    | OpenRun(run: RunId, thread: ThreadId)
    | Submit(run: RunId, f: Fid)
    | FinishFuture(f: Fid)
    | EndRun(run: RunId, withdrawn: set<Fid>, leak: set<Fid>)
    | Close(thread: ThreadId, timeout: Option<real>)

  /** What a run's teardown guarantees about its futures. */
  ghost predicate TornDown(futures: set<Fid>, finished: set<Fid>, withdrawn: set<Fid>, leak: set<Fid>) {
    && leak <= futures && withdrawn <= futures && leak !! withdrawn
    && forall f :: f in futures ==> f in finished || f in withdrawn || f in leak
  }

  predicate Refuses(b: Books, t: ThreadId) {
    b.owner.Some? && b.owner.value != t
  }

  /** A claim may be refused. It is released with the ident captured when it was taken, by whatever
      thread finalizes the generator; a run is opened inside a claim of its thread, and is closed before
      that claim is released. A close by any thread may come at any time, unless it is the owner's own
      while one of its runs is suspended. */
  ghost predicate Can(b: Books, e: Event) {
    match e
    case Claim(_) => b.open
    case Release(t) => |b.RunsOf(t)| < b.claims[t]
    case OpenRun(r, t) => b.open && r !in b.runs && |b.RunsOf(t)| < b.claims[t]
    case Submit(r, f) => r in b.runs && f !in b.submitted
    case FinishFuture(f) => f in b.submitted && f !in b.withdrawn
    case EndRun(r, withdrawn, leak) =>
      r in b.runs && withdrawn !! b.finished && TornDown(b.runs[r].futures, b.finished, withdrawn, leak)
    case Close(t, _) => Refuses(b, t) || b.runs == map[]
  }

  function DoClaim(b: Books, t: ThreadId): Books {
    if Refuses(b, t) then b
    else b.(owner := Some(t), depth := b.depth + 1, claims := b.claims + multiset{t})
  }

  /** The guard leaves another coordinator's claim alone. */
  function DoRelease(b: Books, t: ThreadId): Books {
    var c := b.(claims := b.claims - multiset{t});
    if b.owner != Some(t) then c
    else c.(depth := b.depth - 1, owner := if b.depth - 1 == 0 then None else b.owner)
  }

  function DoRecordLeaks(b: Books, futures: set<Fid>): Books {
    b.(leaked := (set f | f in b.leaked && !b.IsDone(f)) + futures)
  }

  function DoClose(b: Books, t: ThreadId, timeout: Option<real>): Books {
    if Refuses(b, t) || !b.open then b
    else b.(open := false, leaked := if timeout.None? then b.leaked else {})
  }

  function Do(b: Books, e: Event): Books {
    match e
    case Claim(t) => DoClaim(b, t)
    case Release(t) => DoRelease(b, t)
    case OpenRun(r, t) => b.(runs := b.runs[r := Run(t, {})])
    case Submit(r, f) =>
      b.(submitted := b.submitted + {f},
         runs := if r in b.runs then b.runs[r := Run(b.runs[r].thread, b.runs[r].futures + {f})] else b.runs)
    case FinishFuture(f) => b.(finished := b.finished + {f})
    case EndRun(r, withdrawn, leak) =>
      DoRecordLeaks(b.(runs := b.runs - {r}, withdrawn := b.withdrawn + withdrawn), leak)
    case Close(t, timeout) => DoClose(b, t, timeout)
  }

  const EMPTY: Books := Books(None, 0, {}, true, multiset{}, map[], {}, {}, {})

  ghost predicate History(b: Books, es: seq<Event>, c: Books)
    decreases |es|
  {
    if es == [] then b == c
    else Can(b, es[0]) && History(Do(b, es[0]), es[1..], c)
  }

  // --- ownership ---

  /** The depth counts the open claims, all of them are the owner's, and there is an owner exactly
      while there are claims. */
  ghost predicate Counted(b: Books) {
    && b.depth == |b.claims|
    && (b.owner.None? <==> b.claims == multiset{})
    && forall t :: t in b.claims ==> b.owner == Some(t)
  }

  /** Every open run has a claim of its own thread. */
  ghost predicate Covered(b: Books) {
    forall t :: |b.RunsOf(t)| <= b.claims[t]
  }

  ghost predicate Owned(b: Books) {
    Counted(b) && Covered(b)
  }

  ghost predicate InSomeRun(b: Books, f: Fid) {
    exists r :: r in b.runs && f in b.runs[r].futures
  }

  /** Every unfinished future is known to an open run or to the leak set, and the leak set holds no
      withdrawn future, on which a wait would never end. */
  ghost predicate Watched(b: Books) {
    && (b.open ==> forall f :: f in b.Unfinished() ==> f in b.leaked || InSomeRun(b, f))
    && b.leaked !! b.withdrawn && b.leaked <= b.submitted
    && b.finished !! b.withdrawn && b.withdrawn <= b.submitted && b.finished <= b.submitted
    && (forall r :: r in b.runs ==>
          b.runs[r].futures <= b.submitted && b.runs[r].futures !! b.withdrawn && b.runs[r].futures !! b.leaked)
    && (forall r, q :: r in b.runs && q in b.runs && r != q ==> b.runs[r].futures !! b.runs[q].futures)
    && (!b.open ==> b.runs == map[])
  }

  lemma ClaimsStayCounted(b: Books, t: ThreadId)
    requires Counted(b)
    ensures Counted(DoClaim(b, t))
    ensures t in b.claims ==> Counted(DoRelease(b, t)) && DoRelease(b, t).depth == b.depth - 1
  {
    if t in b.claims {
      var c := b.claims - multiset{t};
      assert |c| == |b.claims| - 1;
      assert c == multiset{} <==> |c| == 0;
    }
  }

  lemma ClaimKeepsOwnership(b: Books, t: ThreadId)
    requires Owned(b)
    ensures Owned(DoClaim(b, t))
  {
    ClaimsStayCounted(b, t);
    SameRunsCovered(b, DoClaim(b, t));
  }

  lemma ReleaseKeepsOwnership(b: Books, t: ThreadId)
    requires Owned(b) && Can(b, Release(t))
    ensures Owned(DoRelease(b, t)) && DoRelease(b, t).depth == b.depth - 1
  {
    ClaimsStayCounted(b, t);
    ReleaseKeepsCover(b, DoRelease(b, t), t);
  }

  lemma SameRunsCovered(b: Books, c: Books)
    requires Covered(b) && c.runs == b.runs && b.claims <= c.claims
    ensures Covered(c)
  {
    forall t ensures |c.RunsOf(t)| <= c.claims[t] {
      assert c.RunsOf(t) == b.RunsOf(t);
    }
  }

  lemma ReleaseKeepsCover(b: Books, c: Books, t: ThreadId)
    requires Covered(b) && |b.RunsOf(t)| < b.claims[t]
    requires c.runs == b.runs && c.claims == b.claims - multiset{t}
    ensures Covered(c)
  {
    forall u ensures |c.RunsOf(u)| <= c.claims[u] {
      assert c.RunsOf(u) == b.RunsOf(u);
    }
  }

  lemma OpeningKeepsCover(b: Books, r: RunId, t: ThreadId)
    requires Covered(b) && Can(b, OpenRun(r, t))
    ensures Covered(Do(b, OpenRun(r, t)))
  {
    var c := Do(b, OpenRun(r, t));
    forall u ensures |c.RunsOf(u)| <= c.claims[u] {
      OpenedRuns(b, r, t, u);
    }
  }

  lemma OpenedRuns(b: Books, r: RunId, t: ThreadId, u: ThreadId)
    requires r !in b.runs
    ensures Do(b, OpenRun(r, t)).RunsOf(u) == if u == t then b.RunsOf(u) + {r} else b.RunsOf(u)
  {
  }

  lemma SubmittingKeepsCover(b: Books, r: RunId, f: Fid)
    requires Covered(b)
    ensures Covered(Do(b, Submit(r, f)))
  {
    var c := Do(b, Submit(r, f));
    forall u ensures |c.RunsOf(u)| <= c.claims[u] {
      assert c.RunsOf(u) == b.RunsOf(u);
    }
  }

  lemma EndingKeepsCover(b: Books, r: RunId, withdrawn: set<Fid>, leak: set<Fid>)
    requires Covered(b)
    ensures Covered(Do(b, EndRun(r, withdrawn, leak)))
  {
    var c := Do(b, EndRun(r, withdrawn, leak));
    forall u ensures |c.RunsOf(u)| <= c.claims[u] {
      assert c.RunsOf(u) == b.RunsOf(u) - {r};
    }
  }

  lemma EventsKeepOwnership(b: Books, e: Event)
    requires Owned(b) && Can(b, e)
    ensures Owned(Do(b, e))
  {
    match e
    case Claim(t) => ClaimKeepsOwnership(b, t);
    case Release(t) => ReleaseKeepsOwnership(b, t);
    case OpenRun(r, t) => OpeningKeepsCover(b, r, t);
    case Submit(r, f) => SubmittingKeepsCover(b, r, f);
    case EndRun(r, withdrawn, leak) => EndingKeepsCover(b, r, withdrawn, leak);
    case FinishFuture(f) => SameRunsCovered(b, Do(b, e));
    case Close(t, timeout) => SameRunsCovered(b, Do(b, e));
  }

  // --- leaks ---

  lemma SubmitKeepsWatch(b: Books, r: RunId, f: Fid)
    requires Watched(b) && r in b.runs && f !in b.submitted
    ensures Watched(Do(b, Submit(r, f)))
  {
    var c := Do(b, Submit(r, f));
    forall g | g in c.Unfinished() ensures g in c.leaked || InSomeRun(c, g) {
      if g == f {
        assert f in c.runs[r].futures;
      } else if g !in b.leaked {
        assert g in b.Unfinished();
        var q :| q in b.runs && g in b.runs[q].futures;
        assert g in c.runs[q].futures;
      }
    }
  }

  lemma EndRunKeepsWatch(b: Books, r: RunId, withdrawn: set<Fid>, leak: set<Fid>)
    requires Watched(b) && r in b.runs && withdrawn !! b.finished
    requires TornDown(b.runs[r].futures, b.finished, withdrawn, leak)
    ensures Watched(Do(b, EndRun(r, withdrawn, leak)))
  {
    var c := Do(b, EndRun(r, withdrawn, leak));
    forall g | g in c.Unfinished() ensures g in c.leaked || InSomeRun(c, g) {
      assert g in b.Unfinished();
      if g !in b.leaked {
        var q :| q in b.runs && g in b.runs[q].futures;
        if q != r {
          assert q in c.runs && g in c.runs[q].futures;
        }
      }
    }
  }

  lemma OtherEventsKeepWatch(b: Books, e: Event)
    requires Watched(b) && Can(b, e) && !e.Submit? && !e.EndRun?
    ensures Watched(Do(b, e))
  {
    var c := Do(b, e);
    forall g | c.open && g in c.Unfinished() ensures g in c.leaked || InSomeRun(c, g) {
      assert g in b.Unfinished();
      if g !in b.leaked {
        var q :| q in b.runs && g in b.runs[q].futures;
        assert q in c.runs && g in c.runs[q].futures;
      }
    }
  }

  lemma EventsKeepWatch(b: Books, e: Event)
    requires Watched(b) && Can(b, e)
    ensures Watched(Do(b, e))
  {
    match e
    case Submit(r, f) => SubmitKeepsWatch(b, r, f);
    case EndRun(r, withdrawn, leak) => EndRunKeepsWatch(b, r, withdrawn, leak);
    case _ => OtherEventsKeepWatch(b, e);
  }

  lemma {:induction false} HistoriesKeepBooks(b: Books, es: seq<Event>, c: Books)
    requires Owned(b) && Watched(b) && History(b, es, c)
    ensures Owned(c) && Watched(c)
    decreases |es|
  {
    if es != [] {
      EventsKeepOwnership(b, es[0]);
      EventsKeepWatch(b, es[0]);
      HistoriesKeepBooks(Do(b, es[0]), es[1..], c);
    }
  }

  /** Over any history: the depth is the number of claims not yet released, all taken by the owner,
      who exists exactly while there are any; and the guard at a release never skips it. */
  lemma {:induction false} OwnershipHolds(es: seq<Event>, b: Books)
    requires History(EMPTY, es, b)
    ensures b.depth == |b.claims|
    ensures b.owner.None? <==> b.depth == 0
    ensures forall t :: t in b.claims ==> b.owner == Some(t)
    ensures forall t :: Can(b, Release(t)) ==> DoRelease(b, t).depth == b.depth - 1
  {
    EmptyBooksAreKept();
    HistoriesKeepBooks(EMPTY, es, b);
    forall t | Can(b, Release(t)) ensures DoRelease(b, t).depth == b.depth - 1 {
      ReleaseKeepsOwnership(b, t);
    }
  }

  lemma EmptyBooksAreKept()
    ensures Owned(EMPTY) && Watched(EMPTY)
  {
    assert forall t :: EMPTY.RunsOf(t) == {};
  }

  /** Over any history: while a run is open, the pool is owned by the thread that opened it, and a
      close or a claim by any other thread is refused and changes nothing. */
  lemma {:induction false} OpenRunsAreProtected(es: seq<Event>, b: Books, r: RunId)
    requires History(EMPTY, es, b) && r in b.runs
    ensures b.owner == Some(b.runs[r].thread)
    ensures forall t, timeout :: t != b.runs[r].thread ==> Can(b, Close(t, timeout)) && Do(b, Close(t, timeout)) == b
    ensures forall t :: t != b.runs[r].thread ==> Do(b, Claim(t)) == b
  {
    EmptyBooksAreKept();
    HistoriesKeepBooks(EMPTY, es, b);
    var t := b.runs[r].thread;
    assert r in b.RunsOf(t);
    assert b.claims[t] >= 1;
  }

  /** Over any sequence of runs: while no run is open on a pool that is not closed, the leak set
      misses no unfinished future and holds no withdrawn one. */
  lemma {:induction false} LeaksAreComplete(es: seq<Event>, b: Books)
    requires History(EMPTY, es, b) && b.open && b.runs == map[]
    ensures b.Unfinished() <= b.leaked
    ensures b.leaked !! b.withdrawn
    ensures (set f | f in b.leaked && !b.IsDone(f)) == b.Unfinished()
  {
    EmptyBooksAreKept();
    HistoriesKeepBooks(EMPTY, es, b);
  }

  lemma {:induction false} ClosedStaysClosed(b: Books, es: seq<Event>, c: Books)
    requires History(b, es, c) && !b.open
    ensures !c.open && forall k :: 0 <= k < |es| ==> !es[k].Claim? && !es[k].OpenRun?
    decreases |es|
  {
    if es != [] {
      ClosedStaysClosed(Do(b, es[0]), es[1..], c);
      forall k | 0 <= k < |es| ensures !es[k].Claim? && !es[k].OpenRun? {
        assert k > 0 ==> es[k] == es[1..][k - 1];
      }
    }
  }

  /** A close is final: one that is not refused leaves the pool closed whatever happens afterwards, and no
      claim is taken and no run is opened again; one that is refused leaves the pool as open as it was. */
  lemma ClosingIsFinal(b: Books, t: ThreadId, timeout: Option<real>, es: seq<Event>, c: Books)
    requires Can(b, Close(t, timeout)) && History(Do(b, Close(t, timeout)), es, c)
    ensures (b.owner.None? || b.owner == Some(t)) ==>
              !c.open && forall k :: 0 <= k < |es| ==> !es[k].Claim? && !es[k].OpenRun?
    ensures !(b.owner.None? || b.owner == Some(t)) ==> Do(b, Close(t, timeout)) == b
  {
    if b.owner.None? || b.owner == Some(t) {
      ClosedStaysClosed(Do(b, Close(t, timeout)), es, c);
    }
  }

  // --- the pool ---

  /** How an attempt to start a batch goes. */
  datatype Entry = PoolIsClosed | BusyElsewhere | Entered

  datatype Outcome = Refused | Closed | ShutdownTimeout(running: nat)

  /** The pool's fields, each changed under its lock. The ghost field is the history they are about. */
  class Pool {
    var runOwner: Option<ThreadId>
    var runDepth: int
    var leaked: set<Fid>
    var isOpen: bool
    ghost var books: Books

    ghost predicate Valid()
      reads this
    {
      && books.owner == runOwner && books.depth == runDepth
      && books.leaked == leaked && books.open == isOpen
      && Owned(books) && Watched(books)
    }

    constructor ()
      ensures Valid() && books == EMPTY
    {
      runOwner, runDepth, leaked, isOpen, books := None, 0, {}, true, EMPTY;
      EmptyBooksAreKept();
    }

    /** Entering a run. */
    method Enter(ident: ThreadId) returns (ok: bool)
      requires Valid()
      modifies this
      ensures Valid()
      ensures ok == !Refuses(old(books), ident)
      ensures books == DoClaim(old(books), ident)
    {
      ClaimKeepsOwnership(books, ident);
      books := DoClaim(books, ident);
      if runOwner.Some? && runOwner.value != ident {
        return false;
      }
      runOwner := Some(ident);
      runDepth := runDepth + 1;
      return true;
    }

    /** Starting a batch: a closed pool raises before anything is claimed. */
    method Begin(ident: ThreadId) returns (r: Entry)
      requires Valid()
      modifies this
      ensures Valid() && isOpen == old(isOpen)
      ensures r == PoolIsClosed <==> !old(isOpen)
      ensures r == BusyElsewhere <==> old(isOpen) && old(runOwner).Some? && old(runOwner) != Some(ident)
      ensures r == Entered ==> runOwner == Some(ident) && runDepth == old(runDepth) + 1
      ensures r != Entered ==> books == old(books)
    {
      if !isOpen {
        return PoolIsClosed;
      }
      var ok := Enter(ident);
      return if ok then Entered else BusyElsewhere;
    }

    /** Leaving a run; `ident` was captured on entry. The claim is always given back. */
    method Leave(ident: ThreadId)
      requires Valid() && Can(books, Release(ident))
      modifies this
      ensures Valid()
      ensures books == DoRelease(old(books), ident)
      ensures runDepth == old(runDepth) - 1
      ensures runOwner == if runDepth == 0 then None else old(runOwner)
    {
      ReleaseKeepsOwnership(books, ident);
      books := DoRelease(books, ident);
      if runOwner == Some(ident) {
        runDepth := runDepth - 1;
        if runDepth == 0 {
          runOwner := None;
        }
      }
    }

    /** The teardown of a run hands over what its workers are still busy with. `done` answers
        Future.done() for the futures that were leaked before. */
    method RecordLeaks(ghost run: RunId, ghost withdrawn: set<Fid>, futures: set<Fid>, done: set<Fid>)
      requires Valid() && Can(books, EndRun(run, withdrawn, futures))
      requires forall f :: f in leaked ==> (f in done <==> books.IsDone(f))
      modifies this
      ensures Valid()
      ensures books == Do(old(books), EndRun(run, withdrawn, futures))
      ensures books.runs == map[] && isOpen ==> books.Unfinished() <= leaked
    {
      EventsKeepOwnership(books, EndRun(run, withdrawn, futures));
      EventsKeepWatch(books, EndRun(run, withdrawn, futures));
      books := Do(books, EndRun(run, withdrawn, futures));
      leaked := (set f | f in leaked && f !in done) + futures;
    }

    /** Close the pool, waiting at most `timeout`. `done` answers Future.done() now, and `doneLater`
        at the end of the wait. A bounded wait waits for exactly the unfinished futures, and reports
        exactly those that are still unfinished. */
    method Shutdown(ident: ThreadId, timeout: Option<real>, done: set<Fid>, doneLater: set<Fid>) returns (r: Outcome)
      requires Valid() && Can(books, Close(ident, timeout))
      requires forall f :: f in leaked ==> (f in done <==> books.IsDone(f))
      requires done <= doneLater
      modifies this
      ensures Valid() && books == DoClose(old(books), ident, timeout)
      ensures r == Refused <==> Refuses(old(books), ident)
      ensures r == Refused ==> books == old(books)
      ensures r != Refused ==> !isOpen
      ensures r.ShutdownTimeout? <==>
                && !Refuses(old(books), ident) && old(isOpen) && timeout.Some?
                && old(books).Unfinished() - doneLater != {}
      ensures r.ShutdownTimeout? ==> r.running == |old(books).Unfinished() - doneLater|
    {
      if runOwner.Some? && runOwner.value != ident {
        return Refused;
      }
      if !isOpen {
        return Closed;
      }
      UnfinishedIsLeaked(books, done);
      books := DoClose(books, ident, timeout);
      isOpen := false;
      if timeout.None? {
        return Closed;
      }
      var waitedFor := set f | f in leaked && f !in done;
      leaked := {};
      if waitedFor == {} {
        return Closed;
      }
      var stillRunning := set f | f in waitedFor && f !in doneLater;
      assert stillRunning == old(books).Unfinished() - doneLater;
      if stillRunning != {} {
        return ShutdownTimeout(|stillRunning|);
      }
      return Closed;
    }
  }

  lemma UnfinishedIsLeaked(b: Books, done: set<Fid>)
    requires Watched(b) && b.open && b.runs == map[]
    requires forall f :: f in b.leaked ==> (f in done <==> b.IsDone(f))
    ensures (set f | f in b.leaked && f !in done) == b.Unfinished()
  {
  }
}

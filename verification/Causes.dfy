/** A run ends for the reason it gives. */
module Causes {
  import opened Retry
  import opened Protocol
  import opened Invariants
  import opened Preservation
  import opened Steps
  import opened Progress

  /** What is true of a run that has been left for this reason, or is about to be. */
  ghost predicate Justified(cfg: Config, c: Core, why: Exit) {
    match why
    case Returned => c.inFlight == map[] && c.retryWait == map[] && c.exhausted
    case ClosedByConsumer => c.yielded != []
    case CancelRaised => c.requested
    case OverallTimeoutRaised =>
      cfg.overallTimeout.Some? && 0.0 < cfg.overallTimeout.value <= c.clock
    case InputRaised(e) => cfg.input(c.nextIndex) == Broken(e)
    case Interrupted => true
  }

  ghost predicate Reasoned(cfg: Config, s: State) {
    && (s.pc.Asking? ==> s.core.requested)
    && (Why(s.pc).Some? ==> Justified(cfg, s.core, Why(s.pc).value))
  }

  /** What the reasons speak of, later on. */
  predicate Later(c: Core, d: Core) {
    && d.inFlight == c.inFlight && d.retryWait == c.retryWait && d.exhausted == c.exhausted
    && d.yielded == c.yielded && d.nextIndex == c.nextIndex
    && (c.requested ==> d.requested) && c.clock <= d.clock
  }

  lemma LaterStaysReasoned(cfg: Config, s: State, t: State)
    requires Reasoned(cfg, s) && Later(s.core, t.core) && Why(t.pc) == Why(s.pc)
    requires t.pc.Asking? ==> s.pc.Asking?
    ensures Reasoned(cfg, t)
  {
  }

  lemma OthersStayReasoned(cfg: Config, s: State, a: Action)
    requires Reasoned(cfg, s) && Can(cfg, s, a) && ByOthers(a)
    ensures Reasoned(cfg, Do(cfg, s, a))
  {
    LaterStaysReasoned(cfg, s, Do(cfg, s, a));
  }

  lemma TeardownStaysReasoned(cfg: Config, s: State, a: Action)
    requires Reasoned(cfg, s) && Can(cfg, s, a) && (a.AskOne? || a.CancelOne? || a.DropOne?)
    ensures Reasoned(cfg, Do(cfg, s, a))
  {
    LaterStaysReasoned(cfg, s, Do(cfg, s, a));
  }

  lemma EnteringStaysReasoned(cfg: Config, s: State, wake: real)
    requires cfg.Valid() && Inv(cfg, s) && Reasoned(cfg, s) && CanEnter(cfg, s, wake)
    ensures Reasoned(cfg, DoEnter(cfg, s, wake))
  {
  }

  lemma PullingStaysReasoned(cfg: Config, s: State)
    requires Reasoned(cfg, s) && s.pc.Pulling?
    ensures Reasoned(cfg, DoPull(cfg, s))
  {
  }

  lemma ClosingIsReasoned(cfg: Config, s: State)
    requires Inv(cfg, s) && s.pc.Yielding?
    ensures Reasoned(cfg, Leave(s.core, ClosedByConsumer))
  {
  }

  lemma CollectingIsNoReason(cfg: Config, s: State, f: Fid, delay: real, due: real)
    requires Inv(cfg, s) && Can(cfg, s, CollectOne(f, delay, due))
    ensures Reasoned(cfg, Do(cfg, s, CollectOne(f, delay, due)))
  {
    CollectStep(cfg, s, f, delay, due);
  }

  lemma ScanningIsNoReason(cfg: Config, s: State, f: Fid, delay: real, due: real)
    requires cfg.Valid() && Inv(cfg, s) && Can(cfg, s, ScanOne(f, delay, due))
    ensures Reasoned(cfg, Do(cfg, s, ScanOne(f, delay, due)))
  {
    ScanStep(cfg, s, f, delay, due);
  }

  lemma LoopStaysReasoned(cfg: Config, s: State, a: Action)
    requires Can(cfg, s, a) && (a.ResubmitOne? || a.Wake? || a.Interrupt? || a.Resume?)
    ensures a.ResubmitOne? ==> !s.pc.Asking? && Why(s.pc).None?
    ensures Reasoned(cfg, Do(cfg, s, a))
  {
  }

  lemma LeavingStaysReasoned(cfg: Config, s: State, a: Action)
    requires cfg.Valid() && Inv(cfg, s) && Reasoned(cfg, s) && Can(cfg, s, a)
    requires a.Enter? || a.PullOne? || a.CloseHere?
    ensures Reasoned(cfg, Do(cfg, s, a))
  {
    match a
    case Enter(wake) => EnteringStaysReasoned(cfg, s, wake);
    case PullOne => PullingStaysReasoned(cfg, s);
    case CloseHere => ClosingIsReasoned(cfg, s);
  }

  lemma StepStaysReasoned(cfg: Config, s: State, a: Action)
    requires cfg.Valid() && Inv(cfg, s) && Reasoned(cfg, s) && Can(cfg, s, a)
    ensures Reasoned(cfg, Do(cfg, s, a))
  {
    if ByOthers(a) {
      OthersStayReasoned(cfg, s, a);
    } else if a.AskOne? || a.CancelOne? || a.DropOne? {
      TeardownStaysReasoned(cfg, s, a);
    } else if a.Enter? || a.PullOne? || a.CloseHere? {
      LeavingStaysReasoned(cfg, s, a);
    } else if a.CollectOne? {
      CollectingIsNoReason(cfg, s, a.f, a.delay, a.due);
    } else if a.ScanOne? {
      ScanningIsNoReason(cfg, s, a.f, a.delay, a.due);
    } else {
      LoopStaysReasoned(cfg, s, a);
    }
  }

  lemma {:induction false} PathStaysReasoned(cfg: Config, s: State, acts: seq<Action>, t: State)
    requires cfg.Valid() && Inv(cfg, s) && Reasoned(cfg, s) && Path(cfg, s, acts, t)
    ensures Reasoned(cfg, t)
    decreases |acts|
  {
    if acts != [] {
      StepKeepsInv(cfg, s, acts[0]);
      StepStaysReasoned(cfg, s, acts[0]);
      PathStaysReasoned(cfg, Do(cfg, s, acts[0]), acts[1..], t);
    }
  }

  lemma ReachableIsReasoned(cfg: Config, s: State)
    requires cfg.Valid() && Reachable(cfg, s)
    ensures Reasoned(cfg, s)
  {
    var acts :| Path(cfg, Init(), acts, s);
    PathStaysReasoned(cfg, Init(), acts, s);
  }

  /** A run that has ended gives the true reason: it raises Cancelled only if cancellation was
      requested, OverallTimeout only once the overall timeout has really passed, and an input error
      only if the next answer of the input is that very error. */
  lemma EndsAreJustified(cfg: Config, s: State)
    requires cfg.Valid() && Reachable(cfg, s) && s.pc.Closed?
    ensures match s.pc.why
            case Returned => s.core.inFlight == map[] && s.core.retryWait == map[] && s.core.exhausted
            case ClosedByConsumer => s.core.yielded != []
            case CancelRaised => s.core.requested
            case OverallTimeoutRaised =>
              cfg.overallTimeout.Some? && 0.0 < cfg.overallTimeout.value <= s.core.clock
            case InputRaised(e) => cfg.input(s.core.nextIndex) == Broken(e)
            case Interrupted => true
  {
    ReachableIsReasoned(cfg, s);
  }
}

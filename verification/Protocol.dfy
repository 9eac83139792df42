/** The coordinator loop of a run, its workers and its environment, as a transition system.

    Every action is one critical section or one iteration of one of the coordinator's loops, so
    workers, the clock and the cancellation token move freely between any two of them. Work items
    and futures are named by their order of creation. */
module Protocol {
  import opened TaskStates
  import opened Numbers
  import opened Retry
  import opened WorkItems

  type Fid = nat
  type Wid = nat

  /** One answer of the input iterator. */
  datatype Pull = Next(arg: Value) | Stop | Broken(error: Exc)

  /** The arguments of a run. `input(k)` is the answer to the k-th next(), and `call(i, a)` is what
      the a-th execution of the i-th item does. */
  datatype Config = Config(
    input: nat -> Pull,
    call: (nat, nat) -> Outcome,
    retry: Option<RetryPolicy>,
    taskTimeout: Option<real>,
    overallTimeout: Option<real>,
    maxPending: nat)
  {
    ghost predicate Valid() {
      && maxPending >= 1
      && (retry.Some? ==> retry.value.Valid())
      && (taskTimeout.Some? ==> taskTimeout.value > 0.0)
      && (overallTimeout.Some? ==> overallTimeout.value >= 0.0)
    }

    /** An overall timeout of zero is falsy and sets no deadline. */
    function OverallDeadline(): Option<real> {
      if overallTimeout.Some? && overallTimeout.value != 0.0 then overallTimeout else None
    }

    function MaxAttempts(): nat {
      if retry.Some? then retry.value.maxAttempts else 1
    }

    predicate RetriesTimeout(attempts: nat) {
      retry.Some? && retry.value.ShouldRetry(TIMEOUT_ERROR, attempts)
    }

    /** A backoff that may be drawn after `attempts` executions. */
    predicate MayDelay(attempts: nat, d: real) {
      retry.Some? ==> retry.value.MayDelay(attempts, d)
    }
  }

  /** Queued in the executor; taken by a worker that has not begun; inside the task function since
      `since`, as the `nth` execution of its index; reported on the item but not yet done; done, with
      the exception let through; cancelled before any worker took it. */
  datatype Phase =
    | Queued
    | Taken
    | Executing(since: real, nth: nat)
    | Reported(escaped: Option<Exc>)
    | Done(escaped: Option<Exc>)
    | Withdrawn

  datatype Future = Future(work: Wid, phase: Phase)

  /** How one execution ended, as the coordinator sees it. */
  datatype Verdict = Open | Ended(outcome: Outcome) | Overran

  /** One execution of one index: when it began, how it ended, the time charged for it, and the
      backoff drawn after it. */
  datatype Attempt = Attempt(start: real, verdict: Verdict, spent: real, delay: real)

  /** Where a pulled index is. */
  datatype Slot = InFlight(f: Fid) | Backoff(w: Wid) | Delivered(k: nat)

  function Relocated(slots: seq<Slot>, i: nat, s: Slot): seq<Slot> {
    if i < |slots| then slots[i := s] else slots
  }

  /** A new, open attempt of index i. */
  function Begun(hs: seq<seq<Attempt>>, i: nat, now: real): seq<seq<Attempt>> {
    if i < |hs| then hs[i := hs[i] + [Attempt(now, Open, 0.0, 0.0)]] else hs
  }

  /** The latest attempt of index i rewritten. */
  function Amended(hs: seq<seq<Attempt>>, i: nat, a: Attempt): seq<seq<Attempt>> {
    if i < |hs| && hs[i] != [] then hs[i := hs[i][..|hs[i]| - 1] + [a]] else hs
  }

  /** The data of a run. `slots` and `attempts` are history: they never influence a step. */
  datatype Core = Core(
    clock: real,
    requested: bool,
    items: seq<Item>,
    futures: seq<Future>,
    inFlight: map<Fid, Wid>,
    retryWait: map<Wid, real>,
    abandoned: set<Fid>,
    nextIndex: nat,
    exhausted: bool,
    stopping: bool,
    yielded: seq<Wid>,
    broken: bool,
    slots: seq<Slot>,
    attempts: seq<seq<Attempt>>)
  {
    function Load(): nat {
      |inFlight| + |retryWait| + |abandoned|
    }

    predicate IsFuture(f: Fid) {
      f < |futures| && futures[f].work < |items|
    }

    function WorkOf(f: Fid): Item
      requires IsFuture(f)
    {
      items[futures[f].work]
    }

    function At(f: Fid, p: Phase): seq<Future>
      requires f < |futures|
    {
      futures[f := futures[f].(phase := p)]
    }

    // --- worker steps ---

    function Take(f: Fid): Core
      requires IsFuture(f)
    {
      this.(futures := At(f, Taken))
    }

    function Start(f: Fid): Core
      requires IsFuture(f)
    {
      var i := WorkOf(f).index;
      var nth := if i < |attempts| then |attempts[i]| + 1 else 0;
      var m := StartExecution(WorkOf(f), clock);
      this.(
        items := items[futures[f].work := m.item],
        broken := broken || !m.legal,
        futures := At(f, Executing(clock, nth)),
        attempts := Begun(attempts, i, clock))
    }

    /** The call returned after `spent`; the outcome is written to the item under its lock. */
    function Report(cfg: Config, f: Fid, spent: real): Core
      requires IsFuture(f) && futures[f].phase.Executing?
    {
      var it := WorkOf(f);
      var o := cfg.call(it.index, futures[f].phase.nth);
      var m := FinishWith(it, o, spent, cfg.retry);
      this.(
        items := items[futures[f].work := m.item],
        broken := broken || !m.legal,
        futures := At(f, Reported(EscapeOf(o))),
        attempts :=
          if it.state == TimedOut then attempts
          else Amended(attempts, it.index, Latest(it.index).(verdict := Ended(o), spent := spent)))
    }

    function Settle(f: Fid): Core
      requires IsFuture(f) && futures[f].phase.Reported?
    {
      this.(futures := At(f, Done(futures[f].phase.escaped)))
    }

    // --- coordinator steps ---

    function Ask(f: Fid): Core
      requires f in inFlight && inFlight[f] < |items|
    {
      var m := RequestCancellation(items[inFlight[f]]);
      this.(items := items[inFlight[f] := m.item], broken := broken || !m.legal)
    }

    /** A parked item is due: it is handed to the executor again. */
    function Resubmit(w: Wid): Core
      requires w in retryWait && w < |items|
    {
      var m := Rearm(items[w]);
      this.(
        items := items[w := m.item],
        broken := broken || !m.legal,
        retryWait := retryWait - {w},
        futures := futures + [Future(w, Queued)],
        inFlight := inFlight[|futures| := w],
        slots := Relocated(slots, items[w].index, InFlight(|futures|)))
    }

    /** The next item of the input is wrapped and handed to the executor. */
    function PullItem(arg: Value): Core {
      this.(
        items := items + [NewItem(nextIndex, arg)],
        futures := futures + [Future(|items|, Queued)],
        inFlight := inFlight[|futures| := |items|],
        nextIndex := nextIndex + 1,
        slots := slots + [InFlight(|futures|)],
        attempts := attempts + [[]])
    }

    /** An item leaves for the consumer. */
    function Deliver(w: Wid): Core
      requires w < |items|
    {
      this.(yielded := yielded + [w], slots := Relocated(slots, items[w].index, Delivered(|yielded|)))
    }

    /** Park an item until the backoff just drawn has elapsed. */
    function Park(w: Wid, delay: real, due: real): Core
      requires w < |items|
    {
      var i := items[w].index;
      this.(
        retryWait := retryWait[w := due],
        slots := Relocated(slots, i, Backoff(w)),
        attempts := Amended(attempts, i, Latest(i).(delay := delay)))
    }

    function DropAbandoned(f: Fid): Core {
      this.(abandoned := abandoned - {f})
    }

    /** A done future that is not abandoned is retired, and what escaped to it is recorded. */
    function Retire(f: Fid): Core
      requires f in inFlight && inFlight[f] < |items|
      requires f < |futures| && futures[f].phase.Done?
    {
      var m := RecordEscaped(items[inFlight[f]], futures[f].phase.escaped);
      this.(
        inFlight := inFlight - {f},
        items := items[inFlight[f] := m.item],
        broken := broken || !m.legal)
    }

    /** A running item overran: it is finalized, and its future becomes abandoned. */
    function Abandon(f: Fid, now: real, taskTimeout: real): Core
      requires f in inFlight && inFlight[f] < |items|
      requires Expired(items[inFlight[f]], now, taskTimeout)
    {
      var it := items[inFlight[f]];
      var m := TimeOutIfExpired(it, now, taskTimeout);
      this.(
        inFlight := inFlight - {f},
        abandoned := abandoned + {f},
        items := items[inFlight[f] := m.item],
        broken := broken || !m.legal || m.item.exception.None?,
        attempts := Amended(attempts, it.index,
                            Latest(it.index).(verdict := Overran, spent := now - it.startedAt.value)))
    }

    /** The clone of a timed-out item is a new record, and the one that is parked. */
    function ParkClone(w: Wid, delay: real, due: real): Core
      requires w < |items|
    {
      this.(items := items + [RetryClone(items[w])]).Park(|items|, delay, due)
    }

    function CancelFuture(f: Fid): Core
      requires f in inFlight && inFlight[f] < |items| && f < |futures|
    {
      var m := Cancel(items[inFlight[f]]);
      if futures[f].phase == Queued then
        this.(
          futures := At(f, Withdrawn),
          items := items[inFlight[f] := m.item],
          broken := broken || !m.legal)
      else this
    }

    function CancelParked(w: Wid): Core
      requires w < |items|
    {
      var m := Cancel(items[w]);
      this.(items := items[w := m.item], broken := broken || !m.legal)
    }

    function Latest(i: nat): Attempt {
      if i < |attempts| && attempts[i] != [] then attempts[i][|attempts[i]| - 1]
      else Attempt(0.0, Open, 0.0, 0.0)
    }

    function Leaks(): set<Fid> {
      (set f | f in inFlight && !(f < |futures| && futures[f].phase == Withdrawn)) + abandoned
    }
  }

  /** The items yielded, in order. */
  function Completions(c: Core): seq<Item> {
    seq(|c.yielded|, k requires 0 <= k < |c.yielded| =>
      if c.yielded[k] < |c.items| then c.items[c.yielded[k]] else NewItem(0, 0))
  }

  /** Why the generator ended. */
  datatype Exit =
    | Returned
    | ClosedByConsumer
    | CancelRaised
    | OverallTimeoutRaised
    | InputRaised(error: Exc)
    | Interrupted

  /** The loop a yield is inside of. */
  datatype Loop = OfCollect(done: set<Fid>) | OfScan(now: real, todo: set<Fid>)

  /** Where the coordinator is. */
  datatype PC =
    | Head
    | Turning(now: real)
    | Asking(todo: set<Fid>)
    | Resubmitting(now: real, due: set<Wid>)
    | Pulling
    | Waiting(from: real, wake: real)
    | Collecting(done: set<Fid>)
    | Scanning(now: real, todo: set<Fid>)
    | Yielding(work: Wid, back: Loop)
    | Cancelling(why: Exit, todo: set<Fid>)
    | Dropping(why: Exit, parked: set<Wid>)
    | Closed(why: Exit, leak: set<Fid>)

  datatype State = State(core: Core, pc: PC)

  const MAX_WAIT_SLICE := 0.5

  function Init(): State {
    State(Core(0.0, false, [], [], map[], map[], {}, 0, false, false, [], false, [], []), Head)
  }

  /** The moments at which an in-flight execution will have overrun. */
  function Deadlines(c: Core, taskTimeout: real): set<real> {
    set f | f in c.inFlight && c.inFlight[f] < |c.items|
            && RunningDeadline(c.items[c.inFlight[f]], taskTimeout).Some?
          :: RunningDeadline(c.items[c.inFlight[f]], taskTimeout).value
  }

  function OverallDeadlines(cfg: Config): set<real> {
    if cfg.OverallDeadline().Some? then {cfg.OverallDeadline().value} else {}
  }

  function Dues(c: Core): set<real> {
    set w | w in c.retryWait :: c.retryWait[w]
  }

  /** The deadlines of the running items, or one timeout period from now while nothing has started. */
  function TaskDeadlines(cfg: Config, c: Core): set<real> {
    if cfg.taskTimeout.None? || c.inFlight == map[] then {}
    else if Deadlines(c, cfg.taskTimeout.value) != {} then Deadlines(c, cfg.taskTimeout.value)
    else {c.clock + cfg.taskTimeout.value}
  }

  /** The moments the coordinator must not sleep past. */
  function Candidates(cfg: Config, c: Core): set<real> {
    Dues(c) + OverallDeadlines(cfg) + TaskDeadlines(cfg, c)
  }

  function Min(a: real, b: real): real {
    if a <= b then a else b
  }

  function Max(a: real, b: real): real {
    if a <= b then b else a
  }

  /** wake is when the coordinator's next wait times out. */
  ghost predicate WakesAt(cfg: Config, c: Core, wake: real) {
    if Candidates(cfg, c) == {} then wake == c.clock + MAX_WAIT_SLICE
    else exists t ::
           && IsMin(t, Candidates(cfg, c))
           && wake == c.clock + Min(Max(0.0, t - c.clock), MAX_WAIT_SLICE)
  }

  datatype Action =
    // the environment
    | Tick(t: real)
    | Request
    // workers
    | TakeUp(f: Fid)
    | Begin(f: Fid)
    | Finish(f: Fid, spent: real)
    | Settle(f: Fid)
    // the coordinator
    | Enter(wake: real)
    | AskOne(f: Fid)
    | ResubmitOne(w: Wid)
    | PullOne
    | Wake(done: set<Fid>)
    | Interrupt
    | CollectOne(f: Fid, delay: real, due: real)
    | ScanOne(f: Fid, delay: real, due: real)
    | Resume
    | CloseHere
    | CancelOne(f: Fid)
    | DropOne(w: Wid)

  /** The control step of the loop the coordinator has finished, if it has. `wake` is used only
      when the wait is entered. */
  ghost predicate CanEnter(cfg: Config, s: State, wake: real) {
    match s.pc
    case Head => true
    case Turning(_) => true
    case Asking(todo) => todo == {}
    case Resubmitting(_, due) => due == {}
    case Pulling =>
      && (s.core.exhausted || s.core.Load() >= cfg.maxPending)
      && WakesAt(cfg, s.core, wake)
    case Collecting(done) => done == {}
    case Scanning(_, todo) => todo == {}
    case Cancelling(_, todo) => todo == {}
    case Dropping(_, parked) => parked == {}
    case Waiting(_, _) => false
    case Yielding(_, _) => false
    case Closed(_, _) => false
  }

  /** Leave the loop: the finally clause runs over everything still in flight. */
  function Leave(c: Core, why: Exit): State {
    State(c.(stopping := true), Cancelling(why, c.inFlight.Keys))
  }

  function Due(c: Core, now: real): set<Wid> {
    set w | w in c.retryWait && c.retryWait[w] <= now
  }

  function DoEnter(cfg: Config, s: State, wake: real): State {
    var c := s.core;
    match s.pc
    case Head => s.(pc := Turning(c.clock))
    case Turning(now) =>
      if c.requested then State(c.(stopping := true), Asking(c.inFlight.Keys))
      else if cfg.OverallDeadline().Some? && now >= cfg.OverallDeadline().value then
        Leave(c, OverallTimeoutRaised)
      else s.(pc := Resubmitting(now, Due(c, now)))
    case Asking(_) => Leave(c, CancelRaised)
    case Resubmitting(_, _) => s.(pc := Pulling)
    case Pulling =>
      if c.inFlight == map[] && c.retryWait == map[] && c.exhausted then Leave(c, Exit.Returned)
      else s.(pc := Waiting(c.clock, wake))
    case Collecting(_) =>
      if cfg.taskTimeout.Some? then s.(pc := Scanning(c.clock, c.inFlight.Keys)) else s.(pc := Head)
    case Scanning(_, _) => s.(pc := Head)
    case Cancelling(why, _) => s.(pc := Dropping(why, c.retryWait.Keys))
    case Dropping(why, _) => s.(pc := Closed(why, c.Leaks()))
    case Waiting(_, _) => s
    case Yielding(_, _) => s
    case Closed(_, _) => s
  }

  function DoPull(cfg: Config, s: State): State {
    match cfg.input(s.core.nextIndex)
    case Next(arg) => s.(core := s.core.PullItem(arg))
    case Stop => s.(core := s.core.(exhausted := true))
    case Broken(e) => Leave(s.core, InputRaised(e))
  }

  function DoCollect(cfg: Config, s: State, f: Fid, delay: real, due: real): State
    requires s.pc.Collecting?
    requires f in s.core.inFlight && s.core.inFlight[f] < |s.core.items|
    requires f < |s.core.futures| && s.core.futures[f].phase.Done?
  {
    var w := s.core.inFlight[f];
    var c := s.core.Retire(f);
    if c.items[w].state == RetryWait then
      State(c.(broken := c.broken || cfg.retry.None?).Park(w, delay, due), Collecting(s.pc.done - {f}))
    else
      State(c.Deliver(w), Yielding(w, OfCollect(s.pc.done - {f})))
  }

  function DoScan(cfg: Config, s: State, f: Fid, delay: real, due: real): State
    requires s.pc.Scanning? && cfg.taskTimeout.Some?
    requires f in s.core.inFlight && s.core.inFlight[f] < |s.core.items|
  {
    var w := s.core.inFlight[f];
    var now, rest := s.pc.now, s.pc.todo - {f};
    if !Expired(s.core.items[w], now, cfg.taskTimeout.value) then s.(pc := Scanning(now, rest))
    else
      var c := s.core.Abandon(f, now, cfg.taskTimeout.value);
      var e := c.items[w].exception;
      if e.Some? && cfg.retry.Some? && cfg.retry.value.ShouldRetry(e.value, c.items[w].attempts) then
        State(c.ParkClone(w, delay, due), Scanning(now, rest))
      else
        State(c.Deliver(w), Yielding(w, OfScan(now, rest)))
  }

  /** The dictionary lookups the coordinator's loops make without a default. Looking up a missing
      key is not a stuttering step: it breaks the run. */
  predicate KeyPresent(c: Core, f: Fid) {
    f in c.inFlight && c.inFlight[f] < |c.items| && f < |c.futures|
  }

  function Break(s: State): State {
    s.(core := s.core.(broken := true))
  }

  /** The coordinator itself is running one of its loops. */
  predicate InLoop(pc: PC) {
    || pc.Head? || pc.Turning? || pc.Resubmitting? || pc.Pulling? || pc.Waiting? || pc.Collecting? || pc.Scanning?
  }

  ghost predicate Can(cfg: Config, s: State, a: Action) {
    var c := s.core;
    match a
    case Tick(t) => t >= c.clock
    case Request => true
    case TakeUp(f) => c.IsFuture(f) && c.futures[f].phase == Queued
    case Begin(f) => c.IsFuture(f) && c.futures[f].phase == Taken
    case Finish(f, spent) =>
      && c.IsFuture(f) && c.futures[f].phase.Executing?
      && 0.0 <= spent <= c.clock - c.futures[f].phase.since
    case Settle(f) => c.IsFuture(f) && c.futures[f].phase.Reported?
    case Enter(wake) => CanEnter(cfg, s, wake)
    case AskOne(f) => s.pc.Asking? && f in s.pc.todo
    case ResubmitOne(w) => s.pc.Resubmitting? && w in s.pc.due
    case PullOne => s.pc.Pulling? && !c.exhausted && c.Load() < cfg.maxPending
    case Wake(done) =>
      && s.pc.Waiting?
      && done <= c.inFlight.Keys + c.abandoned
      && (forall f :: f in done ==> f < |c.futures| && c.futures[f].phase.Done?)
    case Interrupt => InLoop(s.pc)
    case CollectOne(f, delay, due) =>
      && s.pc.Collecting? && f in s.pc.done && due == c.clock + delay
      && (KeyPresent(c, f) ==> cfg.MayDelay(c.items[c.inFlight[f]].attempts, delay))
    case ScanOne(f, delay, due) =>
      && s.pc.Scanning? && f in s.pc.todo && due == c.clock + delay
      && (KeyPresent(c, f) ==> cfg.MayDelay(c.items[c.inFlight[f]].attempts, delay))
    case Resume => s.pc.Yielding?
    case CloseHere => s.pc.Yielding?
    case CancelOne(f) => s.pc.Cancelling? && f in s.pc.todo
    case DropOne(w) => s.pc.Dropping? && w in s.pc.parked
  }

  ghost function Do(cfg: Config, s: State, a: Action): State
    requires Can(cfg, s, a)
  {
    var c := s.core;
    match a
    case Tick(t) => s.(core := c.(clock := t))
    case Request => s.(core := c.(requested := true))
    case TakeUp(f) => s.(core := c.Take(f))
    case Begin(f) => s.(core := c.Start(f))
    case Finish(f, spent) => s.(core := c.Report(cfg, f, spent))
    case Settle(f) => s.(core := c.Settle(f))
    case Enter(wake) => DoEnter(cfg, s, wake)
    case AskOne(f) =>
      if KeyPresent(c, f) then State(c.Ask(f), Asking(s.pc.todo - {f})) else Break(s)
    case ResubmitOne(w) =>
      if w in c.retryWait && w < |c.items| then
        State(c.Resubmit(w), Resubmitting(s.pc.now, s.pc.due - {w}))
      else Break(s)
    case PullOne => DoPull(cfg, s)
    case Wake(done) => s.(pc := Collecting(done))
    case Interrupt => Leave(c, Interrupted)
    case CollectOne(f, delay, due) =>
      if f in c.abandoned then State(c.DropAbandoned(f), Collecting(s.pc.done - {f}))
      else if KeyPresent(c, f) && c.futures[f].phase.Done? then DoCollect(cfg, s, f, delay, due)
      else Break(s)
    case ScanOne(f, delay, due) =>
      if KeyPresent(c, f) && cfg.taskTimeout.Some? then DoScan(cfg, s, f, delay, due) else Break(s)
    case Resume =>
      s.(pc := match s.pc.back
               case OfCollect(done) => Collecting(done)
               case OfScan(now, todo) => Scanning(now, todo))
    case CloseHere => Leave(c, ClosedByConsumer)
    case CancelOne(f) =>
      if KeyPresent(c, f) then State(c.CancelFuture(f), Cancelling(s.pc.why, s.pc.todo - {f})) else Break(s)
    case DropOne(w) =>
      if w < |c.items| then State(c.CancelParked(w), Dropping(s.pc.why, s.pc.parked - {w})) else Break(s)
  }

  /** s leads to t by the given actions. */
  ghost predicate Path(cfg: Config, s: State, acts: seq<Action>, t: State)
    decreases |acts|
  {
    if acts == [] then s == t
    else Can(cfg, s, acts[0]) && Path(cfg, Do(cfg, s, acts[0]), acts[1..], t)
  }

  /** The states of all runs of cfg, at every moment. */
  ghost predicate Reachable(cfg: Config, s: State) {
    exists acts :: Path(cfg, Init(), acts, s)
  }

  lemma {:induction false} PathSnoc(cfg: Config, s: State, acts: seq<Action>, t: State, a: Action)
    requires Path(cfg, s, acts, t) && Can(cfg, t, a)
    ensures Path(cfg, s, acts + [a], Do(cfg, t, a))
    decreases |acts|
  {
    if acts == [] {
      var u := Do(cfg, t, a);
      assert (acts + [a])[1..] == [];
      assert Path(cfg, u, [], u);
    } else {
      PathSnoc(cfg, Do(cfg, s, acts[0]), acts[1..], t, a);
      assert (acts + [a])[1..] == acts[1..] + [a];
      assert (acts + [a])[0] == acts[0];
    }
  }

  lemma StartIsReachable(cfg: Config)
    ensures Reachable(cfg, Init())
  {
    assert Path(cfg, Init(), [], Init());
  }

  lemma ReachableSnoc(cfg: Config, s: State, a: Action)
    requires Reachable(cfg, s) && Can(cfg, s, a)
    ensures Reachable(cfg, Do(cfg, s, a))
  {
    var acts :| Path(cfg, Init(), acts, s);
    PathSnoc(cfg, Init(), acts, s, a);
  }
}

/**
 * The trainer's prefetch pipeline as an interleaving of threads: one coordinator thread, several
 * fetch threads and one ordered publisher, joined by bounded queues.
 * batchflow/integrations/pytorch/prefetcher.py.
 */
module Prefetcher {
  import opened Sequences

  datatype TaskItem = Task(sequence: nat) | Sentinel
  datatype ReadyItem = BatchItem(sequence: nat) | ErrorItem | EndItem

  /** Where the coordinator thread is; the last states are those of its finally block. */
  datatype CoordinatorPc =
    | CLoop
    | CPut(sequence: nat)
    | CBump
    | CDone
    | CPutEnd
    | CPutError
    | CRaiseStop
    | CSentinels(left: nat)
    | CExit

  /**
   * Where a fetch thread is; leaving says whether it ends after the pending end-of-run check.
   * A sentinel is followed by two such checks, the first of them at FSentinel.
   */
  datatype FetcherPc =
    | FTop
    | FWork(sequence: nat)
    | FPut(sequence: nat)
    | FSentinel
    | FCheck(leaving: bool)
    | FPutEnd(leaving: bool)
    | FPutError
    | FRaiseStop
    | FExit

  /** Where the publisher is; PHalt is the rest of its life after an item was dropped because of a stop. */
  datatype PublisherPc =
    | PTop
    | PHold
    | PAck(sequence: nat)
    | PPut(sequence: nat)
    | PBump
    | PCheck
    | PPutEnd
    | PPutError
    | PRaiseStop
    | PHalt
    | PExit

  datatype Config = Config(maxBatches: nat, fetchers: nat, capacity: nat) {
    predicate Ok() {
      fetchers > 0 && capacity > 0
    }
  }

  /** The three bounded queues; taken is what the trainer has received out of the ready queue. */
  datatype Queues = Queues(tasks: seq<TaskItem>, fetched: seq<nat>, ready: seq<ReadyItem>, taken: seq<ReadyItem>)

  /** handed only records history: how many sequence numbers have been given out. */
  datatype CoordinatorState = CoordinatorState(pc: CoordinatorPc, scheduled: nat, done: bool, handed: nat)

  datatype PublisherState = PublisherState(pc: PublisherPc, buffered: set<nat>, next: nat, published: nat)

  /** Two fields only record history: lost, the numbers dropped by a failure or a stop, and failed. */
  datatype State = State(
    q: Queues,
    co: CoordinatorState,
    fetchers: seq<FetcherPc>,
    pub: PublisherState,
    endSent: bool,
    stop: bool,
    lost: seq<nat>,
    failed: bool)

  /** Go is the thread's next step, Fail an exception in it, Quit its reaction to the stop event. */
  datatype Move = Go | Fail | Quit | NoMore

  datatype Action =
    | Coordinator(move: Move)
    | Fetcher(index: nat, move: Move)
    | Publisher(move: Move)
    | TrainerTake
    | StopEvent

  function Init(c: Config): State {
    State(Queues([], [], [], []), CoordinatorState(CLoop, 0, false, 0), seq(c.fetchers, _ => FTop),
          PublisherState(PTop, {}, 0, 0), false, false, [], false)
  }

  /** The checks of _maybe_send_end, made under its lock. */
  predicate EndDue(s: State) {
    !s.endSent && s.co.done && s.q.tasks == [] && s.q.fetched == [] && s.pub.published >= s.co.scheduled
  }

  function PutReady(s: State, item: ReadyItem): (r: State)
    ensures r.co == s.co && r.fetchers == s.fetchers && r.pub == s.pub && r.q.tasks == s.q.tasks && r.q.fetched == s.q.fetched
  {
    s.(q := s.q.(ready := s.q.ready + [item]))
  }

  function PutTask(s: State, item: TaskItem): State {
    s.(q := s.q.(tasks := s.q.tasks + [item]))
  }

  // The coordinator thread.

  predicate CoordinatorEnabled(c: Config, s: State, m: Move) {
    match m
    case Go =>
      (match s.co.pc
       case CLoop => s.co.scheduled < c.maxBatches
       case CPut(_) => |s.q.tasks| < c.capacity
       case CPutEnd => |s.q.ready| < c.capacity
       case CPutError => |s.q.ready| < c.capacity
       case CSentinels(n) => n == 0 || |s.q.tasks| < c.capacity
       case CExit => false
       case _ => true)
    case Fail => s.co.pc.CLoop? && !s.stop
    case Quit =>
      s.stop && (s.co.pc.CLoop? || s.co.pc.CPut? || s.co.pc.CPutEnd? || s.co.pc.CPutError?
                 || (s.co.pc.CSentinels? && s.co.pc.left > 0))
    case NoMore => s.co.pc.CLoop?
  }

  function AtC(s: State, pc: CoordinatorPc): (r: State)
    ensures r.q == s.q && r.fetchers == s.fetchers && r.pub == s.pub
  {
    s.(co := s.co.(pc := pc))
  }

  function CoordinatorGo(c: Config, s: State): State {
    match s.co.pc
    case CLoop => s.(co := s.co.(pc := CPut(s.co.scheduled), handed := s.co.handed + 1))
    case CPut(k) => PutTask(AtC(s, CBump), Task(k))
    case CBump => s.(co := s.co.(pc := CLoop, scheduled := s.co.scheduled + 1))
    case CDone => if EndDue(s) then AtC(s, CPutEnd).(endSent := true) else AtC(s, CSentinels(c.fetchers))
    case CPutEnd => PutReady(AtC(s, CSentinels(c.fetchers)), EndItem)
    case CPutError => PutReady(AtC(s, CRaiseStop), ErrorItem)
    case CRaiseStop => AtC(s, CSentinels(c.fetchers)).(stop := true)
    case CSentinels(n) => if n == 0 then AtC(s, CExit) else PutTask(AtC(s, CSentinels(n - 1)), Sentinel)
    case CExit => s
  }

  function CoordinatorQuit(c: Config, s: State): State {
    match s.co.pc
    case CPut(k) => AtC(s, CSentinels(c.fetchers)).(lost := s.lost + [k])
    case CPutError => AtC(s, CRaiseStop)
    case CSentinels(n) => if n == 0 then s else AtC(s, CSentinels(n - 1))
    case _ => AtC(s, CSentinels(c.fetchers))
  }

  function CoordinatorStep(c: Config, s: State, m: Move): State {
    match m
    case Go => CoordinatorGo(c, s)
    case Fail => AtC(s, CPutError).(failed := true)
    case Quit => CoordinatorQuit(c, s)
    case NoMore => s.(co := s.co.(pc := CDone, done := true))
  }

  // A fetch thread.

  predicate FetcherEnabled(c: Config, s: State, i: nat, m: Move) {
    && i < |s.fetchers|
    && match m
       case Go =>
         (match s.fetchers[i]
          case FTop => s.q.tasks != [] || EndDue(s)
          case FPut(_) => |s.q.fetched| < c.capacity
          case FPutEnd(_) => |s.q.ready| < c.capacity
          case FPutError => |s.q.ready| < c.capacity
          case FExit => false
          case _ => true)
       case Fail => s.fetchers[i].FWork?
       case Quit => s.stop && (s.fetchers[i].FTop? || s.fetchers[i].FPut? || s.fetchers[i].FPutEnd? || s.fetchers[i].FPutError?)
       case NoMore => false
  }

  function Leave(leaving: bool): FetcherPc {
    if leaving then FExit else FTop
  }

  function AtF(s: State, i: nat, pc: FetcherPc): State
    requires i < |s.fetchers|
  {
    s.(fetchers := s.fetchers[i := pc])
  }

  function FetcherGo(s: State, i: nat): State
    requires i < |s.fetchers|
  {
    match s.fetchers[i]
    case FTop =>
      if s.q.tasks == [] then
        if EndDue(s) then AtF(s, i, FPutEnd(false)).(endSent := true) else s
      else
        var took := s.(q := s.q.(tasks := s.q.tasks[1..]));
        AtF(took, i, if s.q.tasks[0].Task? then FWork(s.q.tasks[0].sequence) else FSentinel)
    case FWork(k) => AtF(s, i, FPut(k))
    case FPut(k) => AtF(s, i, FCheck(false)).(q := s.q.(fetched := s.q.fetched + [k]))
    case FSentinel => if EndDue(s) then AtF(s, i, FPutEnd(true)).(endSent := true) else AtF(s, i, FCheck(true))
    case FCheck(leaving) => if EndDue(s) then AtF(s, i, FPutEnd(leaving)).(endSent := true) else AtF(s, i, Leave(leaving))
    case FPutEnd(leaving) => PutReady(AtF(s, i, Leave(leaving)), EndItem)
    case FPutError => PutReady(AtF(s, i, FRaiseStop), ErrorItem)
    case FRaiseStop => AtF(s, i, FCheck(true)).(stop := true)
    case FExit => s
  }

  function FetcherFail(s: State, i: nat): State
    requires i < |s.fetchers|
  {
    if s.fetchers[i].FWork? then
      AtF(s, i, if s.stop then FCheck(false) else FPutError).(lost := s.lost + [s.fetchers[i].sequence], failed := true)
    else s
  }

  function FetcherQuit(s: State, i: nat): State
    requires i < |s.fetchers|
  {
    match s.fetchers[i]
    case FTop => AtF(s, i, FExit)
    case FPut(k) => AtF(s, i, FCheck(true)).(lost := s.lost + [k])
    case FPutEnd(leaving) => AtF(s, i, Leave(leaving))
    case FPutError => AtF(s, i, FRaiseStop)
    case _ => s
  }

  function FetcherStep(s: State, i: nat, m: Move): State
    requires i < |s.fetchers|
  {
    match m
    case Go => FetcherGo(s, i)
    case Fail => FetcherFail(s, i)
    case Quit => FetcherQuit(s, i)
    case NoMore => s
  }

  // The publisher.

  predicate PublisherEnabled(c: Config, s: State, m: Move) {
    match m
    case Go =>
      (match s.pub.pc
       case PTop => s.q.fetched != [] || EndDue(s)
       case PPut(_) => |s.q.ready| < c.capacity
       case PPutEnd => |s.q.ready| < c.capacity
       case PPutError => |s.q.ready| < c.capacity
       case PHalt => false
       case PExit => false
       case _ => true)
    case Fail => s.pub.pc.PAck?
    case Quit => s.stop && (s.pub.pc.PTop? || s.pub.pc.PPut? || s.pub.pc.PPutEnd? || s.pub.pc.PPutError?)
    case NoMore => false
  }

  function AtP(s: State, pc: PublisherPc): (r: State)
    ensures r.q == s.q && r.fetchers == s.fetchers && r.co == s.co
  {
    s.(pub := s.pub.(pc := pc))
  }

  /** Moves the next fetched result into the reorder buffer. */
  function TakeFetched(s: State): (r: State)
    requires s.q.fetched != []
    ensures r.co == s.co && r.fetchers == s.fetchers && r.q == s.q.(fetched := s.q.fetched[1..])
    ensures r.pub.pc == PHold && r.pub.next == s.pub.next && r.pub.published == s.pub.published
  {
    s.(q := s.q.(fetched := s.q.fetched[1..]), pub := s.pub.(pc := PHold, buffered := s.pub.buffered + {s.q.fetched[0]}))
  }

  /** Takes the next number in order out of the reorder buffer, if it is there. */
  function PopNext(s: State): (r: State)
    ensures r.co == s.co && r.fetchers == s.fetchers && r.q == s.q
    ensures r.pub.pc == PAck(s.pub.next) || r.pub.pc == PCheck
    ensures r.pub.next == s.pub.next && r.pub.published == s.pub.published
  {
    if s.pub.next in s.pub.buffered then s.(pub := s.pub.(pc := PAck(s.pub.next), buffered := s.pub.buffered - {s.pub.next}))
    else AtP(s, PCheck)
  }

  function PublisherGo(s: State): State {
    match s.pub.pc
    case PTop =>
      if s.q.fetched != [] then TakeFetched(s)
      else if EndDue(s) then AtP(s, PPutEnd).(endSent := true)
      else s
    case PHold => PopNext(s)
    case PAck(k) => AtP(s, PPut(k))
    case PPut(k) => PutReady(AtP(s, PBump), BatchItem(k))
    case PBump => s.(pub := s.pub.(pc := PHold, published := s.pub.published + 1, next := s.pub.next + 1))
    case PCheck => if EndDue(s) then AtP(s, PPutEnd).(endSent := true) else AtP(s, PTop)
    case PPutEnd => PutReady(AtP(s, PTop), EndItem)
    case PPutError => PutReady(AtP(s, PRaiseStop), ErrorItem)
    case PRaiseStop => AtP(s, PExit).(stop := true)
    case _ => s
  }

  function PublisherFail(s: State): State {
    if s.pub.pc.PAck? then
      AtP(s, if s.stop then PExit else PPutError).(lost := s.lost + [s.pub.pc.sequence], failed := true)
    else s
  }

  function PublisherQuit(s: State): State {
    match s.pub.pc
    case PTop => AtP(s, PExit)
    case PPut(k) => AtP(s, PHalt).(lost := s.lost + [k])
    case PPutEnd => AtP(s, PTop)
    case PPutError => AtP(s, PRaiseStop)
    case _ => s
  }

  function PublisherStep(s: State, m: Move): State {
    match m
    case Go => PublisherGo(s)
    case Fail => PublisherFail(s)
    case Quit => PublisherQuit(s)
    case NoMore => s
  }

  predicate Enabled(c: Config, s: State, a: Action) {
    match a
    case Coordinator(m) => CoordinatorEnabled(c, s, m)
    case Fetcher(i, m) => FetcherEnabled(c, s, i, m)
    case Publisher(m) => PublisherEnabled(c, s, m)
    case TrainerTake => s.q.ready != []
    case StopEvent => !s.stop
  }

  function Apply(c: Config, s: State, a: Action): State
    requires Enabled(c, s, a)
  {
    match a
    case Coordinator(m) => CoordinatorStep(c, s, m)
    case Fetcher(i, m) => FetcherStep(s, i, m)
    case Publisher(m) => PublisherStep(s, m)
    case TrainerTake => s.(q := s.q.(ready := s.q.ready[1..], taken := s.q.taken + [s.q.ready[0]]))
    case StopEvent => s.(stop := true)
  }

  predicate ValidRun(c: Config, s: State, run: seq<Action>)
    decreases |run|
  {
    run == [] || (Enabled(c, s, run[0]) && ValidRun(c, Apply(c, s, run[0]), run[1..]))
  }

  function After(c: Config, s: State, run: seq<Action>): State
    requires ValidRun(c, s, run)
    decreases |run|
  {
    if run == [] then s else After(c, Apply(c, s, run[0]), run[1..])
  }
}

/** How the steps of one thread look from that thread, and what the other threads cannot change. */
module PrefetcherThreads {
  import opened Text
  import opened Prefetcher
  import opened PrefetcherSafety
  import opened PrefetcherDelivery

  datatype Thread = CoordinatorThread | FetchThread(index: nat) | PublishThread

  /** What only the thread itself writes. */
  datatype Local = OfCoordinator(co: CoordinatorState) | OfFetcher(pc: FetcherPc) | OfPublisher(pub: PublisherState)

  predicate Exists(s: State, me: Thread) {
    me.FetchThread? ==> me.index < |s.fetchers|
  }

  function LocalOf(s: State, me: Thread): Local
    requires Exists(s, me)
  {
    match me
    case CoordinatorThread => OfCoordinator(s.co)
    case FetchThread(i) => OfFetcher(s.fetchers[i])
    case PublishThread => OfPublisher(s.pub)
  }

  function By(me: Thread, m: Move): Action {
    match me
    case CoordinatorThread => Coordinator(m)
    case FetchThread(i) => Fetcher(i, m)
    case PublishThread => Publisher(m)
  }

  predicate IsBy(me: Thread, a: Action) {
    match a
    case Coordinator(_) => me.CoordinatorThread?
    case Fetcher(i, _) => me == FetchThread(i)
    case Publisher(_) => me.PublishThread?
    case _ => false
  }

  /** A step of somebody else leaves a thread where it is. */
  lemma OthersLeaveAlone(c: Config, s: State, me: Thread, a: Action)
    requires Enabled(c, s, a) && Exists(s, me) && !IsBy(me, a)
    ensures Exists(Apply(c, s, a), me) && LocalOf(Apply(c, s, a), me) == LocalOf(s, me)
  {
    hide EndDue, FetcherStep, PublisherStep, CoordinatorStep;
    match a
    case Coordinator(m) => CoordinatorOnly(c, s, m);
    case Fetcher(i, m) => FetcherFrame(s, i, m);
    case Publisher(m) => PublisherFrame(s, m);
    case _ =>
  }

  lemma CoordinatorOnly(c: Config, s: State, m: Move)
    ensures CoordinatorStep(c, s, m).fetchers == s.fetchers && CoordinatorStep(c, s, m).pub == s.pub
  {
    hide EndDue;
    match s.co.pc
    case CPut(_) =>
    case _ =>
  }

  // Runs grow by one step at a time.

  lemma {:induction false} RunGrows(c: Config, s: State, run: seq<Action>, a: Action)
    requires ValidRun(c, s, run) && Enabled(c, After(c, s, run), a)
    ensures ValidRun(c, s, run + [a]) && After(c, s, run + [a]) == Apply(c, After(c, s, run), a)
    decreases |run|
  {
    hide Apply, Enabled;
    if run == [] {
      OneStep(c, s, a);
      assert run + [a] == [a];
    } else {
      assert (run + [a])[0] == run[0] && (run + [a])[1..] == run[1..] + [a];
      RunGrows(c, Apply(c, s, run[0]), run[1..], a);
    }
  }

  lemma OneStep(c: Config, s: State, a: Action)
    requires Enabled(c, s, a)
    ensures ValidRun(c, s, [a]) && After(c, s, [a]) == Apply(c, s, a)
  {
    hide Apply, Enabled;
    assert [a][1..] == [];
  }

  /** The recorded run leads from the start to the state shown. */
  predicate Reached(c: Config, run: seq<Action>, s: State) {
    c.Ok() && ValidRun(c, Init(c), run) && After(c, Init(c), run) == s
  }

  lemma StartIsReached(c: Config)
    requires c.Ok()
    ensures Reached(c, [], Init(c))
  {
  }

  lemma NextIsReached(c: Config, run: seq<Action>, s: State, a: Action)
    requires Reached(c, run, s) && Enabled(c, s, a)
    ensures Reached(c, run + [a], Apply(c, s, a))
  {
    hide Apply, Enabled, ValidRun, After;
    RunGrows(c, Init(c), run, a);
  }

  lemma ReachedIsSafe(c: Config, run: seq<Action>, s: State)
    requires Reached(c, run, s)
    ensures Inv(c, s) && |s.fetchers| == c.fetchers
  {
    hide Partition, ThreadsInv, FailureInv, EndInv, LogInv, ValidRun, After;
    InitInv(c);
    RunPreserves(c, Init(c), run);
  }

  // Putting into the ready queue, from whichever thread.

  /** The item that the thread is about to put into the ready queue. */
  function Offered(l: Local): Option<ReadyItem> {
    match l
    case OfCoordinator(co) => if co.pc.CPutEnd? then Some(EndItem) else if co.pc.CPutError? then Some(ErrorItem) else None
    case OfFetcher(pc) => if pc.FPutEnd? then Some(EndItem) else if pc.FPutError? then Some(ErrorItem) else None
    case OfPublisher(pub) =>
      if pub.pc.PPutEnd? then Some(EndItem) else if pub.pc.PPutError? then Some(ErrorItem)
      else if pub.pc.PPut? then Some(BatchItem(pub.pc.sequence)) else None
  }

  /** The publisher has dropped a batch because of a stop. */
  predicate HasHalted(l: Local) {
    l.OfPublisher? && l.pub.pc.PHalt?
  }

  predicate HasDropped(s: State) {
    s.pub.pc.PHalt? && s.stop && s.pub.next in s.lost
  }

  lemma DroppedStays(s: State, s': State)
    requires Later(s, s') && s'.pub == s.pub
    ensures HasDropped(s) ==> HasDropped(s')
  {
  }

  lemma HaltedOffersNothing(l: Local)
    ensures HasHalted(l) ==> Offered(l).None?
  {
  }

  /** Where the thread goes on once the item is in the queue, or once it was dropped because of a stop. */
  function Offering(c: Config, l: Local, accepted: bool): Local {
    match l
    case OfCoordinator(co) => OfCoordinator(co.(pc := if co.pc.CPutEnd? then CSentinels(c.fetchers) else CRaiseStop))
    case OfFetcher(pc) => OfFetcher(if pc.FPutEnd? then Leave(pc.leaving) else FRaiseStop)
    case OfPublisher(pub) =>
      OfPublisher(pub.(pc := if pub.pc.PPut? then (if accepted then PBump else PHalt) else if pub.pc.PPutEnd? then PTop else PRaiseStop))
  }

  /** The two states agree on everything that threads share, but perhaps for the ready queue. */
  predicate SameButReady(s: State, s': State) {
    && s'.q == s.q.(ready := s'.q.ready) && s'.co.scheduled == s.co.scheduled && s'.co.done == s.co.done
    && s'.pub.published == s.pub.published && s'.endSent == s.endSent && s'.stop == s.stop
  }

  lemma OfferIsAccepted(c: Config, s: State, me: Thread)
    requires Exists(s, me) && Offered(LocalOf(s, me)).Some? && |s.q.ready| < c.capacity
    ensures Enabled(c, s, By(me, Go))
    ensures var s' := Apply(c, s, By(me, Go));
            && SameButReady(s, s') && s'.q.ready == s.q.ready + [Offered(LocalOf(s, me)).value]
            && Exists(s', me) && LocalOf(s', me) == Offering(c, LocalOf(s, me), true)
  {
    hide EndDue;
    match me
    case CoordinatorThread =>
      match s.co.pc {
        case CPutEnd =>
        case CPutError =>
        case _ =>
      }
    case FetchThread(i) =>
      match s.fetchers[i] {
        case FPutEnd(_) =>
        case FPutError =>
        case _ =>
      }
    case PublishThread =>
      match s.pub.pc {
        case PPut(_) =>
        case PPutEnd =>
        case PPutError =>
        case _ =>
      }
  }

  lemma OfferNeedsRoom(c: Config, s: State, me: Thread)
    requires Exists(s, me) && Offered(LocalOf(s, me)).Some? && |s.q.ready| >= c.capacity
    ensures !Enabled(c, s, By(me, Go))
  {
    hide EndDue;
    match me
    case CoordinatorThread =>
    case FetchThread(i) =>
    case PublishThread =>
  }

  lemma OfferIsDropped(c: Config, s: State, me: Thread)
    requires Exists(s, me) && Offered(LocalOf(s, me)).Some? && s.stop
    ensures Enabled(c, s, By(me, Quit))
    ensures var s' := Apply(c, s, By(me, Quit));
            && SameButReady(s, s') && s'.q.ready == s.q.ready
            && Exists(s', me) && LocalOf(s', me) == Offering(c, LocalOf(s, me), false)
            && (me.PublishThread? && s.pub.pc.PPut? ==> s.pub.pc.sequence in s'.lost)
  {
    hide EndDue;
    match me
    case CoordinatorThread =>
      match s.co.pc {
        case CPutEnd =>
        case CPutError =>
        case _ =>
      }
    case FetchThread(i) =>
      match s.fetchers[i] {
        case FPutEnd(_) =>
        case FPutError =>
        case _ =>
      }
    case PublishThread =>
      match s.pub.pc {
        case PPut(_) =>
        case PPutEnd =>
        case PPutError =>
        case _ =>
      }
  }

  // The check for the end of the run, from whichever thread.

  /** The thread is at a check; an idle one has found its queue empty and moves only if the end is due. */
  predicate Checking(l: Local, idle: bool) {
    match l
    case OfCoordinator(co) => !idle && co.pc.CDone?
    case OfFetcher(pc) => if idle then pc.FTop? else pc.FSentinel? || pc.FCheck?
    case OfPublisher(pub) => if idle then pub.pc.PTop? else pub.pc.PCheck?
  }

  function Leaves(pc: FetcherPc): bool {
    pc.FSentinel? || (pc.FCheck? && pc.leaving)
  }

  /** Where the thread stands when it has won the race for the end marker. */
  function Winning(l: Local): Local {
    match l
    case OfCoordinator(co) => OfCoordinator(co.(pc := CPutEnd))
    case OfFetcher(pc) => OfFetcher(FPutEnd(Leaves(pc)))
    case OfPublisher(pub) => OfPublisher(pub.(pc := PPutEnd))
  }

  /** Where it goes on if it has not. */
  function Passing(c: Config, l: Local): Local {
    match l
    case OfCoordinator(co) => OfCoordinator(co.(pc := CSentinels(c.fetchers)))
    case OfFetcher(pc) => OfFetcher(if pc.FSentinel? then FCheck(true) else if pc.FCheck? then Leave(pc.leaving) else pc)
    case OfPublisher(pub) => OfPublisher(pub.(pc := PTop))
  }

  lemma CheckWins(c: Config, s: State, me: Thread, idle: bool)
    requires Exists(s, me) && Checking(LocalOf(s, me), idle) && EndDue(s)
    ensures Enabled(c, s, By(me, Go))
    ensures var s' := Apply(c, s, By(me, Go));
            && s' == s.(co := s'.co, fetchers := s'.fetchers, pub := s'.pub, endSent := true) && SameButReady(s.(endSent := true), s')
            && Exists(s', me) && LocalOf(s', me) == Winning(LocalOf(s, me)) && Offered(LocalOf(s', me)) == Some(EndItem)
  {
    match me
    case CoordinatorThread =>
    case FetchThread(i) =>
    case PublishThread =>
  }

  lemma CheckPasses(c: Config, s: State, me: Thread)
    requires Exists(s, me) && Checking(LocalOf(s, me), false) && !EndDue(s)
    ensures Enabled(c, s, By(me, Go))
    ensures var s' := Apply(c, s, By(me, Go));
            && SameButReady(s, s') && s'.q.ready == s.q.ready
            && Exists(s', me) && LocalOf(s', me) == Passing(c, LocalOf(s, me))
  {
    hide EndDue;
    match me
    case CoordinatorThread =>
    case FetchThread(i) =>
    case PublishThread =>
  }

  /** A publisher that has dropped a batch never finds the end due: that batch has not been published. */
  lemma HaltedIsNotDue(c: Config, s: State)
    requires Inv(c, s) && HasDropped(s)
    ensures !EndDue(s)
  {
    hide EndInv, LogInv, FailureInv, QueuesBounded;
    var i :| 0 <= i < |s.lost| && s.lost[i] == s.pub.next;
    CountMember(s.lost, i);
    assert PlaceCount(s, s.pub.next) == (if s.pub.next < s.co.handed then 1 else 0);
  }
}

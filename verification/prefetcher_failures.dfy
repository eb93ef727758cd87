/**
 * No failure is swallowed: whichever thread fails, the trainer is handed an error, the stop event is
 * set and all threads end. Together with the quiet runs this covers every run there is.
 */
module PrefetcherFailures {
  import opened Text
  import opened Prefetcher
  import opened PrefetcherSafety
  import opened PrefetcherDelivery
  import opened PrefetcherThreads
  import opened PrefetcherProgress

  /** Whether a thread is about to offer an error to the trainer, or has offered it and is about to stop all. */
  datatype Alarm = Calm | Ringing | Raising

  function AlarmOf(l: Local): Alarm {
    match l
    case OfCoordinator(co) => if co.pc.CPutError? then Ringing else if co.pc.CRaiseStop? then Raising else Calm
    case OfFetcher(pc) => if pc.FPutError? then Ringing else if pc.FRaiseStop? then Raising else Calm
    case OfPublisher(pub) => if pub.pc.PPutError? then Ringing else if pub.pc.PRaiseStop? then Raising else Calm
  }

  predicate ErrorShown(s: State) {
    ErrorItem in Log(s.q)
  }

  /** How one step of a thread changes its alarm, and what goes with that. */
  predicate AlarmStep(s: State, s': State, before: Alarm, after: Alarm) {
    && Log(s.q) <= Log(s'.q) && (s.failed ==> s'.failed) && (s.stop ==> s'.stop)
    && (before.Ringing? ==> after.Raising? && (s.stop || ErrorShown(s')))
    && (after.Raising? ==> before.Ringing?)
    && (before.Raising? ==> s'.stop)
    && (s'.stop && !s.stop ==> before.Raising?)
    && (s'.failed && !s.failed ==> after.Ringing? || s.stop)
  }

  lemma CoordinatorAlarm(c: Config, s: State, m: Move)
    requires CoordinatorEnabled(c, s, m)
    ensures AlarmStep(s, CoordinatorStep(c, s, m), AlarmOf(OfCoordinator(s.co)), AlarmOf(OfCoordinator(CoordinatorStep(c, s, m).co)))
  {
    hide EndDue;
    match s.co.pc
    case CLoop =>
    case CPut(_) =>
    case CDone =>
    case CPutEnd =>
    case CPutError =>
    case CRaiseStop =>
    case CSentinels(_) =>
    case _ =>
  }

  lemma FetcherAlarm(c: Config, s: State, i: nat, m: Move)
    requires i < |s.fetchers| && FetcherEnabled(c, s, i, m)
    ensures |FetcherStep(s, i, m).fetchers| == |s.fetchers|
    ensures AlarmStep(s, FetcherStep(s, i, m), AlarmOf(OfFetcher(s.fetchers[i])), AlarmOf(OfFetcher(FetcherStep(s, i, m).fetchers[i])))
  {
    hide EndDue;
    match s.fetchers[i]
    case FTop =>
    case FWork(_) =>
    case FPut(_) =>
    case FSentinel =>
    case FCheck(_) =>
    case FPutEnd(_) =>
    case FPutError =>
    case FRaiseStop =>
    case FExit =>
  }

  lemma PublisherAlarm(c: Config, s: State, m: Move)
    requires PublisherEnabled(c, s, m)
    ensures AlarmStep(s, PublisherStep(s, m), AlarmOf(OfPublisher(s.pub)), AlarmOf(OfPublisher(PublisherStep(s, m).pub)))
  {
    hide EndDue;
    match s.pub.pc
    case PTop =>
    case PHold =>
    case PAck(_) =>
    case PPut(_) =>
    case PCheck =>
    case PPutEnd =>
    case PPutError =>
    case PRaiseStop =>
    case _ =>
  }

  lemma ThreadAlarm(c: Config, s: State, me: Thread, m: Move)
    requires Exists(s, me) && Enabled(c, s, By(me, m))
    ensures Exists(Apply(c, s, By(me, m)), me)
    ensures AlarmStep(s, Apply(c, s, By(me, m)), AlarmOf(LocalOf(s, me)), AlarmOf(LocalOf(Apply(c, s, By(me, m)), me)))
  {
    hide AlarmStep, AlarmOf, CoordinatorStep, FetcherStep, PublisherStep, CoordinatorEnabled, FetcherEnabled, PublisherEnabled;
    match me
    case CoordinatorThread => CoordinatorAlarm(c, s, m);
    case FetchThread(i) => FetcherAlarm(c, s, i, m);
    case PublishThread => PublisherAlarm(c, s, m);
  }

  predicate IsFailure(a: Action) {
    match a
    case Coordinator(m) => m.Fail?
    case Fetcher(_, m) => m.Fail?
    case Publisher(m) => m.Fail?
    case _ => false
  }

  predicate HasFailure(run: seq<Action>) {
    exists k :: 0 <= k < |run| && IsFailure(run[k])
  }

  lemma FailuresStay(run: seq<Action>, a: Action)
    ensures HasFailure(run) || IsFailure(a) ==> HasFailure(run + [a])
  {
    if IsFailure(a) {
      assert (run + [a])[|run|] == a;
    } else if HasFailure(run) {
      var k :| 0 <= k < |run| && IsFailure(run[k]);
      assert (run + [a])[k] == run[k];
    }
  }

  lemma FailureIsNoted(c: Config, s: State, a: Action)
    requires Enabled(c, s, a) && IsFailure(a)
    ensures Apply(c, s, a).failed
  {
  }

  ghost predicate SomeoneOffers(s: State) {
    exists me: Thread :: Exists(s, me) && AlarmOf(LocalOf(s, me)).Ringing?
  }

  /** As long as nobody stops the run from outside: a failure has been shown to the trainer or is being offered. */
  ghost predicate Heeded(s: State) {
    && (forall me: Thread :: Exists(s, me) && AlarmOf(LocalOf(s, me)).Raising? ==> ErrorShown(s))
    && (s.stop ==> ErrorShown(s))
    && (s.failed ==> ErrorShown(s) || SomeoneOffers(s))
  }

  lemma InitHeeded(c: Config)
    ensures Heeded(Init(c))
  {
  }

  lemma ShownStays(s: State, s': State)
    requires Log(s.q) <= Log(s'.q)
    ensures ErrorShown(s) ==> ErrorShown(s')
  {
    if ErrorShown(s) {
      var i :| 0 <= i < |Log(s.q)| && Log(s.q)[i] == ErrorItem;
      assert Log(s'.q)[i] == ErrorItem;
    }
  }

  /** The thread that has made a step. */
  function Actor(a: Action): Thread
    requires !a.TrainerTake? && !a.StopEvent?
  {
    match a
    case Coordinator(_) => CoordinatorThread
    case Fetcher(i, _) => FetchThread(i)
    case Publisher(_) => PublishThread
  }

  function MoveOf(a: Action): Move
    requires !a.TrainerTake? && !a.StopEvent?
  {
    match a
    case Coordinator(m) => m
    case Fetcher(_, m) => m
    case Publisher(m) => m
  }

  lemma ActorExists(c: Config, s: State, a: Action)
    requires Enabled(c, s, a) && !a.TrainerTake? && !a.StopEvent?
    ensures Exists(s, Actor(a)) && By(Actor(a), MoveOf(a)) == a && |Apply(c, s, a).fetchers| == |s.fetchers|
    ensures forall me :: me != Actor(a) ==> !IsBy(me, a)
  {
    hide CoordinatorStep, FetcherStep, PublisherStep;
    StepIsLater(c, s, a);
  }

  lemma TrainerStepHeeds(c: Config, s: State)
    requires Heeded(s) && Enabled(c, s, TrainerTake)
    ensures Heeded(Apply(c, s, TrainerTake))
  {
    var s' := Apply(c, s, TrainerTake);
    TakeKeepsLog(c, s);
    hide Log;
    forall me: Thread | Exists(s, me)
      ensures LocalOf(s', me) == LocalOf(s, me)
    {
    }
  }

  lemma OfferStays(c: Config, s: State, a: Action)
    requires Enabled(c, s, a) && !a.TrainerTake? && !a.StopEvent? && SomeoneOffers(s)
    ensures var s' := Apply(c, s, a); SomeoneOffers(s') || s.stop || ErrorShown(s')
  {
    hide Enabled, Apply, LocalOf, AlarmOf, ErrorShown;
    var s' := Apply(c, s, a);
    ActorExists(c, s, a);
    var me: Thread :| Exists(s, me) && AlarmOf(LocalOf(s, me)).Ringing?;
    if me == Actor(a) {
      ThreadAlarm(c, s, me, MoveOf(a));
    } else {
      OthersLeaveAlone(c, s, me, a);
      assert AlarmOf(LocalOf(s', me)).Ringing?;
    }
  }

  lemma StepHeeds(c: Config, s: State, a: Action)
    requires Heeded(s) && Enabled(c, s, a) && a != StopEvent
    ensures Heeded(Apply(c, s, a))
  {
    hide Enabled, Apply, LocalOf, AlarmOf, ErrorShown, SomeoneOffers;
    if a == TrainerTake {
      TrainerStepHeeds(c, s);
    } else {
      var s' := Apply(c, s, a);
      ActorExists(c, s, a);
      var actor := Actor(a);
      ThreadAlarm(c, s, actor, MoveOf(a));
      ShownStays(s, s');
      forall me: Thread | Exists(s', me) && AlarmOf(LocalOf(s', me)).Raising?
        ensures ErrorShown(s')
      {
        if me != actor {
          OthersLeaveAlone(c, s, me, a);
        }
      }
      if SomeoneOffers(s) {
        OfferStays(c, s, a);
      }
      if s'.failed && !s.failed && !s.stop {
        OffererIsSomeone(s', actor);
      }
    }
  }

  lemma OffererIsSomeone(s: State, me: Thread)
    requires Exists(s, me) && AlarmOf(LocalOf(s, me)).Ringing?
    ensures SomeoneOffers(s)
  {
  }

  lemma {:induction false} RunHeeds(c: Config, s: State, run: seq<Action>)
    requires Heeded(s) && ValidRun(c, s, run) && StopEvent !in run
    ensures Heeded(After(c, s, run))
    decreases |run|
  {
    hide Heeded, Enabled, Apply;
    if run != [] {
      assert run[0] in run;
      StepHeeds(c, s, run[0]);
      RunHeeds(c, Apply(c, s, run[0]), run[1..]);
    }
  }

  lemma FailedStays(c: Config, s: State, a: Action)
    requires Enabled(c, s, a) && s.failed
    ensures Apply(c, s, a).failed
  {
    hide Enabled, Apply, LocalOf, AlarmOf;
    if a.TrainerTake? || a.StopEvent? {
      OutsideKeepsFailed(c, s, a);
    } else {
      ActorExists(c, s, a);
      ThreadAlarm(c, s, Actor(a), MoveOf(a));
    }
  }

  lemma OutsideKeepsFailed(c: Config, s: State, a: Action)
    requires Enabled(c, s, a) && (a.TrainerTake? || a.StopEvent?)
    ensures Apply(c, s, a).failed == s.failed && (s.stop ==> Apply(c, s, a).stop)
  {
  }

  lemma {:induction false} FailuresAreNoted(c: Config, s: State, run: seq<Action>)
    requires ValidRun(c, s, run) && (s.failed || HasFailure(run))
    ensures After(c, s, run).failed
    decreases |run|
  {
    hide Enabled, Apply, IsFailure;
    if run != [] {
      if IsFailure(run[0]) {
        FailureIsNoted(c, s, run[0]);
      } else if s.failed {
        FailedStays(c, s, run[0]);
      } else {
        var k :| 0 <= k < |run| && IsFailure(run[k]);
        assert run[1..][k - 1] == run[k];
      }
      FailuresAreNoted(c, Apply(c, s, run[0]), run[1..]);
    }
  }

  /**
   * After a failure of any thread, in a run that is not stopped from outside, the trainer has the
   * error, finds it in its queue or is being offered it; and the stop event is set only then.
   */
  lemma FailuresReachTheTrainer(c: Config, run: seq<Action>)
    requires c.Ok() && ValidRun(c, Init(c), run) && StopEvent !in run
    ensures var s := After(c, Init(c), run);
            && (HasFailure(run) ==> ErrorItem in s.q.taken + s.q.ready || SomeoneOffers(s))
            && (s.stop ==> ErrorItem in s.q.taken + s.q.ready)
  {
    hide Init, SomeoneOffers, ValidRun, After;
    InitHeeded(c);
    RunHeeds(c, Init(c), run);
    if HasFailure(run) {
      FailuresAreNoted(c, Init(c), run);
    }
  }

  // Runs that have gone as far as they can.

  /** Nobody but somebody outside, who may stop the run, can do anything. */
  ghost predicate AtRest(c: Config, s: State) {
    forall a: Action :: a != StopEvent ==> !Enabled(c, s, a)
  }

  predicate Gone(l: Local) {
    match l
    case OfCoordinator(co) => co.pc.CExit?
    case OfFetcher(pc) => pc.FExit?
    case OfPublisher(pub) => pub.pc.PExit? || pub.pc.PHalt?
  }

  /** With room in the ready queue, a thread in alarm can go on. */
  lemma AlarmGoesOn(c: Config, s: State, me: Thread)
    requires c.Ok() && Exists(s, me) && s.q.ready == [] && !AlarmOf(LocalOf(s, me)).Calm?
    ensures Enabled(c, s, By(me, Go))
  {
    match me
    case CoordinatorThread =>
    case FetchThread(i) =>
    case PublishThread =>
  }

  lemma CoordinatorStops(c: Config, s: State) returns (m: Move)
    requires s.stop && !s.co.pc.CExit?
    ensures CoordinatorEnabled(c, s, m)
  {
    match s.co.pc
    case CLoop => m := Quit;
    case CPut(_) => m := Quit;
    case CPutEnd => m := Quit;
    case CPutError => m := Quit;
    case CSentinels(n) => m := if n == 0 then Go else Quit;
    case _ => m := Go;
  }

  lemma FetcherStops(c: Config, s: State, i: nat) returns (m: Move)
    requires s.stop && i < |s.fetchers| && !s.fetchers[i].FExit?
    ensures FetcherEnabled(c, s, i, m)
  {
    match s.fetchers[i]
    case FTop => m := Quit;
    case FPut(_) => m := Quit;
    case FPutEnd(_) => m := Quit;
    case FPutError => m := Quit;
    case _ => m := Go;
  }

  lemma PublisherStops(c: Config, s: State) returns (m: Move)
    requires s.stop && !s.pub.pc.PExit? && !s.pub.pc.PHalt?
    ensures PublisherEnabled(c, s, m)
  {
    match s.pub.pc
    case PTop => m := Quit;
    case PPut(_) => m := Quit;
    case PPutEnd => m := Quit;
    case PPutError => m := Quit;
    case _ => m := Go;
  }

  /** Once the stop event is set, every thread can go on until it has ended. */
  lemma StoppedThreadsEnd(c: Config, s: State, me: Thread)
    requires s.stop && Exists(s, me) && AtRest(c, s)
    ensures Gone(LocalOf(s, me))
  {
    if !Gone(LocalOf(s, me)) {
      var m: Move;
      match me {
        case CoordinatorThread => m := CoordinatorStops(c, s);
        case FetchThread(i) => m := FetcherStops(c, s, i);
        case PublishThread => m := PublisherStops(c, s);
      }
      assert By(me, m) != StopEvent && Enabled(c, s, By(me, m));
    }
  }

  lemma RestLeavesNothing(c: Config, s: State)
    requires AtRest(c, s)
    ensures s.q.ready == []
    ensures c.Ok() ==> forall me: Thread :: Exists(s, me) ==> AlarmOf(LocalOf(s, me)).Calm?
  {
    assert !Enabled(c, s, TrainerTake);
    forall me: Thread | c.Ok() && Exists(s, me)
      ensures AlarmOf(LocalOf(s, me)).Calm?
    {
      hide LocalOf, AlarmOf;
      if !AlarmOf(LocalOf(s, me)).Calm? {
        AlarmGoesOn(c, s, me);
      }
    }
  }

  /** Some thread is in alarm, or the stop event is set. */
  ghost predicate Troubled(s: State) {
    s.stop || exists me: Thread :: Exists(s, me) && !AlarmOf(LocalOf(s, me)).Calm?
  }

  lemma TroubleStays(c: Config, s: State, a: Action)
    requires Enabled(c, s, a) && Troubled(s)
    ensures Troubled(Apply(c, s, a))
  {
    hide Enabled, Apply, LocalOf, AlarmOf;
    StepIsLater(c, s, a);
    if !s.stop {
      var s' := Apply(c, s, a);
      var me: Thread :| Exists(s, me) && !AlarmOf(LocalOf(s, me)).Calm?;
      if !IsBy(me, a) {
        OthersLeaveAlone(c, s, me, a);
        assert Exists(s', me) && !AlarmOf(LocalOf(s', me)).Calm?;
      } else {
        ByIsActor(me, a);
        ThreadAlarm(c, s, me, MoveOf(a));
      }
    }
  }

  lemma ByIsActor(me: Thread, a: Action)
    requires IsBy(me, a)
    ensures !a.TrainerTake? && !a.StopEvent? && me == Actor(a) && By(me, MoveOf(a)) == a
  {
  }

  /** Only trouble makes a step that is not quiet. */
  lemma LoudMeansTrouble(c: Config, s: State, a: Action)
    requires Enabled(c, s, a) && !Quiet(a)
    ensures Troubled(Apply(c, s, a))
  {
    var s' := Apply(c, s, a);
    match a
    case Coordinator(m) =>
      CoordinatorAlarm(c, s, m);
      if m.Fail? { AlarmIsTrouble(s', CoordinatorThread); }
    case Fetcher(i, m) =>
      FetcherAlarm(c, s, i, m);
      if !s'.stop { AlarmIsTrouble(s', FetchThread(i)); }
    case Publisher(m) =>
      PublisherAlarm(c, s, m);
      if !s'.stop { AlarmIsTrouble(s', PublishThread); }
    case _ =>
  }

  lemma AlarmIsTrouble(s: State, me: Thread)
    requires Exists(s, me) && !AlarmOf(LocalOf(s, me)).Calm?
    ensures Troubled(s)
  {
  }

  lemma {:induction false} TroubleLasts(c: Config, s: State, run: seq<Action>)
    requires ValidRun(c, s, run) && (Troubled(s) || !QuietRun(run))
    ensures Troubled(After(c, s, run))
    decreases |run|
  {
    hide Enabled, Apply, Quiet, Troubled;
    if run != [] {
      if Troubled(s) {
        TroubleStays(c, s, run[0]);
      } else if !Quiet(run[0]) {
        LoudMeansTrouble(c, s, run[0]);
      } else {
        var k :| 0 <= k < |run| && !Quiet(run[k]);
        assert run[1..][k - 1] == run[k];
      }
      TroubleLasts(c, Apply(c, s, run[0]), run[1..]);
    }
  }

  /** What holds when a run has gone as far as it can. */
  ghost predicate WellEnded(s: State, run: seq<Action>) {
    if s.stop then
      && (forall me: Thread :: Exists(s, me) ==> Gone(LocalOf(s, me)))
      && (StopEvent !in run ==> ErrorItem in s.q.taken)
    else Finished(s) && QuietRun(run)
  }

  /**
   * Every run is short, whatever fails and whoever stops it. When it can go no further, either nothing
   * went wrong and the trainer has everything and the end marker; or all threads have ended and,
   * unless the run was stopped from outside, the trainer has an error. A failure excludes the former.
   */
  lemma EveryMaximalRunEnds(c: Config, run: seq<Action>)
    requires c.Ok() && ValidRun(c, Init(c), run)
    ensures |run| <= Budget(c)
    ensures AtRest(c, After(c, Init(c), run)) ==> WellEnded(After(c, Init(c), run), run)
    ensures AtRest(c, After(c, Init(c), run)) && HasFailure(run) ==> After(c, Init(c), run).stop
  {
    hide Init, Inv, ValidRun, After, Budget, Troubled, AlarmOf, LocalOf, Gone, Finished, Quiet, IsFailure, AtRest;
    StartIsSafe(c);
    RunIsShort(c, Init(c), run);
    InitialScore(c);
    var s := After(c, Init(c), run);
    if AtRest(c, s) {
      RestIsEnd(c, run, s);
    }
  }

  lemma StartIsSafe(c: Config)
    requires c.Ok()
    ensures Inv(c, Init(c)) && Init(c).co.handed <= c.maxBatches
  {
    InitInv(c);
  }

  lemma RestIsEnd(c: Config, run: seq<Action>, s: State)
    requires c.Ok() && ValidRun(c, Init(c), run) && s == After(c, Init(c), run) && AtRest(c, s)
    ensures WellEnded(s, run) && (HasFailure(run) ==> s.stop)
  {
    hide Init, ValidRun, After, AlarmOf, LocalOf, Gone, Finished, AtRest, Quiet, IsFailure, Enabled;
    RestLeavesNothing(c, s);
    if s.stop {
      forall me: Thread | Exists(s, me)
        ensures Gone(LocalOf(s, me))
      {
        StoppedThreadsEnd(c, s, me);
      }
      if StopEvent !in run {
        FailuresReachTheTrainer(c, run);
        assert s.q.taken + s.q.ready == s.q.taken;
      }
    } else {
      if !QuietRun(run) {
        TroubleLasts(c, Init(c), run);
      }
      FailureIsLoud(run);
      QuietlyAtRest(c, s);
      EveryMaximalQuietRunFinishes(c, run);
    }
  }

  lemma FailureIsLoud(run: seq<Action>)
    ensures QuietRun(run) ==> !HasFailure(run)
  {
  }

  lemma QuietlyAtRest(c: Config, s: State)
    requires AtRest(c, s)
    ensures forall a :: Quiet(a) ==> !Enabled(c, s, a)
  {
  }
}

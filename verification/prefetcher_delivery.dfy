/** What every run of the prefetch pipeline guarantees about delivery and about the end marker. */
module PrefetcherDelivery {
  import opened Prefetcher
  import opened PrefetcherSafety

  // What every run from the initial state guarantees.

  /** No number is duplicated or forgotten, whatever the interleaving, failures and stops. */
  lemma EveryNumberIsInExactlyOnePlace(c: Config, run: seq<Action>, k: nat)
    requires c.Ok() && ValidRun(c, Init(c), run)
    ensures var s := After(c, Init(c), run); PlaceCount(s, k) == (if k < s.co.handed then 1 else 0)
  {
    InitInv(c);
    RunPreserves(c, Init(c), run);
  }

  lemma {:induction false} BatchNumbersOfSum(a: seq<ReadyItem>, b: seq<ReadyItem>)
    ensures BatchNumbers(a) <= BatchNumbers(a + b)
  {
    if b == [] {
      assert a + b == a;
    } else {
      BatchNumbersOfSum(a, b[..|b| - 1]);
      assert a + b == a + b[..|b| - 1] + [b[|b| - 1]];
      LogAppend(a + b[..|b| - 1], b[|b| - 1]);
    }
  }

  lemma {:induction false} UptoPrefix(n: nat, xs: seq<nat>)
    requires xs <= Upto(n)
    ensures xs == Upto(|xs|)
  {
    if |xs| < n {
      assert Upto(n)[..n - 1] == Upto(n - 1);
      UptoPrefix(n - 1, xs);
    }
  }

  lemma ShownAtMostHanded(c: Config, s: State)
    requires Inv(c, s)
    ensures s.pub.published <= Shown(s.pub) <= s.co.handed
  {
    assert PlaceCount(s, s.co.handed) == 0;
  }

  /** The trainer receives batches 0, 1, 2, ... in order; no queue outgrows its capacity. */
  lemma DeliveryIsInOrder(c: Config, run: seq<Action>)
    requires c.Ok() && ValidRun(c, Init(c), run)
    ensures var s := After(c, Init(c), run);
            && BatchNumbers(s.q.taken) == Upto(|BatchNumbers(s.q.taken)|)
            && BatchNumbers(s.q.taken + s.q.ready) == Upto(Shown(s.pub))
            && Shown(s.pub) <= s.co.handed
            && |s.q.tasks| <= c.capacity && |s.q.fetched| <= c.capacity && |s.q.ready| <= c.capacity
  {
    InitInv(c);
    RunPreserves(c, Init(c), run);
    var s := After(c, Init(c), run);
    ShownAtMostHanded(c, s);
    BatchNumbersOfSum(s.q.taken, s.q.ready);
    UptoPrefix(Shown(s.pub), BatchNumbers(s.q.taken));
    hide Shown, Partition, ThreadsInv, FailureInv, EndInv, Init, BatchNumbers, Upto, ValidRun, After;
  }

  function Batches(n: nat): seq<ReadyItem> {
    seq(n, k requires 0 <= k < n => BatchItem(k))
  }

  lemma {:induction false} OnlyBatches(log: seq<ReadyItem>, n: nat)
    requires BatchNumbers(log) == Upto(n) && forall i :: 0 <= i < |log| ==> log[i].BatchItem?
    ensures log == Batches(n)
  {
    if log != [] {
      assert n > 0;
      assert Upto(n)[..n - 1] == Upto(n - 1);
      OnlyBatches(log[..|log| - 1], n - 1);
      assert log == log[..|log| - 1] + [log[|log| - 1]];
    }
  }

  /**
   * When the end marker is enqueued, everything scheduled has been enqueued before it, in order,
   * nothing has failed or been lost, and the queue's history is exactly the batches and the marker.
   */
  lemma EndIsSound(c: Config, run: seq<Action>)
    requires c.Ok() && ValidRun(c, Init(c), run)
    requires EndItem in Log(After(c, Init(c), run).q)
    ensures var s := After(c, Init(c), run);
            && Log(s.q) == Batches(s.co.scheduled) + [EndItem]
            && s.co.handed == s.co.scheduled == s.pub.published
            && s.co.done && s.lost == [] && !s.failed
  {
    InitInv(c);
    RunPreserves(c, Init(c), run);
    var s := After(c, Init(c), run);
    var log := Log(s.q);
    EndCountZero(log);
    EndMeansAllShown(c, s);
    var before := log[..|log| - 1];
    assert EndLast(log) && ErrorItem !in log;
    var i :| 0 <= i < |log| && log[i] == EndItem;
    assert log == before + [EndItem];
    LogAppend(before, EndItem);
    forall j | 0 <= j < |before|
      ensures before[j].BatchItem?
    {
      assert log[j] == before[j] && log[j] in log;
    }
    OnlyBatches(before, s.co.scheduled);
  }

  lemma StepExtendsLog(c: Config, s: State, a: Action)
    requires Enabled(c, s, a)
    ensures Log(s.q) <= Log(Apply(c, s, a).q)
  {
    match a
    case Coordinator(m) =>
      if m.Go? { CoordinatorGoAppends(c, s); } else { CoordinatorDropFrame(c, s, m); }
    case Fetcher(i, m) => FetcherStepLog(s, i, m);
    case Publisher(m) => PublisherGoAppends(s); PublisherDropLog(s);
    case TrainerTake => TakeKeepsLog(c, s);
    case StopEvent =>
  }

  /** Nothing is ever enqueued behind the end marker. */
  lemma {:induction false} NothingFollowsTheEnd(c: Config, s: State, run: seq<Action>)
    requires Inv(c, s) && ValidRun(c, s, run)
    ensures Log(s.q) <= Log(After(c, s, run).q)
    ensures EndItem in Log(s.q) ==> Log(After(c, s, run).q) == Log(s.q)
    decreases |run|
  {
    if run != [] {
      StepPreserves(c, s, run[0]);
      StepExtendsLog(c, s, run[0]);
      NothingFollowsTheEnd(c, Apply(c, s, run[0]), run[1..]);
      RunPreserves(c, s, run);
    }
  }

  // What never goes back.

  /** Flags stay up and what is lost stays lost. */
  predicate Later(s: State, s': State) {
    (s.stop ==> s'.stop) && (s.endSent ==> s'.endSent) && |s'.fetchers| == |s.fetchers| && s.lost <= s'.lost
  }

  lemma StepIsLater(c: Config, s: State, a: Action)
    requires Enabled(c, s, a)
    ensures Later(s, Apply(c, s, a))
  {
    hide EndDue, PutReady;
    match a
    case Coordinator(m) => CoordinatorIsLater(c, s, m);
    case Fetcher(i, m) => FetcherIsLater(c, s, i, m);
    case Publisher(m) => PublisherIsLater(c, s, m);
    case _ =>
  }

  lemma CoordinatorIsLater(c: Config, s: State, m: Move)
    ensures Later(s, CoordinatorStep(c, s, m))
  {
    hide EndDue;
    match s.co.pc
    case CPut(_) =>
    case CRaiseStop =>
    case _ =>
  }

  lemma FetcherIsLater(c: Config, s: State, i: nat, m: Move)
    requires i < |s.fetchers|
    ensures Later(s, FetcherStep(s, i, m))
  {
    hide EndDue;
    match s.fetchers[i]
    case FWork(_) =>
    case FPut(_) =>
    case FTop =>
    case _ =>
  }

  lemma PublisherIsLater(c: Config, s: State, m: Move)
    ensures Later(s, PublisherStep(s, m))
  {
    hide EndDue;
    match s.pub.pc
    case PTop =>
    case PAck(_) =>
    case PPut(_) =>
    case _ =>
  }

  // The published counter against the scheduled one.

  /** A number handed out but not yet counted is with the coordinator, just queued, or lost. */
  predicate HandedInv(s: State) {
    && s.co.handed <= s.co.scheduled + 1
    && (s.co.handed == s.co.scheduled + 1 ==> s.co.pc.CPut? || s.co.pc.CBump? || s.co.scheduled in s.lost)
  }

  lemma OnlyCoordinatorCounts(c: Config, s: State, a: Action)
    requires Enabled(c, s, a) && !a.Coordinator?
    ensures Apply(c, s, a).co == s.co && s.lost <= Apply(c, s, a).lost
  {
    hide FetcherStep, PublisherStep, FetcherEnabled, PublisherEnabled;
    StepIsLater(c, s, a);
    match a
    case Fetcher(i, m) =>
      FetcherIsOne(c, s, i, m);
      FetcherFrame(s, i, m);
    case Publisher(m) => PublisherFrame(s, m);
    case _ =>
  }

  lemma StepKeepsHanded(c: Config, s: State, a: Action)
    requires Enabled(c, s, a) && ThreadsInv(s) && HandedInv(s)
    ensures HandedInv(Apply(c, s, a))
  {
    if !a.Coordinator? {
      OnlyCoordinatorCounts(c, s, a);
      hide Apply, PublisherInv;
    } else {
      hide EndDue, PutTask, PutReady;
      match s.co.pc
      case CLoop =>
      case CPut(_) =>
      case CBump =>
      case _ =>
    }
  }

  lemma {:induction false} RunKeepsHanded(c: Config, s: State, run: seq<Action>)
    requires Inv(c, s) && HandedInv(s) && ValidRun(c, s, run)
    ensures HandedInv(After(c, s, run))
    decreases |run|
  {
    if run != [] {
      StepPreserves(c, s, run[0]);
      StepKeepsHanded(c, s, run[0]);
      RunKeepsHanded(c, Apply(c, s, run[0]), run[1..]);
    }
  }

  /**
   * The published counter passes the scheduled one exactly while the coordinator has queued a
   * task without having counted it yet, and that very task has already been published.
   */
  lemma WhenPublishedExceedsScheduled(c: Config, run: seq<Action>)
    requires c.Ok() && ValidRun(c, Init(c), run)
    ensures var s := After(c, Init(c), run);
            s.pub.published > s.co.scheduled <==> s.co.pc.CBump? && s.pub.published == s.co.handed
  {
    InitInv(c);
    RunPreserves(c, Init(c), run);
    RunKeepsHanded(c, Init(c), run);
    ExcessIsTransient(c, After(c, Init(c), run));
    hide *;
  }

  lemma ExcessIsTransient(c: Config, s: State)
    requires Inv(c, s) && HandedInv(s)
    ensures s.pub.published > s.co.scheduled <==> s.co.pc.CBump? && s.pub.published == s.co.handed
  {
    ShownAtMostHanded(c, s);
    assert PlaceCount(s, s.co.scheduled) <= 1;
    if s.co.scheduled in s.lost {
      var i :| 0 <= i < |s.lost| && s.lost[i] == s.co.scheduled;
      CountMember(s.lost, i);
    }
  }

  /** One task, queued, fetched and published before the coordinator counts it. */
  lemma PublishedCanExceedScheduled()
    ensures var c := Config(1, 1, 1);
            var run := [Coordinator(Go), Coordinator(Go), Fetcher(0, Go), Fetcher(0, Go), Fetcher(0, Go),
                        Publisher(Go), Publisher(Go), Publisher(Go), Publisher(Go), Publisher(Go)];
            ValidRun(c, Init(c), run) && After(c, Init(c), run).pub.published > After(c, Init(c), run).co.scheduled
  {
    hide Apply, Enabled, Init;
    var c := Config(1, 1, 1);
    TaskQueued();
    TaskFetched();
    TaskPublished();
    var run := [Coordinator(Go), Coordinator(Go), Fetcher(0, Go), Fetcher(0, Go), Fetcher(0, Go),
                Publisher(Go), Publisher(Go), Publisher(Go), Publisher(Go), Publisher(Go)];
    assert run[1..] == [Coordinator(Go), Fetcher(0, Go), Fetcher(0, Go), Fetcher(0, Go),
                        Publisher(Go), Publisher(Go), Publisher(Go), Publisher(Go), Publisher(Go)];
  }

  /** The single task of Config(1, 1, 1) on its way, before it is counted. */
  function OneTask(q: Queues, fetcher: FetcherPc, pub: PublisherState): State {
    State(q, CoordinatorState(CBump, 0, false, 1), [fetcher], pub, false, false, [], false)
  }

  function Leads(s: State, a: Action, s': State): bool {
    Enabled(Config(1, 1, 1), s, a) && Apply(Config(1, 1, 1), s, a) == s'
  }

  lemma TaskQueued()
    ensures var c := Config(1, 1, 1);
            && Enabled(c, Init(c), Coordinator(Go))
            && Leads(Apply(c, Init(c), Coordinator(Go)), Coordinator(Go),
                     OneTask(Queues([Task(0)], [], [], []), FTop, PublisherState(PTop, {}, 0, 0)))
  {
    hide EndDue;
    assert Init(Config(1, 1, 1)).fetchers == [FTop];
  }

  lemma TaskFetched()
    ensures var idle := PublisherState(PTop, {}, 0, 0);
            && Leads(OneTask(Queues([Task(0)], [], [], []), FTop, idle), Fetcher(0, Go),
                     OneTask(Queues([], [], [], []), FWork(0), idle))
            && Leads(OneTask(Queues([], [], [], []), FWork(0), idle), Fetcher(0, Go), OneTask(Queues([], [], [], []), FPut(0), idle))
            && Leads(OneTask(Queues([], [], [], []), FPut(0), idle), Fetcher(0, Go),
                     OneTask(Queues([], [0], [], []), FCheck(false), idle))
  {
    hide EndDue;
  }

  lemma TaskPublished()
    ensures var none := Queues([], [], [], []);
            var shown := Queues([], [], [BatchItem(0)], []);
            var f := FCheck(false);
            && Leads(OneTask(Queues([], [0], [], []), f, PublisherState(PTop, {}, 0, 0)), Publisher(Go),
                     OneTask(none, f, PublisherState(PHold, {0}, 0, 0)))
            && Leads(OneTask(none, f, PublisherState(PHold, {0}, 0, 0)), Publisher(Go),
                     OneTask(none, f, PublisherState(PAck(0), {}, 0, 0)))
            && Leads(OneTask(none, f, PublisherState(PAck(0), {}, 0, 0)), Publisher(Go),
                     OneTask(none, f, PublisherState(PPut(0), {}, 0, 0)))
            && Leads(OneTask(none, f, PublisherState(PPut(0), {}, 0, 0)), Publisher(Go),
                     OneTask(shown, f, PublisherState(PBump, {}, 0, 0)))
            && Leads(OneTask(shown, f, PublisherState(PBump, {}, 0, 0)), Publisher(Go),
                     OneTask(shown, f, PublisherState(PHold, {}, 1, 1)))
  {
    hide EndDue;
  }
}

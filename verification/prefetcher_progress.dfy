/**
 * The prefetch pipeline cannot get stuck: with a trainer that keeps taking items, and as long as
 * nothing fails and nobody stops it, every run is finite and ends with the end marker taken.
 */
module PrefetcherProgress {
  import opened Prefetcher
  import opened PrefetcherSafety
  import opened PrefetcherDelivery

  /** The steps of a run without failures and without a stop. */
  predicate Quiet(a: Action) {
    match a
    case Coordinator(m) => m.Go? || m.NoMore?
    case Fetcher(_, m) => m.Go?
    case Publisher(m) => m.Go?
    case TrainerTake => true
    case StopEvent => false
  }

  predicate QuietRun(run: seq<Action>) {
    forall i :: 0 <= i < |run| ==> Quiet(run[i])
  }

  // Counting over the fetch threads and over the queue of tasks.

  function Total(fs: seq<FetcherPc>, weight: FetcherPc -> nat): nat {
    if fs == [] then 0 else Total(fs[..|fs| - 1], weight) + weight(fs[|fs| - 1])
  }

  lemma {:induction false} TotalUpdate(fs: seq<FetcherPc>, weight: FetcherPc -> nat, i: nat, pc: FetcherPc)
    requires i < |fs|
    ensures Total(fs[i := pc], weight) + weight(fs[i]) == Total(fs, weight) + weight(pc)
  {
    var n := |fs| - 1;
    if i == n {
      assert fs[i := pc][..n] == fs[..n];
    } else {
      assert fs[i := pc][..n] == fs[..n][i := pc];
      TotalUpdate(fs[..n], weight, i, pc);
    }
  }

  lemma {:induction false} TotalConstant(fs: seq<FetcherPc>, weight: FetcherPc -> nat, w: nat)
    requires forall i :: 0 <= i < |fs| ==> weight(fs[i]) == w
    ensures Total(fs, weight) == |fs| * w
  {
    if fs != [] {
      TotalConstant(fs[..|fs| - 1], weight, w);
    }
  }

  function SentinelCount(ts: seq<TaskItem>): (n: nat)
    ensures n <= |ts|
  {
    if ts == [] then 0 else SentinelCount(ts[..|ts| - 1]) + if ts[|ts| - 1].Sentinel? then 1 else 0
  }

  lemma SentinelCountAppend(ts: seq<TaskItem>, t: TaskItem)
    ensures SentinelCount(ts + [t]) == SentinelCount(ts) + if t.Sentinel? then 1 else 0
  {
    assert (ts + [t])[..|ts|] == ts;
  }

  lemma {:induction false} SentinelCountTail(ts: seq<TaskItem>)
    requires ts != []
    ensures SentinelCount(ts) == (if ts[0].Sentinel? then 1 else 0) + SentinelCount(ts[1..])
  {
    if |ts| > 1 {
      SentinelCountTail(ts[..|ts| - 1]);
      assert ts[..|ts| - 1][1..] == ts[1..][..|ts| - 2];
    }
  }

  lemma {:induction false} SentinelCountMember(ts: seq<TaskItem>, i: nat)
    requires i < |ts| && ts[i].Sentinel?
    ensures SentinelCount(ts) > 0
  {
    if i < |ts| - 1 {
      SentinelCountMember(ts[..|ts| - 1], i);
    }
  }

  // The invariant of quiet runs.

  /** 1 for a fetch thread that has received its sentinel. */
  function Leaving(pc: FetcherPc): nat {
    match pc
    case FSentinel => 1
    case FCheck(leaving) => if leaving then 1 else 0
    case FPutEnd(leaving) => if leaving then 1 else 0
    case FExit => 1
    case _ => 0
  }

  function SentinelsToSend(c: Config, pc: CoordinatorPc): nat {
    match pc
    case CSentinels(n) => n
    case CExit => 0
    case _ => c.fetchers
  }

  /** Every fetch thread has its own sentinel: still to be sent, queued or received. */
  predicate SentinelsAccounted(c: Config, s: State) {
    SentinelsToSend(c, s.co.pc) + SentinelCount(s.q.tasks) + Total(s.fetchers, Leaving) == c.fetchers
  }

  /** Sentinels are queued behind all tasks, and none is received before the tasks are gone. */
  predicate SentinelsLast(s: State) {
    && (forall i, j :: 0 <= i < j < |s.q.tasks| && s.q.tasks[i].Sentinel? ==> s.q.tasks[j].Sentinel?)
    && (Total(s.fetchers, Leaving) > 0 ==> forall i :: 0 <= i < |s.q.tasks| ==> s.q.tasks[i].Sentinel?)
  }

  predicate NothingWrong(c: Config, s: State) {
    && !s.stop && !s.failed && s.lost == [] && s.co.handed <= c.maxBatches
    && !s.co.pc.CPutError? && !s.co.pc.CRaiseStop?
    && (s.co.pc.CSentinels? || s.co.pc.CExit? ==> s.co.done)
  }

  predicate FetcherFine(pc: FetcherPc) {
    !pc.FPutError? && !pc.FRaiseStop?
  }

  predicate FetchersFine(s: State) {
    forall i :: 0 <= i < |s.fetchers| ==> FetcherFine(s.fetchers[i])
  }

  predicate PublisherFine(pub: PublisherState) {
    && !pub.pc.PPutError? && !pub.pc.PRaiseStop? && !pub.pc.PHalt? && !pub.pc.PExit?
    && (pub.pc.PTop? || pub.pc.PCheck? || pub.pc.PPutEnd? ==> pub.next !in pub.buffered)
  }

  predicate QuietInv(c: Config, s: State) {
    && NothingWrong(c, s) && FetchersFine(s) && PublisherFine(s.pub)
    && SentinelsAccounted(c, s) && SentinelsLast(s)
  }

  lemma InitQuiet(c: Config)
    ensures QuietInv(c, Init(c))
  {
    TotalConstant(Init(c).fetchers, Leaving, 0);
  }

  lemma CoordinatorQuiet(c: Config, s: State, m: Move)
    requires QuietInv(c, s) && CoordinatorInv(s.co, s.failed) && |s.fetchers| == c.fetchers
    requires CoordinatorEnabled(c, s, m) && (m.Go? || m.NoMore?)
    ensures NothingWrong(c, CoordinatorStep(c, s, m)) && SentinelsAccounted(c, CoordinatorStep(c, s, m))
    ensures CoordinatorStep(c, s, m).fetchers == s.fetchers && CoordinatorStep(c, s, m).pub == s.pub
  {
    hide Total, SentinelCount, Leaving, SentinelsLast, EndDue;
    SentinelCountAppend(s.q.tasks, Sentinel);
    if s.co.pc.CPut? {
      SentinelCountAppend(s.q.tasks, Task(s.co.pc.sequence));
    }
    match s.co.pc
    case CLoop =>
    case CPut(_) =>
    case CBump =>
    case CDone =>
    case CPutEnd =>
    case CSentinels(_) =>
    case _ =>
  }

  lemma CoordinatorOrder(c: Config, s: State, m: Move)
    requires SentinelsLast(s) && SentinelsAccounted(c, s) && (m.Go? || m.NoMore?)
    ensures SentinelsLast(CoordinatorStep(c, s, m))
  {
    forall i | 0 <= i < |s.q.tasks| && s.q.tasks[i].Sentinel?
      ensures SentinelCount(s.q.tasks) > 0
    {
      SentinelCountMember(s.q.tasks, i);
    }
    hide Total, SentinelCount, Leaving, EndDue;
    match s.co.pc
    case CPut(_) =>
    case CDone =>
    case CSentinels(_) =>
    case _ =>
  }

  lemma PublisherQuiet(c: Config, s: State)
    requires QuietInv(c, s) && PublisherInv(s.pub, s.failed)
    ensures QuietInv(c, PublisherGo(s))
  {
    PublisherGoFrame(s);
    hide Total, SentinelCount, Leaving, EndDue;
    match s.pub.pc
    case PTop =>
    case PHold =>
    case PAck(_) =>
    case PPut(_) =>
    case PBump =>
    case PCheck =>
    case PPutEnd =>
  }

  /** What a fetch thread's step does to the queue of tasks. */
  lemma FetcherGoTasks(s: State, i: nat)
    requires i < |s.fetchers| && FetcherFine(s.fetchers[i])
    ensures |FetcherGo(s, i).fetchers| == |s.fetchers| && FetcherFine(FetcherGo(s, i).fetchers[i])
    ensures FetcherGo(s, i).q.tasks == if s.fetchers[i].FTop? && s.q.tasks != [] then s.q.tasks[1..] else s.q.tasks
    ensures Leaving(FetcherGo(s, i).fetchers[i])
         == if s.fetchers[i].FTop? && s.q.tasks != [] && s.q.tasks[0].Sentinel? then 1 else Leaving(s.fetchers[i])
    ensures FetcherGo(s, i).stop == s.stop && FetcherGo(s, i).lost == s.lost && FetcherGo(s, i).failed == s.failed
  {
    hide EndDue;
    match s.fetchers[i]
    case FTop =>
    case FWork(_) =>
    case FPut(_) =>
    case FSentinel =>
    case FCheck(_) =>
    case FPutEnd(_) =>
    case FExit =>
  }

  lemma FetcherQuiet(c: Config, s: State, i: nat)
    requires QuietInv(c, s) && i < |s.fetchers|
    ensures QuietInv(c, FetcherGo(s, i))
  {
    FetcherGoTasks(s, i);
    FetcherGoFrame(s, i);
    TotalUpdate(s.fetchers, Leaving, i, FetcherGo(s, i).fetchers[i]);
    if s.q.tasks != [] {
      SentinelCountTail(s.q.tasks);
    }
    assert Leaving(FTop) == 0;
    hide Total, SentinelCount, Leaving, FetcherGo, FetcherFine;
  }

  lemma StepQuiet(c: Config, s: State, a: Action)
    requires Inv(c, s) && QuietInv(c, s) && Enabled(c, s, a) && Quiet(a)
    ensures QuietInv(c, Apply(c, s, a))
  {
    match a
    case Coordinator(m) =>
      CoordinatorQuiet(c, s, m);
      CoordinatorOrder(c, s, m);
      hide Inv, NothingWrong, SentinelsAccounted, SentinelsLast, CoordinatorStep;
    case Fetcher(i, m) => FetcherQuiet(c, s, i);
    case Publisher(m) => PublisherQuiet(c, s);
    case TrainerTake =>
      hide Inv, SentinelCount, Total;
  }

  // Some step is always possible before the end marker has been taken.

  /** With the ready queue empty and the publisher idle, a busy fetch thread or an idle one with work can go on. */
  lemma SomeFetcherCanGo(c: Config, s: State, i: nat)
    requires c.Ok() && i < |s.fetchers| && FetchersFine(s) && s.q.ready == [] && s.q.fetched == []
    requires s.fetchers[i] != FExit && (s.fetchers[i].FTop? ==> s.q.tasks != [])
    ensures FetcherEnabled(c, s, i, Go)
  {
    assert FetcherFine(s.fetchers[i]);
  }

  lemma OnlySentinels(ts: seq<TaskItem>)
    requires forall i :: 0 <= i < |ts| ==> ts[i].Sentinel?
    ensures ts == [] || SentinelCount(ts) > 0
  {
  }

  lemma AllGoneMeansNoTasks(c: Config, s: State)
    requires QuietInv(c, s) && |s.fetchers| == c.fetchers > 0 && forall i :: 0 <= i < |s.fetchers| ==> s.fetchers[i].FExit?
    ensures s.q.tasks == []
  {
    TotalConstant(s.fetchers, Leaving, 1);
    OnlySentinels(s.q.tasks);
  }

  lemma CoordinatorCanGo(c: Config, s: State) returns (m: Move)
    requires c.Ok() && NothingWrong(c, s) && s.q.ready == [] && s.q.tasks == [] && !s.co.pc.CExit?
    ensures CoordinatorEnabled(c, s, m) && (m.Go? || m.NoMore?)
  {
    m := if s.co.pc.CLoop? then NoMore else Go;
  }

  lemma {:induction false} NobodyHolds(fs: seq<FetcherPc>, k: nat)
    requires forall i :: 0 <= i < |fs| ==> fs[i].FTop? || fs[i].FExit?
    ensures FetchCount(fs, k) == 0 && Enders(fs) == 0
  {
    if fs != [] {
      NobodyHolds(fs[..|fs| - 1], k);
    }
  }

  /** When all other threads are idle or gone, the end of the run is due or its marker has been taken. */
  lemma IdleMeansEndDue(c: Config, s: State)
    requires Inv(c, s) && QuietInv(c, s) && EndItem !in s.q.taken
    requires s.q.ready == [] && s.q.fetched == [] && s.q.tasks == [] && s.co.pc.CExit? && s.pub.pc.PTop?
    requires forall i :: 0 <= i < |s.fetchers| ==> s.fetchers[i].FTop? || s.fetchers[i].FExit?
    ensures EndDue(s)
  {
    NobodyHolds(s.fetchers, s.pub.next);
    assert PlaceCount(s, s.pub.next) == 0;
    EndCountZero(Log(s.q));
    assert Log(s.q) == s.q.taken;
  }

  lemma NeverStuck(c: Config, s: State) returns (a: Action)
    requires Inv(c, s) && QuietInv(c, s) && EndItem !in s.q.taken
    ensures Quiet(a) && Enabled(c, s, a)
  {
    if s.q.ready != [] {
      a := TrainerTake;
    } else if !s.pub.pc.PTop? || s.q.fetched != [] {
      a := Publisher(Go);
    } else if i :| 0 <= i < |s.fetchers| && s.fetchers[i] != FExit && (s.fetchers[i].FTop? ==> s.q.tasks != []) {
      SomeFetcherCanGo(c, s, i);
      a := Fetcher(i, Go);
    } else {
      assert forall i :: 0 <= i < |s.fetchers| ==> s.fetchers[i].FTop? || s.fetchers[i].FExit?;
      if s.q.tasks != [] {
        AllGoneMeansNoTasks(c, s);
        assert false;
      }
      if !s.co.pc.CExit? {
        var m := CoordinatorCanGo(c, s);
        a := Coordinator(m);
      } else {
        IdleMeansEndDue(c, s);
        a := Publisher(Go);
      }
    }
  }

  // Every quiet step lowers a measure.

  function CoordinatorScore(c: Config, pc: CoordinatorPc): nat {
    match pc
    case CLoop => 5 * c.fetchers + 7
    case CPut(_) => 5 * c.fetchers + 25
    case CBump => 5 * c.fetchers + 8
    case CDone => 5 * c.fetchers + 4
    case CPutEnd => 5 * c.fetchers + 4
    case CPutError => 5 * c.fetchers + 5
    case CRaiseStop => 5 * c.fetchers + 2
    case CSentinels(n) => 5 * n + 1
    case CExit => 0
  }

  function FetcherScore(pc: FetcherPc): nat {
    match pc
    case FTop => 3
    case FWork(_) => 17
    case FPut(_) => 15
    case FSentinel => 6
    case FCheck(leaving) => if leaving then 5 else 4
    case FPutEnd(leaving) => if leaving then 3 else 6
    case FPutError => 9
    case FRaiseStop => 6
    case FExit => 0
  }

  function PublisherScore(pc: PublisherPc): nat {
    match pc
    case PTop => 2
    case PHold => 4
    case PAck(_) => 9
    case PPut(_) => 8
    case PBump => 5
    case PCheck => 3
    case PPutEnd => 5
    case PPutError => 5
    case PRaiseStop => 2
    case _ => 0
  }

  function TaskScore(ts: seq<TaskItem>): nat {
    16 * (|ts| - SentinelCount(ts)) + 4 * SentinelCount(ts)
  }

  lemma TaskScoreAppend(ts: seq<TaskItem>, t: TaskItem)
    ensures TaskScore(ts + [t]) == TaskScore(ts) + if t.Sentinel? then 4 else 16
  {
    SentinelCountAppend(ts, t);
  }

  lemma TaskScoreTail(ts: seq<TaskItem>)
    requires ts != []
    ensures TaskScore(ts) == TaskScore(ts[1..]) + if ts[0].Sentinel? then 4 else 16
  {
    SentinelCountTail(ts);
  }

  function Score(c: Config, s: State): int {
    20 * (c.maxBatches - s.co.handed) + CoordinatorScore(c, s.co.pc) + TaskScore(s.q.tasks) + Total(s.fetchers, FetcherScore)
    + 9 * |s.q.fetched| + 6 * |s.pub.buffered| + PublisherScore(s.pub.pc) + 2 * |s.q.ready| + (if s.endSent then 0 else 10)
    + (if s.stop then 0 else 1)
  }

  function CoordinatorSide(c: Config, s: State): int {
    20 * (c.maxBatches - s.co.handed) + CoordinatorScore(c, s.co.pc) + TaskScore(s.q.tasks) + 2 * |s.q.ready| + (if s.endSent then 0 else 10)
    + (if s.stop then 0 else 1)
  }

  lemma CoordinatorPutProgress(c: Config, s: State)
    requires s.co.pc.CPut? || (s.co.pc.CSentinels? && s.co.pc.left > 0)
    ensures CoordinatorSide(c, CoordinatorGo(c, s)) < CoordinatorSide(c, s)
  {
    TaskScoreAppend(s.q.tasks, Sentinel);
    if s.co.pc.CPut? {
      TaskScoreAppend(s.q.tasks, Task(s.co.pc.sequence));
    }
    hide TaskScore;
  }

  lemma CoordinatorGoFalls(c: Config, s: State)
    requires CoordinatorEnabled(c, s, Go)
    ensures CoordinatorSide(c, CoordinatorGo(c, s)) < CoordinatorSide(c, s)
  {
    assert EndDue(s) ==> !s.endSent;
    hide SentinelCount, EndDue, TaskScore;
    match s.co.pc
    case CLoop =>
    case CPut(_) => CoordinatorPutProgress(c, s);
    case CBump =>
    case CDone =>
    case CPutEnd =>
    case CPutError =>
    case CRaiseStop =>
    case CSentinels(n) => if n > 0 { CoordinatorPutProgress(c, s); }
  }

  lemma CoordinatorSideFalls(c: Config, s: State, m: Move)
    requires CoordinatorEnabled(c, s, m)
    ensures CoordinatorSide(c, CoordinatorStep(c, s, m)) < CoordinatorSide(c, s)
  {
    hide SentinelCount, EndDue, TaskScore, CoordinatorGo;
    if m.Go? {
      CoordinatorGoFalls(c, s);
    } else {
      match s.co.pc
      case CLoop =>
      case CPut(_) =>
      case CPutEnd =>
      case CPutError =>
      case CSentinels(_) =>
    }
  }

  lemma CoordinatorFrame(c: Config, s: State, m: Move)
    ensures var s' := CoordinatorStep(c, s, m);
            s'.fetchers == s.fetchers && s'.pub == s.pub && s'.q.fetched == s.q.fetched
  {
    hide EndDue, AtC, PutReady;
    match s.co.pc
    case CPut(_) =>
    case CSentinels(_) =>
    case _ =>
  }

  function FetcherSide(s: State, i: nat): int
    requires i < |s.fetchers|
  {
    TaskScore(s.q.tasks) + FetcherScore(s.fetchers[i]) + 9 * |s.q.fetched| + 2 * |s.q.ready| + (if s.endSent then 0 else 10)
    + (if s.stop then 0 else 1)
  }

  lemma DueIsUnsent(s: State)
    ensures EndDue(s) ==> !s.endSent
  {
  }

  lemma FetcherGoFalls(c: Config, s: State, i: nat)
    requires FetcherEnabled(c, s, i, Go)
    ensures |FetcherGo(s, i).fetchers| == |s.fetchers|
    ensures FetcherSide(FetcherGo(s, i), i) < FetcherSide(s, i)
  {
    hide TaskScore, EndDue;
    DueIsUnsent(s);
    match s.fetchers[i]
    case FTop => if s.q.tasks != [] { TaskScoreTail(s.q.tasks); }
    case FWork(_) =>
    case FPut(_) =>
    case FSentinel =>
    case FCheck(_) =>
    case FPutEnd(_) =>
    case FPutError =>
    case FRaiseStop =>
  }

  lemma FetcherSideFalls(c: Config, s: State, i: nat, m: Move)
    requires FetcherEnabled(c, s, i, m)
    ensures |FetcherStep(s, i, m).fetchers| == |s.fetchers|
    ensures FetcherSide(FetcherStep(s, i, m), i) < FetcherSide(s, i)
  {
    hide TaskScore, EndDue, FetcherGo;
    FetcherGoFrame(s, i);
    if m.Go? {
      FetcherGoFalls(c, s, i);
    } else {
      match s.fetchers[i]
      case FTop =>
      case FWork(_) =>
      case FPut(_) =>
      case FPutEnd(_) =>
      case FPutError =>
    }
  }

  lemma FetcherProgress(c: Config, s: State, i: nat, m: Move)
    requires FetcherEnabled(c, s, i, m)
    ensures Score(c, FetcherStep(s, i, m)) < Score(c, s)
  {
    FetcherIsOne(c, s, i, m);
    FetcherSideFalls(c, s, i, m);
    FetcherFrame(s, i, m);
    FetcherStepLog(s, i, m);
    TotalUpdate(s.fetchers, FetcherScore, i, FetcherStep(s, i, m).fetchers[i]);
    hide Total, FetcherStep, FetcherScore, TaskScore, CoordinatorScore, PublisherScore, FetcherEnabled;
  }

  function PublisherSide(s: State): int {
    9 * |s.q.fetched| + 6 * |s.pub.buffered| + PublisherScore(s.pub.pc) + 2 * |s.q.ready| + (if s.endSent then 0 else 10)
    + (if s.stop then 0 else 1)
  }

  lemma PublisherMovesFall(s: State)
    ensures s.q.fetched != [] ==> PublisherSide(TakeFetched(s)) + 1 <= PublisherSide(AtP(s, PTop))
    ensures PublisherSide(PopNext(s)) < PublisherSide(AtP(s, PHold))
  {
  }

  lemma PublisherPollFalls(c: Config, s: State)
    requires PublisherEnabled(c, s, Go) && (s.pub.pc.PTop? || s.pub.pc.PCheck?)
    ensures PublisherSide(PublisherGo(s)) < PublisherSide(s)
  {
    assert EndDue(s) ==> !s.endSent;
    PublisherMovesFall(s);
    assert s.pub.pc.PTop? ==> AtP(s, PTop) == s;
    hide EndDue, TakeFetched;
  }

  lemma PublisherGoFalls(c: Config, s: State)
    requires PublisherEnabled(c, s, Go)
    ensures PublisherSide(PublisherGo(s)) < PublisherSide(s)
  {
    PublisherMovesFall(s);
    hide EndDue, PopNext;
    match s.pub.pc
    case PHold => assert AtP(s, PHold) == s;
    case PAck(_) =>
    case PPut(_) =>
    case PBump =>
    case PPutEnd =>
    case PPutError =>
    case PRaiseStop =>
    case _ =>
      PublisherPollFalls(c, s);
      hide PublisherGo;
  }

  lemma PublisherSideFalls(c: Config, s: State, m: Move)
    requires PublisherEnabled(c, s, m)
    ensures PublisherSide(PublisherStep(s, m)) < PublisherSide(s)
  {
    hide EndDue, PublisherGo;
    if m.Go? {
      PublisherGoFalls(c, s);
    } else {
      match s.pub.pc
      case PTop =>
      case PAck(_) =>
      case PPut(_) =>
      case PPutEnd =>
      case PPutError =>
    }
  }

  /** Every step of every run, failures and stops included, brings the pipeline closer to its end. */
  lemma EveryStepMakesProgress(c: Config, s: State, a: Action)
    requires Enabled(c, s, a)
    ensures Score(c, Apply(c, s, a)) < Score(c, s)
  {
    hide TaskScore, CoordinatorScore, PublisherScore, CoordinatorStep, FetcherStep, PublisherStep, Total,
         CoordinatorEnabled, FetcherEnabled, PublisherEnabled;
    match a
    case Coordinator(m) =>
      CoordinatorSideFalls(c, s, m);
      CoordinatorFrame(c, s, m);
    case Fetcher(i, m) => FetcherProgress(c, s, i, m);
    case Publisher(m) =>
      PublisherSideFalls(c, s, m);
      PublisherFrame(s, m);
    case TrainerTake =>
    case StopEvent =>
  }

  lemma HandedIsBounded(c: Config, s: State, a: Action)
    requires ThreadsInv(s) && Enabled(c, s, a) && s.co.handed <= c.maxBatches
    ensures Apply(c, s, a).co.handed <= c.maxBatches
  {
    hide FetcherStep, PublisherStep, EndDue, PutReady, PublisherInv, FetcherEnabled, PublisherEnabled;
    match a
    case Coordinator(m) =>
      match s.co.pc {
        case CLoop =>
        case CPut(_) =>
        case _ =>
      }
    case Fetcher(i, m) =>
      FetcherIsOne(c, s, i, m);
      FetcherFrame(s, i, m);
    case Publisher(m) => PublisherFrame(s, m);
    case _ =>
  }

  /** No run can go on for longer than its score. */
  lemma {:induction false} RunIsShort(c: Config, s: State, run: seq<Action>)
    requires Inv(c, s) && ValidRun(c, s, run) && s.co.handed <= c.maxBatches
    ensures |run| <= Score(c, s) - Score(c, After(c, s, run)) && 0 <= Score(c, After(c, s, run))
    decreases |run|
  {
    hide Inv, Score, Apply, Enabled;
    if run != [] {
      InvHasThreads(c, s);
      StepPreserves(c, s, run[0]);
      HandedIsBounded(c, s, run[0]);
      EveryStepMakesProgress(c, s, run[0]);
      RunIsShort(c, Apply(c, s, run[0]), run[1..]);
    } else {
      ScoreIsPositive(c, s);
    }
  }

  lemma InvHasThreads(c: Config, s: State)
    requires Inv(c, s)
    ensures ThreadsInv(s)
  {
  }

  lemma ScoreIsPositive(c: Config, s: State)
    requires s.co.handed <= c.maxBatches
    ensures 0 <= Score(c, s)
  {
  }

  lemma {:induction false} QuietRunPreserves(c: Config, s: State, run: seq<Action>)
    requires Inv(c, s) && QuietInv(c, s) && ValidRun(c, s, run) && QuietRun(run)
    ensures Inv(c, After(c, s, run)) && QuietInv(c, After(c, s, run))
    decreases |run|
  {
    if run != [] {
      StepPreserves(c, s, run[0]);
      StepQuiet(c, s, run[0]);
      QuietRunPreserves(c, Apply(c, s, run[0]), run[1..]);
    }
  }

  /** How many steps a quiet run of this configuration can take at most. */
  function Budget(c: Config): nat {
    20 * c.maxBatches + 8 * c.fetchers + 20
  }

  lemma InitialScore(c: Config)
    ensures Score(c, Init(c)) == Budget(c)
  {
    TotalConstant(Init(c).fetchers, FetcherScore, 3);
  }

  /** The trainer has received every scheduled batch in order and then the end marker, and nothing is left over. */
  predicate Finished(s: State) {
    s.q.taken == Batches(s.co.scheduled) + [EndItem] && s.q.ready == []
  }

  /**
   * Every quiet run is short, and one that nobody can extend quietly has finished: the bounded
   * queues, the sentinels and the end marker never leave the threads waiting for each other.
   */
  lemma EveryMaximalQuietRunFinishes(c: Config, run: seq<Action>)
    requires c.Ok() && ValidRun(c, Init(c), run) && QuietRun(run)
    ensures |run| <= Budget(c)
    ensures (forall a :: Quiet(a) ==> !Enabled(c, After(c, Init(c), run), a)) ==> Finished(After(c, Init(c), run))
  {
    InitInv(c);
    InitQuiet(c);
    InitialScore(c);
    QuietRunPreserves(c, Init(c), run);
    RunIsShort(c, Init(c), run);
    var s := After(c, Init(c), run);
    if EndItem in s.q.taken {
      TakenEndMeansFinished(c, run);
    } else {
      var a := NeverStuck(c, s);
    }
  }

  lemma TakenEndMeansFinished(c: Config, run: seq<Action>)
    requires c.Ok() && ValidRun(c, Init(c), run) && EndItem in After(c, Init(c), run).q.taken
    ensures Finished(After(c, Init(c), run))
  {
    EndIsSound(c, run);
    var s := After(c, Init(c), run);
    var n := s.co.scheduled;
    assert forall k :: 0 <= k < n ==> Log(s.q)[k] == Batches(n)[k];
    var i :| 0 <= i < |s.q.taken| && s.q.taken[i] == EndItem;
    assert Log(s.q)[i] == EndItem;
    assert i == n;
  }

  /** A quiet run that has not finished can always be continued quietly to its end. */
  lemma {:induction false} EveryQuietRunCanFinish(c: Config, s: State) returns (rest: seq<Action>)
    requires Inv(c, s) && QuietInv(c, s)
    ensures ValidRun(c, s, rest) && QuietRun(rest) && EndItem in After(c, s, rest).q.taken
    decreases Score(c, s)
  {
    if EndItem in s.q.taken {
      rest := [];
    } else {
      var a := NeverStuck(c, s);
      StepPreserves(c, s, a);
      StepQuiet(c, s, a);
      EveryStepMakesProgress(c, s, a);
      ScoreIsPositive(c, Apply(c, s, a));
      var more := EveryQuietRunCanFinish(c, Apply(c, s, a));
      rest := [a] + more;
      assert rest[1..] == more;
    }
  }
}

/** Exactly-once ordered delivery and the soundness of the end marker, for every interleaving. */
module PrefetcherSafety {
  import opened Sequences
  import opened Prefetcher

  function Upto(n: nat): (r: seq<nat>)
    ensures |r| == n
  {
    if n == 0 then [] else Upto(n - 1) + [n - 1]
  }

  function Count(xs: seq<nat>, k: nat): nat {
    if xs == [] then 0 else Count(xs[..|xs| - 1], k) + (if xs[|xs| - 1] == k then 1 else 0)
  }

  function TaskCount(ts: seq<TaskItem>, k: nat): nat {
    if ts == [] then 0 else TaskCount(ts[..|ts| - 1], k) + (if ts[|ts| - 1] == Task(k) then 1 else 0)
  }

  function BatchNumbers(log: seq<ReadyItem>): seq<nat> {
    if log == [] then []
    else
      var before := BatchNumbers(log[..|log| - 1]);
      if log[|log| - 1].BatchItem? then before + [log[|log| - 1].sequence] else before
  }

  function EndCount(log: seq<ReadyItem>): nat {
    if log == [] then 0 else EndCount(log[..|log| - 1]) + (if log[|log| - 1].EndItem? then 1 else 0)
  }

  /** Everything ever put into the ready queue, in order. */
  function Log(q: Queues): seq<ReadyItem> {
    q.taken + q.ready
  }

  function AtFetcher(pc: FetcherPc, k: nat): nat {
    (if pc == FWork(k) || pc == FPut(k) then 1 else 0)
  }

  function FetchCount(fs: seq<FetcherPc>, k: nat): nat {
    if fs == [] then 0 else FetchCount(fs[..|fs| - 1], k) + AtFetcher(fs[|fs| - 1], k)
  }

  /** How many batches have been put into the ready queue. */
  function Shown(pub: PublisherState): nat {
    pub.next + (if pub.pc.PBump? then 1 else 0)
  }

  function InQueues(q: Queues, k: nat): nat {
    TaskCount(q.tasks, k) + Count(q.fetched, k)
  }

  function AtPublisher(pub: PublisherState, k: nat): nat {
    (if k in pub.buffered then 1 else 0) + (if pub.pc == PAck(k) || pub.pc == PPut(k) then 1 else 0) + (if k < Shown(pub) then 1 else 0)
  }

  /**
   * How often sequence number k occurs over all the places where a number can be: in the
   * coordinator's, a fetcher's or the publisher's hands, queued, reordered, shown or lost.
   */
  function PlaceCount(s: State, k: nat): nat {
    (if s.co.pc == CPut(k) then 1 else 0) + InQueues(s.q, k) + FetchCount(s.fetchers, k) + AtPublisher(s.pub, k) + Count(s.lost, k)
  }

  /** Every number handed out is in exactly one place, and no other number is anywhere. */
  ghost predicate Partition(s: State) {
    forall k: nat :: PlaceCount(s, k) == (if k < s.co.handed then 1 else 0)
  }

  function Enders(fs: seq<FetcherPc>): nat {
    if fs == [] then 0 else Enders(fs[..|fs| - 1]) + (if fs[|fs| - 1].FPutEnd? then 1 else 0)
  }

  /** Threads that have won the end race and are about to enqueue the marker. */
  function PendingEnds(s: State): nat {
    Enders(s.fetchers) + (if s.co.pc.CPutEnd? then 1 else 0) + (if s.pub.pc.PPutEnd? then 1 else 0)
  }

  predicate CoordinatorInv(co: CoordinatorState, failed: bool) {
    && (co.done ==> co.handed == co.scheduled)
    && (match co.pc
        case CPut(k) => k == co.scheduled && co.handed == co.scheduled + 1 && !co.done
        case CBump => co.handed == co.scheduled + 1 && !co.done
        case CLoop => co.handed == co.scheduled && !co.done
        case CPutError => !co.done && failed
        case CRaiseStop => !co.done && failed
        case CDone => co.done
        case CPutEnd => co.done
        case _ => true)
  }

  predicate PublisherInv(pub: PublisherState, failed: bool) {
    && pub.published == pub.next
    && (pub.pc.PAck? || pub.pc.PPut? ==> pub.pc.sequence == pub.next)
    && (pub.pc.PPutError? || pub.pc.PRaiseStop? ==> failed)
  }

  /** A failure leaves a number lost, or a coordinator that never declares the run done. */
  predicate FailureInv(s: State) {
    && (s.failed ==> s.lost != []
                     || (!s.co.done && (s.co.pc.CPutError? || s.co.pc.CRaiseStop? || s.co.pc.CSentinels? || s.co.pc.CExit?)))
    && (forall i :: 0 <= i < |s.fetchers| && (s.fetchers[i].FPutError? || s.fetchers[i].FRaiseStop?) ==> s.failed)
    && (ErrorItem in Log(s.q) ==> s.failed)
  }

  predicate EndLast(log: seq<ReadyItem>) {
    forall i :: 0 <= i < |log| && log[i].EndItem? ==> i == |log| - 1
  }

  /** The end marker is enqueued at most once, by the one thread that won the race, and then it is last. */
  predicate EndRace(log: seq<ReadyItem>, pending: nat, endSent: bool, stop: bool) {
    && EndCount(log) + pending <= (if endSent then 1 else 0)
    && (!stop ==> EndCount(log) + pending == (if endSent then 1 else 0))
    && EndLast(log)
  }

  predicate EndInv(s: State) {
    && EndRace(Log(s.q), PendingEnds(s), s.endSent, s.stop)
    && (s.endSent ==> s.co.done && s.pub.published >= s.co.scheduled)
  }

  predicate QueuesBounded(c: Config, s: State) {
    |s.fetchers| == c.fetchers && |s.q.tasks| <= c.capacity && |s.q.fetched| <= c.capacity && |s.q.ready| <= c.capacity
  }

  /** The log still lists exactly the batches shown so far, in order. */
  predicate LogInv(s: State) {
    BatchNumbers(Log(s.q)) == Upto(Shown(s.pub))
  }

  predicate ThreadsInv(s: State) {
    CoordinatorInv(s.co, s.failed) && PublisherInv(s.pub, s.failed)
  }

  ghost predicate Inv(c: Config, s: State) {
    && c.Ok() && QueuesBounded(c, s) && Partition(s)
    && ThreadsInv(s) && FailureInv(s) && EndInv(s) && LogInv(s)
  }

  // Facts about the recursive views.

  lemma {:induction false} TaskCountTail(ts: seq<TaskItem>, k: nat)
    requires ts != []
    ensures TaskCount(ts, k) == (if ts[0] == Task(k) then 1 else 0) + TaskCount(ts[1..], k)
  {
    if |ts| > 1 {
      TaskCountTail(ts[..|ts| - 1], k);
      assert ts[..|ts| - 1][1..] == ts[1..][..|ts| - 2];
    }
  }

  lemma {:induction false} CountTail(xs: seq<nat>, k: nat)
    requires xs != []
    ensures Count(xs, k) == (if xs[0] == k then 1 else 0) + Count(xs[1..], k)
  {
    if |xs| > 1 {
      CountTail(xs[..|xs| - 1], k);
      assert xs[..|xs| - 1][1..] == xs[1..][..|xs| - 2];
    }
  }

  lemma CountAppend(xs: seq<nat>, x: nat, k: nat)
    ensures Count(xs + [x], k) == Count(xs, k) + (if x == k then 1 else 0)
  {
    assert (xs + [x])[..|xs|] == xs;
  }

  lemma TaskCountAppend(ts: seq<TaskItem>, t: TaskItem, k: nat)
    ensures TaskCount(ts + [t], k) == TaskCount(ts, k) + (if t == Task(k) then 1 else 0)
  {
    assert (ts + [t])[..|ts|] == ts;
  }

  lemma {:induction false} FetchCountUpdate(fs: seq<FetcherPc>, i: nat, pc: FetcherPc, k: nat)
    requires i < |fs|
    ensures FetchCount(fs[i := pc], k) + AtFetcher(fs[i], k) == FetchCount(fs, k) + AtFetcher(pc, k)
  {
    var n := |fs| - 1;
    if i == n {
      assert fs[i := pc][..n] == fs[..n];
    } else {
      assert fs[i := pc][..n] == fs[..n][i := pc];
      FetchCountUpdate(fs[..n], i, pc, k);
    }
  }

  lemma {:induction false} EndersUpdate(fs: seq<FetcherPc>, i: nat, pc: FetcherPc)
    requires i < |fs|
    ensures Enders(fs[i := pc]) + (if fs[i].FPutEnd? then 1 else 0) == Enders(fs) + (if pc.FPutEnd? then 1 else 0)
  {
    var n := |fs| - 1;
    if i == n {
      assert fs[i := pc][..n] == fs[..n];
    } else {
      assert fs[i := pc][..n] == fs[..n][i := pc];
      EndersUpdate(fs[..n], i, pc);
    }
  }

  lemma {:induction false} InitialFetchers(fs: seq<FetcherPc>, k: nat)
    requires forall i :: 0 <= i < |fs| ==> fs[i] == FTop
    ensures FetchCount(fs, k) == 0 && Enders(fs) == 0
  {
    if fs != [] {
      InitialFetchers(fs[..|fs| - 1], k);
    }
  }

  lemma {:induction false} EndCountZero(log: seq<ReadyItem>)
    ensures EndCount(log) == 0 <==> EndItem !in log
  {
    if log != [] {
      EndCountZero(log[..|log| - 1]);
      assert log == log[..|log| - 1] + [log[|log| - 1]];
    }
  }

  lemma LogAppend(log: seq<ReadyItem>, item: ReadyItem)
    ensures BatchNumbers(log + [item]) == BatchNumbers(log) + if item.BatchItem? then [item.sequence] else []
    ensures EndCount(log + [item]) == EndCount(log) + (if item.EndItem? then 1 else 0)
  {
    assert (log + [item])[..|log|] == log;
  }

  lemma InitInv(c: Config)
    requires c.Ok()
    ensures Inv(c, Init(c))
  {
    forall k: nat
      ensures PlaceCount(Init(c), k) == (if k < 0 then 1 else 0)
    {
      InitialFetchers(Init(c).fetchers, k);
    }
    InitialFetchers(Init(c).fetchers, 0);
  }

  // The partition.

  lemma CoordinatorPartition(c: Config, s: State, m: Move, k: nat)
    requires CoordinatorEnabled(c, s, m) && CoordinatorInv(s.co, s.failed) && PlaceCount(s, k) == (if k < s.co.handed then 1 else 0)
    ensures PlaceCount(CoordinatorStep(c, s, m), k) == (if k < CoordinatorStep(c, s, m).co.handed then 1 else 0)
  {
    hide TaskCount, FetchCount, Count, EndDue, AtPublisher;
    TaskCountAppend(s.q.tasks, Sentinel, k);
    if s.co.pc.CPut? {
      TaskCountAppend(s.q.tasks, Task(s.co.pc.sequence), k);
      CountAppend(s.lost, s.co.pc.sequence, k);
    }
  }

  /** A fetch step leaves the other threads alone. */
  predicate OnlyFetcher(s: State, s': State, i: nat)
    requires i < |s.fetchers|
  {
    && s'.co == s.co && s'.pub == s.pub && |s'.fetchers| == |s.fetchers|
    && s'.fetchers == s.fetchers[i := s'.fetchers[i]]
  }

  lemma FetcherGoFrame(s: State, i: nat)
    requires i < |s.fetchers|
    ensures OnlyFetcher(s, FetcherGo(s, i), i)
  {
    hide EndDue;
    match s.fetchers[i]
    case FTop =>
    case FWork(_) =>
    case FPut(_) =>
    case FSentinel =>
    case FCheck(_) =>
    case FPutEnd(_) =>
    case _ =>
  }

  lemma FetcherFrame(s: State, i: nat, m: Move)
    requires i < |s.fetchers|
    ensures OnlyFetcher(s, FetcherStep(s, i, m), i)
  {
    FetcherGoFrame(s, i);
    hide FetcherGo;
  }

  /** How often k is in fetcher i's hands, in the queues or lost. */
  function NearFetcher(s: State, i: nat, k: nat): nat
    requires i < |s.fetchers|
  {
    AtFetcher(s.fetchers[i], k) + TaskCount(s.q.tasks, k) + Count(s.q.fetched, k) + Count(s.lost, k)
  }

  lemma FetcherTopMoves(s: State, i: nat, k: nat)
    requires i < |s.fetchers| && s.fetchers[i].FTop?
    ensures |FetcherGo(s, i).fetchers| == |s.fetchers|
    ensures NearFetcher(FetcherGo(s, i), i, k) == NearFetcher(s, i, k)
  {
    hide TaskCount, Count, EndDue;
    if s.q.tasks != [] {
      TaskCountTail(s.q.tasks, k);
    }
  }

  lemma FetcherGoMoves(s: State, i: nat, k: nat)
    requires i < |s.fetchers|
    ensures |FetcherGo(s, i).fetchers| == |s.fetchers|
    ensures NearFetcher(FetcherGo(s, i), i, k) == NearFetcher(s, i, k)
  {
    hide TaskCount, Count, EndDue;
    if s.fetchers[i].FTop? {
      FetcherTopMoves(s, i, k);
    } else if s.fetchers[i].FPut? {
      CountAppend(s.q.fetched, s.fetchers[i].sequence, k);
    } else {
      match s.fetchers[i]
      case FWork(_) =>
      case FCheck(_) =>
      case _ =>
    }
  }

  lemma FetcherDropMoves(s: State, i: nat, k: nat)
    requires i < |s.fetchers|
    ensures |FetcherFail(s, i).fetchers| == |s.fetchers| == |FetcherQuit(s, i).fetchers|
    ensures NearFetcher(FetcherFail(s, i), i, k) == NearFetcher(s, i, k) == NearFetcher(FetcherQuit(s, i), i, k)
  {
    hide TaskCount, Count;
    var pc := s.fetchers[i];
    if pc.FWork? || pc.FPut? {
      CountAppend(s.lost, pc.sequence, k);
    }
  }

  lemma FetcherMoves(s: State, i: nat, m: Move, k: nat)
    requires i < |s.fetchers|
    ensures |FetcherStep(s, i, m).fetchers| == |s.fetchers|
    ensures NearFetcher(FetcherStep(s, i, m), i, k) == NearFetcher(s, i, k)
  {
    FetcherGoMoves(s, i, k);
    FetcherDropMoves(s, i, k);
    hide FetcherGo, FetcherFail, FetcherQuit, NearFetcher;
  }

  lemma FetcherPartition(s: State, i: nat, m: Move, k: nat)
    requires i < |s.fetchers| && PlaceCount(s, k) == (if k < s.co.handed then 1 else 0)
    ensures PlaceCount(FetcherStep(s, i, m), k) == (if k < FetcherStep(s, i, m).co.handed then 1 else 0)
  {
    FetcherFrame(s, i, m);
    FetchCountUpdate(s.fetchers, i, FetcherStep(s, i, m).fetchers[i], k);
    FetcherMoves(s, i, m, k);
    hide TaskCount, FetchCount, Count, FetcherGo, FetcherFail, FetcherQuit, AtFetcher, AtPublisher, FetcherStep;
  }

  /** How often k is with the publisher, fetched or lost. */
  function NearPublisher(s: State, k: nat): nat {
    AtPublisher(s.pub, k) + Count(s.q.fetched, k) + Count(s.lost, k)
  }

  lemma PublisherGoMoves(s: State, k: nat)
    requires PublisherInv(s.pub, s.failed) && NearPublisher(s, k) <= 1
    ensures NearPublisher(PublisherGo(s), k) == NearPublisher(s, k)
  {
    hide Count, EndDue;
    if s.q.fetched != [] {
      CountTail(s.q.fetched, k);
    }
    match s.pub.pc
    case PTop =>
    case PHold =>
    case PAck(_) =>
    case PPut(_) =>
    case PBump =>
    case PCheck =>
    case _ =>
  }

  lemma PublisherDropMoves(s: State, k: nat)
    ensures NearPublisher(PublisherFail(s), k) == NearPublisher(s, k) == NearPublisher(PublisherQuit(s), k)
  {
    hide Count;
    if s.pub.pc.PAck? || s.pub.pc.PPut? {
      CountAppend(s.lost, s.pub.pc.sequence, k);
    }
  }

  lemma PublisherGoFrame(s: State)
    ensures PublisherGo(s).co == s.co && PublisherGo(s).fetchers == s.fetchers && PublisherGo(s).q.tasks == s.q.tasks
  {
    hide EndDue, AtP, PutReady, TakeFetched, PopNext;
  }

  lemma PublisherFrame(s: State, m: Move)
    ensures var s' := PublisherStep(s, m);
            s'.co == s.co && s'.fetchers == s.fetchers && s'.q.tasks == s.q.tasks
  {
    PublisherGoFrame(s);
    hide PublisherGo;
  }

  lemma PublisherPartition(s: State, m: Move, k: nat)
    requires PublisherInv(s.pub, s.failed) && PlaceCount(s, k) == (if k < s.co.handed then 1 else 0)
    ensures PlaceCount(PublisherStep(s, m), k) == (if k < PublisherStep(s, m).co.handed then 1 else 0)
  {
    PublisherFrame(s, m);
    PublisherGoMoves(s, k);
    PublisherDropMoves(s, k);
    hide TaskCount, FetchCount, Count, AtPublisher, PublisherGo, PublisherFail, PublisherQuit;
  }

  // The end marker.

  lemma {:induction false} CountMember(xs: seq<nat>, i: nat)
    requires i < |xs|
    ensures Count(xs, xs[i]) > 0
  {
    if i < |xs| - 1 {
      CountMember(xs[..|xs| - 1], i);
    }
  }

  /** Once the end race is won, every number handed out has been shown and none is anywhere else. */
  lemma EndMeansAllShown(c: Config, s: State)
    requires Inv(c, s) && s.endSent
    ensures Shown(s.pub) == s.pub.next == s.co.handed == s.co.scheduled && s.co.done
    ensures !s.pub.pc.PBump? && !s.pub.pc.PAck? && !s.pub.pc.PPut? && s.lost == [] && !s.failed
    ensures forall k: nat :: PlaceCount(s, k) == (if k < Shown(s.pub) then 1 else 0)
  {
    var top := Shown(s.pub);
    assert PlaceCount(s, s.co.handed) == 0;
    assert top == s.pub.next == s.co.handed;
    assert s.pub.pc.PAck? || s.pub.pc.PPut? ==> PlaceCount(s, s.pub.pc.sequence) <= 1;
    assert s.lost != [] ==> PlaceCount(s, s.lost[0]) <= 1;
    if s.lost != [] {
      CountMember(s.lost, 0);
    }
  }

  lemma RaceMarker(log: seq<ReadyItem>, pending: nat, endSent: bool, stop: bool)
    requires EndRace(log, pending, endSent, stop) && pending > 0
    ensures EndRace(log + [EndItem], pending - 1, endSent, stop)
  {
    EndCountZero(log);
    LogAppend(log, EndItem);
  }

  lemma RaceOther(log: seq<ReadyItem>, pending: nat, stop: bool, item: ReadyItem)
    requires EndRace(log, pending, false, stop) && !item.EndItem?
    ensures EndRace(log + [item], pending, false, stop)
  {
    EndCountZero(log);
    LogAppend(log, item);
  }

  lemma CoordinatorGoEnd(c: Config, s: State)
    requires CoordinatorEnabled(c, s, Go) && EndInv(s) && CoordinatorInv(s.co, s.failed)
    requires s.endSent ==> !s.failed
    ensures EndInv(CoordinatorGo(c, s))
  {
    CoordinatorGoAppends(c, s);
    if s.co.pc.CPutEnd? {
      RaceMarker(Log(s.q), PendingEnds(s), s.endSent, s.stop);
    } else if s.co.pc.CPutError? {
      RaceOther(Log(s.q), PendingEnds(s), s.stop, ErrorItem);
    }
    hide EndCount, Enders, EndLast, Log;
    match s.co.pc
    case CPut(_) =>
    case CDone =>
    case CPutEnd =>
    case CPutError =>
    case CRaiseStop =>
    case CSentinels(_) =>
    case _ =>
  }

  lemma CoordinatorFailure(c: Config, s: State, m: Move)
    requires CoordinatorEnabled(c, s, m) && FailureInv(s) && CoordinatorInv(s.co, s.failed)
    ensures FailureInv(CoordinatorStep(c, s, m))
  {
    CoordinatorGoAppends(c, s);
    assert !m.Go? ==> CoordinatorStep(c, s, m).q == s.q;
    hide Log, EndDue;
    match s.co.pc
    case CPut(_) =>
    case CPutError =>
    case CDone =>
    case CSentinels(_) =>
    case _ =>
  }

  lemma CoordinatorEnd(c: Config, s: State, m: Move)
    requires CoordinatorEnabled(c, s, m) && EndInv(s) && FailureInv(s) && CoordinatorInv(s.co, s.failed)
    requires s.endSent ==> !s.failed
    ensures EndInv(CoordinatorStep(c, s, m)) && FailureInv(CoordinatorStep(c, s, m))
  {
    CoordinatorFailure(c, s, m);
    hide EndCount, Enders, CoordinatorGo, FailureInv;
    if m.Go? {
      CoordinatorGoEnd(c, s);
    } else {
      CoordinatorDropFrame(c, s, m);
    }
  }

  lemma PublisherGoEnd(c: Config, s: State)
    requires PublisherEnabled(c, s, Go) && EndInv(s) && PublisherInv(s.pub, s.failed)
    requires s.endSent ==> !s.failed && !s.pub.pc.PPut?
    ensures EndInv(PublisherGo(s))
  {
    PublisherGoAppends(s);
    PublisherGoFrame(s);
    if s.pub.pc.PPut? {
      RaceOther(Log(s.q), PendingEnds(s), s.stop, BatchItem(s.pub.pc.sequence));
    } else if s.pub.pc.PPutEnd? {
      RaceMarker(Log(s.q), PendingEnds(s), s.endSent, s.stop);
    } else if s.pub.pc.PPutError? {
      RaceOther(Log(s.q), PendingEnds(s), s.stop, ErrorItem);
    }
    hide EndCount, Enders, EndLast, Log;
    match s.pub.pc
    case PTop =>
    case PHold =>
    case PAck(_) =>
    case PPut(_) =>
    case PBump =>
    case PCheck =>
    case PPutEnd =>
    case _ =>
  }

  lemma PublisherGoFailure(s: State)
    requires FailureInv(s) && PublisherInv(s.pub, s.failed)
    ensures FailureInv(PublisherGo(s))
  {
    PublisherGoAppends(s);
    PublisherGoFrame(s);
    hide Log, EndDue;
    match s.pub.pc
    case PTop =>
    case PHold =>
    case PPut(_) =>
    case PPutEnd =>
    case PPutError =>
    case _ =>
  }

  lemma PublisherEnd(c: Config, s: State, m: Move)
    requires PublisherEnabled(c, s, m) && EndInv(s) && FailureInv(s) && PublisherInv(s.pub, s.failed)
    requires s.endSent ==> !s.failed && !s.pub.pc.PPut?
    ensures EndInv(PublisherStep(s, m)) && FailureInv(PublisherStep(s, m))
  {
    PublisherGoFailure(s);
    hide EndCount, Enders, PublisherGo;
    if m.Go? {
      PublisherGoEnd(c, s);
    } else {
      assert PublisherStep(s, m).q == s.q;
    }
  }

  /** The log after a fetcher's own step from pc. */
  function FetcherLogs(log: seq<ReadyItem>, pc: FetcherPc): seq<ReadyItem> {
    if pc.FPutEnd? then log + [EndItem] else if pc.FPutError? then log + [ErrorItem] else log
  }

  lemma FetcherGoLog(s: State, i: nat)
    requires i < |s.fetchers|
    ensures Log(FetcherGo(s, i).q) == FetcherLogs(Log(s.q), s.fetchers[i])
    ensures FetcherGo(s, i).lost == s.lost && FetcherGo(s, i).failed == s.failed
    ensures FetcherGo(s, i).stop == (s.stop || s.fetchers[i].FRaiseStop?)
  {
    hide EndDue;
    match s.fetchers[i]
    case FTop =>
    case FWork(_) =>
    case FPut(_) =>
    case FSentinel =>
    case FCheck(_) =>
    case FPutEnd(_) =>
    case _ =>
  }

  lemma FetcherGoFailure(c: Config, s: State, i: nat)
    requires FetcherEnabled(c, s, i, Go) && FailureInv(s)
    ensures FailureInv(FetcherGo(s, i))
  {
    FetcherGoFrame(s, i);
    FetcherGoLog(s, i);
    assert s.fetchers[i].FPutError? || s.fetchers[i].FRaiseStop? ==> s.failed;
    hide EndDue;
  }

  lemma FetcherGoWins(s: State, i: nat)
    requires i < |s.fetchers|
    ensures |FetcherGo(s, i).fetchers| == |s.fetchers|
    ensures s.fetchers[i].FPutEnd? ==> FetcherGo(s, i).endSent == s.endSent && !FetcherGo(s, i).fetchers[i].FPutEnd?
    ensures !s.fetchers[i].FPutEnd? ==> (FetcherGo(s, i).fetchers[i].FPutEnd? <==> FetcherGo(s, i).endSent && !s.endSent)
    ensures FetcherGo(s, i).endSent && !s.endSent ==> EndDue(s)
    ensures s.endSent ==> FetcherGo(s, i).endSent
  {
    assert EndDue(s) ==> !s.endSent;
    hide EndDue;
    match s.fetchers[i]
    case FTop =>
    case FWork(_) =>
    case FPut(_) =>
    case FSentinel =>
    case FCheck(_) =>
    case FPutEnd(_) =>
    case _ =>
  }

  lemma FetcherGoPending(s: State, i: nat)
    requires i < |s.fetchers|
    ensures FetcherGo(s, i).co == s.co && FetcherGo(s, i).pub == s.pub
    ensures s.fetchers[i].FPutEnd? ==> PendingEnds(s) > 0
    ensures PendingEnds(FetcherGo(s, i)) + (if s.fetchers[i].FPutEnd? then 1 else 0)
         == PendingEnds(s) + if FetcherGo(s, i).endSent && !s.endSent then 1 else 0
  {
    FetcherGoWins(s, i);
    FetcherGoFrame(s, i);
    EndersUpdate(s.fetchers, i, FetcherGo(s, i).fetchers[i]);
    EndersMember(s.fetchers, i);
    hide Enders, FetcherGo, EndDue;
  }

  lemma FetcherGoEnd(c: Config, s: State, i: nat)
    requires FetcherEnabled(c, s, i, Go) && EndInv(s) && FailureInv(s)
    requires s.endSent ==> !s.failed
    ensures EndInv(FetcherGo(s, i))
  {
    FetcherGoLog(s, i);
    FetcherGoWins(s, i);
    FetcherGoPending(s, i);
    assert s.fetchers[i].FPutError? ==> s.failed;
    assert EndDue(s) ==> !s.endSent && s.co.done && s.pub.published >= s.co.scheduled;
    hide FetcherGo, FailureInv, EndLast, EndDue, Log, EndCount, PendingEnds;
    if s.fetchers[i].FPutEnd? {
      RaceMarker(Log(s.q), PendingEnds(s), s.endSent, s.stop);
    } else if s.fetchers[i].FPutError? {
      RaceOther(Log(s.q), PendingEnds(s), s.stop, ErrorItem);
    }
  }

  lemma {:induction false} EndersMember(fs: seq<FetcherPc>, i: nat)
    requires i < |fs|
    ensures fs[i].FPutEnd? ==> Enders(fs) > 0
  {
    if i < |fs| - 1 {
      EndersMember(fs[..|fs| - 1], i);
    }
  }

  lemma FetcherEnd(c: Config, s: State, i: nat, m: Move)
    requires FetcherEnabled(c, s, i, m) && EndInv(s) && FailureInv(s)
    requires s.endSent ==> !s.failed
    ensures EndInv(FetcherStep(s, i, m)) && FailureInv(FetcherStep(s, i, m))
  {
    hide EndCount, Enders, FetcherGo;
    if m.Go? {
      FetcherGoEnd(c, s, i);
      FetcherGoFailure(c, s, i);
    } else {
      EndersUpdate(s.fetchers, i, FetcherStep(s, i, m).fetchers[i]);
      assert FetcherStep(s, i, m).q == s.q;
    }
  }

  // The whole invariant.

  lemma MarkersAddNoBatch(log: seq<ReadyItem>)
    ensures BatchNumbers(log + [EndItem]) == BatchNumbers(log) == BatchNumbers(log + [ErrorItem])
  {
    LogAppend(log, EndItem);
    LogAppend(log, ErrorItem);
  }

  /** The log after the coordinator's own step from pc. */
  function CoordinatorLogs(log: seq<ReadyItem>, pc: CoordinatorPc): seq<ReadyItem> {
    if pc.CPutEnd? then log + [EndItem] else if pc.CPutError? then log + [ErrorItem] else log
  }

  lemma CoordinatorGoAppends(c: Config, s: State)
    ensures Log(CoordinatorGo(c, s).q) == CoordinatorLogs(Log(s.q), s.co.pc)
    ensures CoordinatorGo(c, s).pub == s.pub && CoordinatorGo(c, s).failed == s.failed
  {
    hide EndDue;
    match s.co.pc
    case CLoop =>
    case CPut(_) =>
    case CBump =>
    case CDone =>
    case CPutEnd =>
    case CPutError =>
    case CRaiseStop =>
    case _ =>
  }

  lemma CoordinatorDropFrame(c: Config, s: State, m: Move)
    requires !m.Go?
    ensures CoordinatorStep(c, s, m).q == s.q && CoordinatorStep(c, s, m).pub == s.pub
  {
    match s.co.pc
    case CPut(_) =>
    case CSentinels(_) =>
    case _ =>
  }

  lemma CoordinatorLog(c: Config, s: State, m: Move)
    requires LogInv(s)
    ensures LogInv(CoordinatorStep(c, s, m))
  {
    MarkersAddNoBatch(Log(s.q));
    if m.Go? {
      CoordinatorGoAppends(c, s);
      hide BatchNumbers, Upto, CoordinatorGo, Log, Shown;
    } else {
      CoordinatorDropFrame(c, s, m);
      hide BatchNumbers, Upto, CoordinatorStep, Log, Shown;
    }
  }

  lemma CoordinatorGoThreads(c: Config, s: State)
    requires ThreadsInv(s)
    ensures CoordinatorInv(CoordinatorGo(c, s).co, s.failed)
  {
    hide EndDue, PutReady;
    match s.co.pc
    case CLoop =>
    case CPut(_) =>
    case CBump =>
    case CDone =>
    case CPutEnd =>
    case CPutError =>
    case CRaiseStop =>
    case _ =>
  }

  lemma CoordinatorThreads(c: Config, s: State, m: Move)
    requires ThreadsInv(s) && CoordinatorEnabled(c, s, m)
    ensures ThreadsInv(CoordinatorStep(c, s, m))
  {
    CoordinatorGoThreads(c, s);
    CoordinatorGoAppends(c, s);
    hide CoordinatorGo;
  }

  lemma CoordinatorGoBounded(c: Config, s: State)
    requires QueuesBounded(c, s) && CoordinatorEnabled(c, s, Go)
    ensures QueuesBounded(c, CoordinatorGo(c, s))
  {
    hide EndDue, AtC;
  }

  lemma CoordinatorBounded(c: Config, s: State, m: Move)
    requires QueuesBounded(c, s) && CoordinatorEnabled(c, s, m)
    ensures QueuesBounded(c, CoordinatorStep(c, s, m))
  {
    if m.Go? {
      CoordinatorGoBounded(c, s);
    }
    hide CoordinatorGo, AtC;
  }

  lemma FetcherStepLog(s: State, i: nat, m: Move)
    requires i < |s.fetchers|
    ensures Log(FetcherStep(s, i, m).q) == if m.Go? then FetcherLogs(Log(s.q), s.fetchers[i]) else Log(s.q)
  {
    FetcherGoLog(s, i);
    hide FetcherGo, FetcherLogs;
  }

  lemma FetcherLog(s: State, i: nat, m: Move)
    requires i < |s.fetchers| && LogInv(s)
    ensures LogInv(FetcherStep(s, i, m))
  {
    MarkersAddNoBatch(Log(s.q));
    FetcherFrame(s, i, m);
    FetcherStepLog(s, i, m);
    hide BatchNumbers, Upto, FetcherStep, Log;
  }

  lemma FetcherGoBounded(c: Config, s: State, i: nat)
    requires QueuesBounded(c, s) && FetcherEnabled(c, s, i, Go)
    ensures QueuesBounded(c, FetcherGo(s, i))
  {
    hide EndDue;
    match s.fetchers[i]
    case FTop =>
    case FWork(_) =>
    case FPut(_) =>
    case FSentinel =>
    case FCheck(_) =>
    case FPutEnd(_) =>
    case _ =>
  }

  lemma FetcherBounded(c: Config, s: State, i: nat, m: Move)
    requires QueuesBounded(c, s) && FetcherEnabled(c, s, i, m)
    ensures QueuesBounded(c, FetcherStep(s, i, m))
  {
    if m.Go? {
      FetcherGoBounded(c, s, i);
    }
    hide EndDue, FetcherGo;
  }

  lemma FetcherThreads(s: State, i: nat, m: Move)
    requires i < |s.fetchers| && ThreadsInv(s)
    ensures ThreadsInv(FetcherStep(s, i, m))
  {
    FetcherFrame(s, i, m);
    FetcherGoLog(s, i);
    hide FetcherGo;
  }

  /** The log after the publisher's own step from pc. */
  function PublisherLogs(log: seq<ReadyItem>, pc: PublisherPc): seq<ReadyItem> {
    if pc.PPut? then log + [BatchItem(pc.sequence)] else if pc.PPutEnd? then log + [EndItem]
    else if pc.PPutError? then log + [ErrorItem] else log
  }

  lemma PublisherGoAppends(s: State)
    ensures Log(PublisherGo(s).q) == PublisherLogs(Log(s.q), s.pub.pc)
  {
    hide EndDue, AtP, TakeFetched, PopNext;
    match s.pub.pc
    case PTop =>
    case PHold =>
    case PAck(_) =>
    case PPut(_) =>
    case PBump =>
    case PCheck =>
    case _ =>
  }

  lemma PublisherGoShown(s: State)
    ensures Shown(PublisherGo(s).pub) == Shown(s.pub) + if s.pub.pc.PPut? then 1 else 0
  {
    hide EndDue, PutReady, TakeFetched, PopNext;
    match s.pub.pc
    case PTop =>
    case PHold =>
    case PAck(_) =>
    case PPut(_) =>
    case PBump =>
    case PCheck =>
    case _ =>
  }

  lemma PublisherGoLog(s: State)
    requires LogInv(s) && PublisherInv(s.pub, s.failed)
    ensures LogInv(PublisherGo(s))
  {
    MarkersAddNoBatch(Log(s.q));
    if s.pub.pc.PPut? {
      LogAppend(Log(s.q), BatchItem(s.pub.pc.sequence));
    }
    assert Upto(s.pub.next + 1) == Upto(s.pub.next) + [s.pub.next];
    PublisherGoAppends(s);
    PublisherGoShown(s);
    hide BatchNumbers, Upto, PublisherGo, Log;
  }

  lemma PublisherDropLog(s: State)
    ensures Log(PublisherFail(s).q) == Log(s.q) == Log(PublisherQuit(s).q)
    ensures Shown(PublisherFail(s).pub) == Shown(s.pub) == Shown(PublisherQuit(s).pub)
  {
  }

  lemma PublisherLog(s: State, m: Move)
    requires LogInv(s) && PublisherInv(s.pub, s.failed)
    ensures LogInv(PublisherStep(s, m))
  {
    PublisherGoLog(s);
    PublisherDropLog(s);
    hide BatchNumbers, Upto, PublisherGo, PublisherFail, PublisherQuit, Log, Shown;
  }

  lemma PublisherGoThreads(s: State)
    requires PublisherInv(s.pub, s.failed)
    ensures PublisherInv(PublisherGo(s).pub, s.failed) && PublisherGo(s).failed == s.failed
  {
    hide EndDue;
    match s.pub.pc
    case PTop =>
    case PHold =>
    case PAck(_) =>
    case PPut(_) =>
    case PBump =>
    case PCheck =>
    case _ =>
  }

  lemma PublisherThreads(s: State, m: Move)
    requires ThreadsInv(s)
    ensures ThreadsInv(PublisherStep(s, m))
  {
    if m.Go? {
      PublisherGoThreads(s);
      PublisherGoFrame(s);
    }
    hide EndDue, PublisherGo;
  }

  lemma PublisherGoBounded(c: Config, s: State)
    requires QueuesBounded(c, s) && PublisherEnabled(c, s, Go)
    ensures QueuesBounded(c, PublisherGo(s))
  {
    hide EndDue;
    match s.pub.pc
    case PTop =>
    case PHold =>
    case PAck(_) =>
    case PPut(_) =>
    case PBump =>
    case PCheck =>
    case _ =>
  }

  lemma PublisherBounded(c: Config, s: State, m: Move)
    requires QueuesBounded(c, s) && PublisherEnabled(c, s, m)
    ensures QueuesBounded(c, PublisherStep(s, m))
  {
    if m.Go? {
      PublisherGoBounded(c, s);
    }
    hide EndDue, PublisherGo;
  }

  lemma StepPartition(c: Config, s: State, a: Action)
    requires Inv(c, s) && Enabled(c, s, a)
    ensures Partition(Apply(c, s, a))
  {
    forall k: nat
      ensures PlaceCount(Apply(c, s, a), k) == (if k < Apply(c, s, a).co.handed then 1 else 0)
    {
      assert PlaceCount(s, k) == (if k < s.co.handed then 1 else 0);
      match a
      case Coordinator(m) => CoordinatorPartition(c, s, m, k);
      case Fetcher(i, m) => FetcherPartition(s, i, m, k);
      case Publisher(m) => PublisherPartition(s, m, k);
      case _ =>
    }
  }

  lemma TakeKeepsLog(c: Config, s: State)
    requires s.q.ready != []
    ensures Log(Apply(c, s, TrainerTake).q) == Log(s.q)
  {
  }

  /** Before the end marker has been claimed anything may be on its way; afterwards nothing is. */
  lemma ClaimedMeansQuiet(c: Config, s: State)
    requires Inv(c, s)
    ensures s.endSent ==> !s.failed && !s.pub.pc.PPut?
  {
    hide Partition, PlaceCount, EndInv, FailureInv, LogInv, QueuesBounded;
    if s.endSent {
      EndMeansAllShown(c, s);
    }
  }

  lemma CoordinatorPreserves(c: Config, s: State, m: Move)
    requires Inv(c, s) && CoordinatorEnabled(c, s, m) && Partition(CoordinatorStep(c, s, m))
    ensures Inv(c, CoordinatorStep(c, s, m))
  {
    hide Partition, LogInv, EndInv, FailureInv, QueuesBounded, CoordinatorStep, CoordinatorEnabled, PublisherInv, CoordinatorInv;
    ClaimedMeansQuiet(c, s);
    CoordinatorEnd(c, s, m);
    CoordinatorLog(c, s, m);
    CoordinatorThreads(c, s, m);
    CoordinatorBounded(c, s, m);
  }

  lemma FetcherPreserves(c: Config, s: State, i: nat, m: Move)
    requires Inv(c, s) && FetcherEnabled(c, s, i, m) && Partition(FetcherStep(s, i, m))
    ensures Inv(c, FetcherStep(s, i, m))
  {
    hide Partition, LogInv, EndInv, FailureInv, QueuesBounded, FetcherStep, ThreadsInv;
    ClaimedMeansQuiet(c, s);
    FetcherEnd(c, s, i, m);
    FetcherLog(s, i, m);
    FetcherThreads(s, i, m);
    FetcherBounded(c, s, i, m);
  }

  lemma PublisherPreserves(c: Config, s: State, m: Move)
    requires Inv(c, s) && PublisherEnabled(c, s, m) && Partition(PublisherStep(s, m))
    ensures Inv(c, PublisherStep(s, m))
  {
    hide Partition, LogInv, EndInv, FailureInv, QueuesBounded, PublisherStep, PublisherEnabled, PublisherInv, CoordinatorInv;
    ClaimedMeansQuiet(c, s);
    PublisherEnd(c, s, m);
    PublisherLog(s, m);
    PublisherThreads(s, m);
    PublisherBounded(c, s, m);
  }

  lemma OutsidePreserves(c: Config, s: State, a: Action)
    requires Inv(c, s) && Enabled(c, s, a) && (a.TrainerTake? || a.StopEvent?) && Partition(Apply(c, s, a))
    ensures Inv(c, Apply(c, s, a))
  {
    hide Partition, BatchNumbers, Upto, EndCount, Enders;
    if a.TrainerTake? {
      TakeKeepsLog(c, s);
    }
  }

  lemma StepPreserves(c: Config, s: State, a: Action)
    requires Inv(c, s) && Enabled(c, s, a)
    ensures Inv(c, Apply(c, s, a))
  {
    hide Partition, LogInv, EndInv, FailureInv, QueuesBounded, ThreadsInv, CoordinatorStep, FetcherStep, PublisherStep,
         CoordinatorEnabled, FetcherEnabled, PublisherEnabled;
    StepPartition(c, s, a);
    match a
    case Coordinator(m) => CoordinatorPreserves(c, s, m);
    case Fetcher(i, m) =>
      FetcherIsOne(c, s, i, m);
      FetcherPreserves(c, s, i, m);
    case Publisher(m) => PublisherPreserves(c, s, m);
    case _ => OutsidePreserves(c, s, a);
  }

  lemma FetcherIsOne(c: Config, s: State, i: nat, m: Move)
    requires FetcherEnabled(c, s, i, m)
    ensures i < |s.fetchers|
  {
  }

  lemma {:induction false} RunPreserves(c: Config, s: State, run: seq<Action>)
    requires Inv(c, s) && ValidRun(c, s, run)
    ensures Inv(c, After(c, s, run))
    decreases |run|
  {
    if run != [] {
      StepPreserves(c, s, run[0]);
      RunPreserves(c, Apply(c, s, run[0]), run[1..]);
    }
  }
}

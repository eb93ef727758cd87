/** What the coordinator guarantees in every state that any run can reach. */
module CoordinatorGuarantees {
  import opened Text
  import opened Sequences
  import opened CoordinatorPlan
  import opened CoordinatorBoard
  import opened CoordinatorPins
  import opened CoordinatorState
  import opened CoordinatorCache
  import opened CoordinatorService
  import opened CoordinatorInvariants
  import opened CoordinatorBoardSteps
  import opened CoordinatorJobSteps
  import opened CoordinatorRuns

  // Lifecycle.

  predicate LiveTwins(b: Board, t1: nat, t2: nat) {
    && t1 in b.tasks && t2 in b.tasks && Live(b.tasks[t1].status) && Live(b.tasks[t2].status)
    && b.tasks[t1].batch.id == b.tasks[t2].batch.id
  }

  /** Index, task, entry and handle of every batch id agree, and a batch has at most one live task. */
  lemma LifecycleIsCoherent(c: Config, run: seq<Action>, k: string, t1: nat, t2: nat)
    requires Permutes(c.shuffle) && ValidRun(c, Init(), run)
    ensures KeyCoherent(After(c, Init(), run).board, k)
    ensures LiveTwins(After(c, Init(), run).board, t1, t2) ==> t1 == t2
  {
    RunFromStart(c, run);
    var b := After(c, Init(), run).board;
    hide ValidRun, After;
    assert Coherent(b);
    if LiveTwins(b, t1, t2) {
      OneLiveTaskPerBatch(b, t1, t2);
    }
  }

  /** Two completions of a payload have a removal between them, two hand-outs a failure or a removal. */
  lemma MaterialisedOnce(c: Config, run: seq<Action>, k: string, i: nat, j: nat)
    requires Permutes(c.shuffle) && ValidRun(c, Init(), run)
    requires i < j < |KeyLog(After(c, Init(), run).keyHistory, k)|
    ensures var h := KeyLog(After(c, Init(), run).keyHistory, k);
            && (h[i] == Finished && h[j] == Finished ==> exists m :: i < m < j && h[m] == Dropped)
            && (h[i] == Started && h[j] == Started ==> exists m :: i < m < j && (h[m] == Dropped || h[m] == Broke))
  {
    RunFromStart(c, run);
    var s := After(c, Init(), run);
    hide ValidRun, After;
    var h := KeyLog(s.keyHistory, k);
    assert PhaseAfter(h) == PhaseOf(s.board, k);
    if h[i] == Finished && h[j] == Finished {
      RemovalBetweenCompletions(h, i, j);
    }
    if h[i] == Started && h[j] == Started {
      GivenUpBetweenStarts(h, i, j);
    }
  }

  // Pins.

  /**
   * A job's pins are exactly the batches issued to it and not yet acknowledged; a finished job has
   * none; and whatever is pinned can be fetched.
   */
  lemma PinsAreTheOutstandingBatches(c: Config, run: seq<Action>, j: string)
    requires Permutes(c.shuffle) && ValidRun(c, Init(), run)
    ensures var s := After(c, Init(), run);
            && KeysOf(s.pins, j) == Outstanding(JobLog(s.jobHistory, j))
            && (!IsActive(s, j) ==> KeysOf(s.pins, j) == {})
            && forall k :: k in KeysOf(s.pins, j) ==> InUse(s.pins, k) && IsReady(s.board, k)
  {
    RunFromStart(c, run);
    var s := After(c, Init(), run);
    hide ValidRun, After;
    assert PinTold(s.pins, s.jobs, s.jobHistory, j) && KeysOf(s.pins, j) <= s.board.handles.Keys;
    forall k | k in KeysOf(s.pins, j)
      ensures InUse(s.pins, k)
    {
      InUseMeansPinned(s.pins, k);
    }
  }

  /** Entry and handle of k are as they were, but for the time of the last access. */
  predicate Kept(b: Board, b': Board, k: string) {
    && k in b.entries && k in b'.entries && b'.entries[k] == b.entries[k].(lastAccessed := b'.entries[k].lastAccessed)
    && k in b.handles && k in b'.handles && b'.handles[k] == b.handles[k]
  }

  lemma PinnedIsStored(c: Config, s: Sys, k: string)
    requires Inv(c, s) && InUse(s.pins, k)
    ensures KeyCoherent(s.board, k) && Indexed(s.board, k) && StatusOf(s.board, k).Completed? && Kept(s.board, s.board, k)
  {
    InUseMeansPinned(s.pins, k);
    var j: string :| k in KeysOf(s.pins, j);
    assert KeysOf(s.pins, j) <= s.board.handles.Keys;
    assert KeyCoherent(s.board, k);
    hide *;
    hide KeysOf;
  }

  lemma AddTaskSparesPinned(c: Config, s: Sys, batch: Batch, jobId: string, priority: real, storage: StorageClass, now: int, k: string)
    requires Inv(c, s) && InUse(s.pins, k)
    ensures Kept(s.board, AddTask(s, batch, jobId, priority, storage, now).board, k)
  {
    hide Inv, InUse;
    PinnedIsStored(c, s, k);
  }

  lemma ScheduleOneSparesPinned(c: Config, s: Sys, j: string, batch: Batch, how: Scheduling, k: string)
    requires Inv(c, s) && InUse(s.pins, k)
    ensures Kept(s.board, ScheduleOne(c, s, j, batch, how).board, k)
  {
    hide Inv, AddTask, InUse, ReadyOrInFlight;
    PinnedIsStored(c, s, k);
    AddTaskSparesPinned(c, s, batch, j, how.priority(batch.id), if c.reuse then how.storage(batch.id) else Transient, how.now, k);
  }

  lemma {:induction false} ScheduleAllSparesPinned(c: Config, s: Sys, j: string, batches: seq<Batch>, how: Scheduling, k: string)
    requires Inv(c, s) && IsActive(s, j) && Registered(s, batches) && InUse(s.pins, k)
    ensures Kept(s.board, ScheduleAll(c, s, j, batches, how).board, k)
  {
    hide Inv, ScheduleOne, InUse, IsActive, KeyCoherent;
    PinnedIsStored(c, s, k);
    if batches != [] {
      var n := |batches| - 1;
      ScheduleAllSparesPinned(c, s, j, batches[..n], how, k);
      ScheduleAllKeeps(c, s, j, batches[..n], how);
      ScheduleOneSparesPinned(c, ScheduleAll(c, s, j, batches[..n], how), j, batches[n], how, k);
    }
  }

  lemma ScheduleSparesPinned(c: Config, s: Sys, j: string, how: Scheduling, k: string)
    requires Inv(c, s) && InUse(s.pins, k)
    ensures Kept(s.board, ScheduleJobStep(c, s, j, how).board, k)
  {
    PinnedIsStored(c, s, k);
    if j in s.jobs {
      RefreshIsIdle(c, s, j);
      if IsActive(s, j) {
        WindowIsRegistered(c, s, j);
        ScheduleAllSparesPinned(c, s, j, First(TargetDepth(c, s.est, s.jobs[j]), Upcoming(s.jobs[j])), how, k);
      }
    }
    hide Inv, InUse, ScheduleAll, Upcoming, TargetDepth, Replenished;
  }

  lemma StartSparesPinned(c: Config, s: Sys, id: string, datasetId: string, lookahead: int, how: Scheduling, k: string)
    requires Inv(c, s) && InUse(s.pins, k)
    ensures Kept(s.board, StartJobStep(c, s, id, datasetId, lookahead, how).board, k)
  {
    PinnedIsStored(c, s, k);
    if id !in s.jobs && datasetId in s.datasets {
      AddJobKeeps(c, s, id, datasetId, lookahead);
      NewJobIsSound(c, s, id, datasetId, lookahead);
      ScheduleSparesPinned(c, AddJob(c, s, id, datasetId, lookahead), id, how, k);
    }
    hide Inv, InUse, AddJob, ScheduleJobStep, JobSound;
  }

  lemma PrefetchOneSparesPinned(c: Config, s: Sys, batch: Batch, now: int, k: string)
    requires Inv(c, s) && InUse(s.pins, k)
    ensures Kept(s.board, PrefetchOne(c, s, batch, now).board, k)
  {
    hide Inv, AddTask, InUse, CanPrefetch, CanAdmit, Value;
    PinnedIsStored(c, s, k);
    AddTaskSparesPinned(c, s, batch, "", Value(c, s, batch.id, batch.datasetId), Reusable, now, k);
  }

  lemma {:induction false} PrefetchAllSparesPinned(c: Config, s: Sys, ranking: seq<Batch>, slots: nat, now: int, k: string)
    requires Inv(c, s) && Registered(s, ranking) && InUse(s.pins, k)
    ensures Kept(s.board, PrefetchAll(c, s, ranking, slots, now).board, k)
  {
    hide Inv, PrefetchOne, InUse, KeyCoherent;
    PinnedIsStored(c, s, k);
    if ranking != [] {
      var n := |ranking| - 1;
      PrefetchAllSparesPinned(c, s, ranking[..n], slots, now, k);
      PrefetchAllKeeps(c, s, ranking[..n], slots, now);
      PrefetchOneSparesPinned(c, PrefetchAll(c, s, ranking[..n], slots, now), ranking[n], now, k);
    }
  }

  lemma PrefetchSparesPinned(c: Config, s: Sys, ranking: seq<Batch>, now: int, k: string)
    requires Inv(c, s) && Ranking(c, s, ranking) && InUse(s.pins, k)
    ensures Kept(s.board, PrefetchStep(c, s, ranking, now).board, k)
  {
    hide Inv, JobInv, InUse, PrefetchAll, Ranking, MayPrefetch, IdleWorkers, PendingTasks, KeyCoherent, Indexed, Kept;
    PinnedIsStored(c, s, k);
    InvHasJobs(c, s);
    if MayPrefetch(c, s) {
      MayPrefetchHasSlots(c, s);
      RankingIsRegistered(c, s, ranking);
      PrefetchAllSparesPinned(c, s, ranking, IdleWorkers(s) - |PendingTasks(s.board)|, now, k);
    }
  }

  lemma {:induction false} EvictAllSparesPinned(s: Sys, victims: seq<string>, k: string)
    requires InUse(s.pins, k) && Kept(s.board, s.board, k)
    ensures Kept(s.board, EvictAll(s, victims).board, k) && EvictAll(s, victims).pins == s.pins
  {
    if victims != [] {
      EvictAllSparesPinned(s, victims[..|victims| - 1], k);
    }
  }

  lemma RecordSparesPinned(b: Board, t: nat, entry: Entry, k: string)
    requires t in b.tasks && b.tasks[t].batch.id != k && Kept(b, b, k)
    ensures Kept(b, Complete(b, t, entry), k)
  {
  }

  lemma KeptTwice(b0: Board, b1: Board, b2: Board, k: string)
    requires Kept(b0, b1, k) && Kept(b1, b2, k)
    ensures Kept(b0, b2, k)
  {
  }

  lemma KeptIsThere(b0: Board, b1: Board, k: string)
    requires Kept(b0, b1, k)
    ensures Kept(b1, b1, k)
  {
  }

  lemma CompleteSparesPinned(c: Config, s: Sys, t: nat, o: Outcome, victims: Option<seq<string>>, now: int, k: string)
    requires Inv(c, s) && IsRunning(s, t) && InUse(s.pins, k)
    ensures Kept(s.board, CompleteStep(c, s, t, o, victims, now).board, k)
  {
    PinnedIsStored(c, s, k);
    assert TaskCoherent(s.board, t) && s.board.tasks[t].batch.id != k;
    hide Inv, InUse, KeyCoherent, Complete, Kept;
    var task := s.board.tasks[t];
    var s1 := Learned(c, s, task.batch.datasetId, o);
    var s2 := if o.InRedis? then Decided(c, s1, task.batch.id, o.size, victims) else s1;
    if o.InRedis? && victims.Some? {
      EvictAllSparesPinned(s1, victims.value, k);
      EvictAllKeepsBatches(s1, victims.value, t);
    }
    hide EvictAll, Placed, Fits, Learned;
    assert Kept(s.board, s2.board, k) && (t in s2.board.tasks ==> s2.board.tasks[t] == task);
    hide Decided;
    if t in s2.board.tasks {
      var entry := EntryFor(task.batch, Placed(c, s1, task.batch.id, o, task.storage, victims), o.size, now);
      KeptIsThere(s.board, s2.board, k);
      RecordSparesPinned(s2.board, t, entry, k);
      KeptTwice(s.board, s2.board, Complete(s2.board, t, entry), k);
    }
  }

  lemma {:induction false} EvictAllKeepsBatches(s: Sys, victims: seq<string>, t: nat)
    ensures t in EvictAll(s, victims).board.tasks ==> t in s.board.tasks && EvictAll(s, victims).board.tasks[t] == s.board.tasks[t]
  {
    if victims != [] {
      EvictAllKeepsBatches(s, victims[..|victims| - 1], t);
    }
  }

  lemma FailSparesPinned(c: Config, s: Sys, t: nat, k: string)
    requires Inv(c, s) && IsRunning(s, t) && InUse(s.pins, k)
    ensures Kept(s.board, FailStep(s, t).board, k)
  {
    PinnedIsStored(c, s, k);
    assert TaskCoherent(s.board, t);
    hide Inv, InUse, NoteKey, Unassigned;
  }

  lemma TouchSparesPinned(b: Board, k2: string, now: int, k: string)
    requires Kept(b, b, k)
    ensures Kept(b, Touch(b, k2, now), k)
  {
  }

  lemma NextBatchSparesPinned(c: Config, s: Sys, j: string, feedback: Option<real>, now: int, k: string)
    requires Inv(c, s) && InUse(s.pins, k)
    ensures Kept(s.board, NextBatchStep(c, s, j, feedback, now).board, k)
  {
    hide Inv, InUse, KeyCoherent, Indexed, Prepared, NextPlanned, Served, IsReady, Kept, Touch;
    PinnedIsStored(c, s, k);
    if j in s.jobs {
      FeedbackKeeps(c, s, j, feedback);
      var s1 := WithFeedback(s, j, feedback);
      assert s1.board == s.board;
      hide WithFeedback;
      assert JobInv(c, s1) by {
        InvHasJobs(c, s1);
      }
      PreparedIsIdle(c, s1, j);
      if NextPlanned(s1, j).Some? {
        ServedShape(c, s1, j, NextPlanned(s1, j).value, now);
        TouchSparesPinned(s.board, NextPlanned(s1, j).value.id, now, k);
      }
    }
  }

  lemma RemovalSparesPinned(s: Sys, k2: string, now: int, k: string)
    requires InUse(s.pins, k) && Kept(s.board, s.board, k)
    ensures Kept(s.board, ExpireStep(s, k2, now).board, k)
  {
    hide NoteKey;
  }

  lemma PollSparesPinned(s: Sys, w: string, choice: Option<nat>, k: string)
    requires Kept(s.board, s.board, k)
    ensures Kept(s.board, PollStep(s, w, choice).board, k)
  {
    hide NoteKey, OwnerActive;
  }

  lemma FinishSparesPinned(s: Sys, j: string, status: JobStatus, k: string)
    requires Kept(s.board, s.board, k)
    ensures Kept(s.board, FinishJobStep(s, j, status).board, k)
  {
    hide NoteJob, Release;
  }

  lemma OtherCallsSparePinned(c: Config, s: Sys, a: Action, k: string)
    requires Inv(c, s) && Allowed(c, s, a) && InUse(s.pins, k)
    requires a.Poll? || a.ExpireEntry? || a.FinishJob?
    ensures Kept(s.board, Apply(c, s, a).board, k)
  {
    hide Inv, InUse, KeyCoherent, Indexed, ExpireStep, PollStep, FinishJobStep, Allowed, StatusOf, Kept;
    PinnedIsStored(c, s, k);
    match a
    case Poll(w, choice) => PollSparesPinned(s, w, choice, k);
    case ExpireEntry(k2, now) => RemovalSparesPinned(s, k2, now, k);
    case FinishJob(id, status) => FinishSparesPinned(s, id, status, k);
  }

  lemma SchedulingSparesPinned(c: Config, s: Sys, a: Action, k: string)
    requires Inv(c, s) && Allowed(c, s, a) && InUse(s.pins, k)
    requires a.StartJob? || a.ScheduleJob? || a.PrefetchPass?
    ensures Kept(s.board, Apply(c, s, a).board, k)
  {
    hide Inv, InUse, StartJobStep, ScheduleJobStep, PrefetchStep, Ranking, Kept;
    match a
    case StartJob(id, datasetId, lookahead, how) => StartSparesPinned(c, s, id, datasetId, lookahead, how, k);
    case ScheduleJob(id, how) => ScheduleSparesPinned(c, s, id, how, k);
    case PrefetchPass(ranking, now) => PrefetchSparesPinned(c, s, ranking, now, k);
  }

  /** No step removes or relocates a payload that some job is fetching, or its handle. */
  lemma StepSparesPinned(c: Config, s: Sys, a: Action, k: string)
    requires Inv(c, s) && Allowed(c, s, a) && InUse(s.pins, k)
    ensures Kept(s.board, Apply(c, s, a).board, k)
  {
    hide Inv, InUse, NextBatchStep, CompleteStep, FailStep, Kept, Chooses, KeyCoherent, Indexed;
    PinnedIsStored(c, s, k);
    if a.StartJob? || a.ScheduleJob? || a.PrefetchPass? {
      SchedulingSparesPinned(c, s, a, k);
    } else if a.Poll? || a.ExpireEntry? || a.FinishJob? {
      OtherCallsSparePinned(c, s, a, k);
    } else {
      match a
      case CompleteTask(t, o, victims, now) => CompleteSparesPinned(c, s, t, o, victims, now, k);
      case FailTask(t) => FailSparesPinned(c, s, t, k);
      case NextBatch(id, feedback, now) => NextBatchSparesPinned(c, s, id, feedback, now, k);
      case _ =>
    }
  }

  /** k is in use in every state of the run but perhaps the last. */
  ghost predicate InUseThroughout(c: Config, s: Sys, run: seq<Action>, k: string)
    requires ValidRun(c, s, run)
    decreases |run|
  {
    run != [] ==> InUse(s.pins, k) && InUseThroughout(c, Apply(c, s, run[0]), run[1..], k)
  }

  /** For as long as some job is fetching a payload, its handle stays, and so does its copy in Redis, if there is one. */
  lemma {:induction false} PinnedPayloadsSurvive(c: Config, s: Sys, run: seq<Action>, k: string)
    requires Inv(c, s) && ValidRun(c, s, run) && InUseThroughout(c, s, run, k) && IsReady(s.board, k)
    ensures var s' := After(c, s, run);
            && IsReady(s'.board, k) && s'.board.handles[k] == s.board.handles[k]
            && (s.board.handles[k].location.Redis? ==> (RedisKey(c, k) in s'.redis <==> !s.board.handles[k].forced))
    decreases |run|
  {
    RunPreserves(c, s, run);
    ReadyMeansPresent(c, After(c, s, run), k);
    hide Inv, InUse, Apply, RedisKey;
    if run != [] {
      StepSparesPinned(c, s, run[0], k);
      StepPreserves(c, s, run[0]);
      PinnedPayloadsSurvive(c, Apply(c, s, run[0]), run[1..], k);
    }
  }

  // Redis.

  /** A READY handle that points to Redis names a key that is in Redis exactly if it was not forced there. */
  lemma ReadyMeansPresent(c: Config, s: Sys, k: string)
    requires Inv(c, s)
    ensures IsReady(s.board, k) && s.board.handles[k].location.Redis? ==>
              s.board.handles[k].fetchKey == RedisKey(c, k) && (RedisKey(c, k) in s.redis <==> !s.board.handles[k].forced)
  {
    assert KeyCoherent(s.board, k);
    if IsReady(s.board, k) {
      assert EntryTruthful(c, s.redis, k, s.board.entries[k]);
    }
  }

  lemma ReadyHandlesAgreeWithRedis(c: Config, run: seq<Action>, k: string)
    requires Permutes(c.shuffle) && ValidRun(c, Init(), run)
    ensures var s := After(c, Init(), run);
            IsReady(s.board, k) && s.board.handles[k].location.Redis? ==>
              (s.board.handles[k].fetchKey in s.redis <==> !s.board.handles[k].forced)
  {
    RunFromStart(c, run);
    ReadyMeansPresent(c, After(c, Init(), run), k);
    hide Inv, ValidRun, After, RedisKey;
  }

  // The cache budget.

  /** What the bounded cache has admitted never exceeds its capacity. */
  lemma BudgetIsKept(c: Config, run: seq<Action>)
    requires Permutes(c.shuffle) && ValidRun(c, Init(), run) && c.capacity > 0
    ensures AdmittedBytes(After(c, Init(), run).board.entries) <= c.capacity
  {
    RunFromStart(c, run);
    hide ValidRun, After, AdmittedBytes;
  }
}

/** What the calls and passes do to the records, in plain terms. */
module CoordinatorCalls {
  import opened Text
  import opened Sequences
  import opened CoordinatorPlan
  import opened CoordinatorBoard
  import opened CoordinatorPins
  import opened CoordinatorState
  import opened CoordinatorCache
  import opened CoordinatorService
  import opened CoordinatorInvariants
  import opened CoordinatorBoardSteps
  import opened CoordinatorJobSteps
  import opened CoordinatorRuns
  import opened CoordinatorAdmission
  import opened CoordinatorScheduling
  import opened CoordinatorLinks

  // Jobs.

  /** A fresh job at the start of its first epoch. */
  predicate JustStarted(job: Job, datasetId: string, lookahead: int) {
    && job.datasetId == datasetId && job.lookahead == lookahead && job.epoch == 0 && job.next == 0 && job.status.Active?
    && job.compute == 0.0
  }

  /** Starting refuses a known job and an unknown data set; otherwise it adds just this job, listed last. */
  lemma StartMeans(c: Config, s: Sys, id: string, datasetId: string, lookahead: int, how: Scheduling)
    requires Inv(c, s)
    ensures var s' := StartJobStep(c, s, id, datasetId, lookahead, how);
            if id in s.jobs || datasetId !in s.datasets then s' == s
            else
              && id in s'.jobs && JustStarted(s'.jobs[id], datasetId, lookahead) && s'.order == s.order + [id]
              && s'.jobs.Keys == s.jobs.Keys + {id} && (forall j :: j in s.jobs ==> s'.jobs[j] == s.jobs[j])
              && s'.pins == s.pins && s'.board.handles == s.board.handles && s'.redis == s.redis
  {
    hide Inv, ScheduleJobStep, PlanFor;
    if id !in s.jobs && datasetId in s.datasets {
      var s1 := AddJob(c, s, id, datasetId, lookahead);
      AddJobKeeps(c, s, id, datasetId, lookahead);
      SchedulingKeepsRest(c, s1, id, how);
    }
  }

  /** A scheduling pass changes tasks, their index and entries only. */
  lemma SchedulingKeepsRest(c: Config, s: Sys, j: string, how: Scheduling)
    requires Inv(c, s)
    ensures var s' := ScheduleJobStep(c, s, j, how);
            && s'.jobs == s.jobs && s'.order == s.order && s'.pins == s.pins && s'.board.handles == s.board.handles
            && s'.redis == s.redis && s'.workers == s.workers && s'.datasets == s.datasets && s'.est == s.est
  {
    hide Inv, JobInv, ScheduleAll, Upcoming, TargetDepth, Replenished;
    InvHasJobs(c, s);
    if j in s.jobs {
      RefreshIsIdle(c, s, j);
      if IsActive(s, j) {
        TasksOnly(c, s, j, First(TargetDepth(c, s.est, s.jobs[j]), Upcoming(s.jobs[j])), how);
      }
    }
  }

  lemma {:induction false} TasksOnly(c: Config, s: Sys, j: string, batches: seq<Batch>, how: Scheduling)
    ensures var s' := ScheduleAll(c, s, j, batches, how);
            s' == s.(board := s'.board, nextTask := s'.nextTask) && s'.board.handles == s.board.handles
  {
    hide ReadyOrInFlight, AddTask;
    if batches != [] {
      var n := |batches| - 1;
      TasksOnly(c, s, j, batches[..n], how);
      OneTaskOnly(ScheduleAll(c, s, j, batches[..n], how), batches[n], j, how.priority(batches[n].id),
                  if c.reuse then how.storage(batches[n].id) else Transient, how.now);
    }
  }

  lemma OneTaskOnly(s: Sys, batch: Batch, jobId: string, priority: real, storage: StorageClass, now: int)
    ensures var s' := AddTask(s, batch, jobId, priority, storage, now);
            s' == s.(board := s'.board, nextTask := s'.nextTask) && s'.board.handles == s.board.handles
  {
  }

  /**
   * An active job has in view the next batches of its epoch: as many as its lookahead asks for, or the
   * default if it is zero, at least one, and no more than the epoch still has.
   */
  lemma WindowMeans(c: Config, s: Sys, j: string, i: nat)
    requires JobInv(c, s) && IsActive(s, j)
    ensures Usable(s, s.jobs[j].datasetId) && s.jobs[j].next <= PerEpoch(s, s.jobs[j].datasetId)
    ensures var job := s.jobs[j];
            var window := Upcoming(job);
            && |window| == Min(Max(1, if job.lookahead != 0 then job.lookahead else c.defaultLookahead), PerEpoch(s, job.datasetId) - job.next)
            && (i < |window| ==> BatchAt(c, s.datasets[job.datasetId], j, job.epoch, job.next + i) == Some(window[i]))
  {
    hide JobInv, Upcoming, EpochGroups, BatchId, BatchesPerEpoch;
    var job := s.jobs[j];
    UpcomingIsTheWindow(c, s, j);
    JobInRange(c, s, j);
    GroupsPerEpoch(c.shuffle, s.datasets[job.datasetId], job.epoch);
  }

  lemma JobInRange(c: Config, s: Sys, j: string)
    requires JobInv(c, s) && j in s.jobs
    ensures Usable(s, s.jobs[j].datasetId) && s.jobs[j].next <= PerEpoch(s, s.jobs[j].datasetId) && Permutes(c.shuffle)
  {
    hide WindowOf, IsCourse, BatchesPerEpoch;
    assert JobSound(c, s.datasets, j, s.jobs[j], JobLog(s.jobHistory, j));
    hide Permutes;
  }

  /** Asking for a batch records the reported computing time, if there is one, and touches what it hands out. */
  lemma AskingMeans(c: Config, s: Sys, j: string, feedback: Option<real>, now: int)
    requires Inv(c, s) && j in s.jobs
    ensures var s' := NextBatchStep(c, s, j, feedback, now);
            var reply := NextBatchReply(c, s, j, feedback);
            && j in s'.jobs && s'.jobs[j].compute == (if feedback.Some? then feedback.value else s.jobs[j].compute)
            && (reply.Ready? ==>
                  && reply.batch.id in s'.board.entries && reply.batch.id in s.board.entries
                  && s'.board.entries[reply.batch.id] == s.board.entries[reply.batch.id].(lastAccessed := now))
            && (forall k :: k in s.board.entries && !(reply.Ready? && k == reply.batch.id) ==>
                  k in s'.board.entries && s'.board.entries[k] == s.board.entries[k])
  {
    hide Inv, JobInv, FindBatch, PlanFor, Pin, NoteJob, PerEpoch;
    var s1 := WithFeedback(s, j, feedback);
    FeedbackKeeps(c, s, j, feedback);
    InvHasJobs(c, s1);
    PreparedIsIdle(c, s1, j);
    if NextPlanned(s1, j).Some? {
      ReadyIsEntered(c, s1, NextPlanned(s1, j).value.id);
    }
  }

  lemma ReadyIsEntered(c: Config, s: Sys, k: string)
    requires Inv(c, s)
    ensures IsReady(s.board, k) ==> k in s.board.entries
  {
    assert KeyCoherent(s.board, k);
  }

  /** An acknowledgement of a batch of an epoch that the job has reached releases just that pin. */
  lemma AcknowledgingMeans(c: Config, s: Sys, j: string, batchId: string, epoch: nat, j2: string)
    requires PinsAgree(s.pins)
    ensures var s' := AcknowledgeStep(s, j, batchId, epoch);
            && (j in s.jobs && epoch <= s.jobs[j].epoch ==> KeysOf(s'.pins, j) == KeysOf(s.pins, j) - {batchId})
            && (j !in s.jobs || epoch > s.jobs[j].epoch ==> s' == s)
            && (j2 != j ==> KeysOf(s'.pins, j2) == KeysOf(s.pins, j2))
  {
    hide PinsAgree, Unpin, NoteJob;
    UnpinAgrees(s.pins, batchId, j);
  }

  /** What the end of job j makes of a task. */
  predicate TaskAfterEnd(before: Task, after: Task, j: string, first: bool) {
    after == if first && before.jobId == j && before.status.Pending? then before.(status := Cancelled) else before
  }

  /**
   * A job ends once, with the status given then: it is no longer active, has no window and no pins, and
   * exactly its own waiting tasks are cancelled. Other jobs keep everything.
   */
  lemma FinishingMeans(c: Config, s: Sys, j: string, status: JobStatus, j2: string, t: nat)
    requires PinsAgree(s.pins) && j in s.jobs && !status.Active?
    ensures var s' := FinishJobStep(s, j, status);
            && j in s'.jobs && !s'.jobs[j].status.Active? && s'.jobs[j].planned == []
            && s'.jobs[j].status == (if s.jobs[j].status.Active? then status else s.jobs[j].status)
            && KeysOf(s'.pins, j) == {} && s'.jobs.Keys == s.jobs.Keys
            && (j2 != j ==> KeysOf(s'.pins, j2) == KeysOf(s.pins, j2) && (j2 in s.jobs ==> s'.jobs[j2] == s.jobs[j2]))
            && s'.board.tasks.Keys == s.board.tasks.Keys
            && (t in s.board.tasks ==> TaskAfterEnd(s.board.tasks[t], s'.board.tasks[t], j, s.jobs[j].status.Active?))
  {
    hide PinsAgree, Release, NoteJob;
    ReleaseAgrees(s.pins, j);
  }

  // Workers.

  /** A worker that registers has no task, also if it was known before. */
  lemma RegisteringMeans(s: Sys, w: string, w2: string)
    ensures var s' := RegisterWorkerStep(s, w);
            w in s'.workers && s'.workers[w] == {} && (w2 != w && w2 in s.workers ==> w2 in s'.workers && s'.workers[w2] == s.workers[w2])
  {
  }

  /**
   * A worker is given a waiting task of a job rather than an opportunistic one, among those one of the
   * highest priority, and among those the oldest.
   */
  lemma ChoiceMeans(b: Board, best: nat, t: nat)
    requires Chosen(b, Some(best))
    ensures best in b.tasks && b.tasks[best].status.Pending?
    ensures t in b.tasks && b.tasks[t].status.Pending? ==>
              && (b.tasks[best].jobId == "" ==> b.tasks[t].jobId == "")
              && ((b.tasks[best].jobId == "" <==> b.tasks[t].jobId == "") ==>
                    b.tasks[t].priority <= b.tasks[best].priority && (b.tasks[t].priority == b.tasks[best].priority ==> best <= t))
  {
    if t in b.tasks && IsPending(b, t) && t != best {
      assert Behind(b.tasks[t], t, b.tasks[best], best);
    }
  }

  /** The chosen task runs on the polling worker, which is charged with it; nothing else changes hands. */
  lemma PollingMeans(c: Config, s: Sys, w: string, t: nat, u: nat, w2: string)
    requires Inv(c, s) && w in s.workers && Chosen(s.board, Some(t))
    ensures var s' := PollStep(s, w, Some(t));
            && t in s'.board.tasks && s'.board.tasks[t] == s.board.tasks[t].(status := Running, worker := w)
            && w in s'.workers && s'.workers[w] == s.workers[w] + {t}
            && (u in s.board.tasks && u != t ==> u in s'.board.tasks && s'.board.tasks[u] == s.board.tasks[u])
            && (w2 in s.workers && w2 != w ==> w2 in s'.workers && s'.workers[w2] == s.workers[w2])
  {
    hide Coherent, JobInv, PinInv, BudgetKept, PhasesTold, NoteKey, Chosen;
    ChosenIsPending(s.board, Some(t));
    AssignKeepsTasks(c, s, t, w);
  }

  /** A failed task is over, its batch can be asked for again, and its entry says so. */
  lemma FailingMeans(c: Config, s: Sys, t: nat)
    requires Inv(c, s) && IsRunning(s, t)
    ensures var s' := FailStep(s, t);
            var k := s.board.tasks[t].batch.id;
            && t in s'.board.tasks && s'.board.tasks[t].status.Failed? && !ReadyOrInFlight(s'.board, k)
            && k in s'.board.entries && s'.board.entries[k].status.EntryFailed?
  {
    hide JobInv, PinInv, TasksKnown, WorkersTruthful, RedisTruthful, BudgetKept, PhasesTold, NoteKey, Unassigned;
    FailKeeps(c, s, t);
    RunningIsIndexed(s.board, t);
    hide Coherent;
  }

  lemma RunningIsIndexed(b: Board, t: nat)
    requires Coherent(b) && t in b.tasks && b.tasks[t].status.Running?
    ensures var k := b.tasks[t].batch.id;
            k in b.index && b.index[k] == t && k in b.entries && k !in b.handles
  {
    assert TaskCoherent(b, t) && KeyCoherent(b, b.tasks[t].batch.id);
  }

  // Expiry.

  /** The entry has run out at that time, and nobody is fetching it. */
  predicate Removable(s: Sys, k: string, now: int) {
    k in s.board.entries && s.board.entries[k].expires.Some? && s.board.entries[k].expires.value <= now && !InUse(s.pins, k)
  }

  lemma ExpiryOfOne(s: Sys, k: string, now: int)
    ensures ExpireStep(s, k, now).board.entries == (if Removable(s, k, now) then s.board.entries - {k} else s.board.entries)
    ensures ExpireStep(s, k, now).pins == s.pins
    ensures Removable(s, k, now) ==> k !in ExpireStep(s, k, now).board.handles && k !in ExpireStep(s, k, now).board.index
  {
    hide NoteKey, InUse;
  }

  /** An expiry pass removes exactly the entries it visits that have run out and that nobody is fetching. */
  lemma {:induction false} ExpiryMeans(s: Sys, keys: seq<string>, now: int, k: string)
    ensures var s' := ExpireAll(s, keys, now);
            && s'.pins == s.pins
            && (k in s'.board.entries <==> k in s.board.entries && !(k in keys && Removable(s, k, now)))
            && (k in s'.board.entries ==> s'.board.entries[k] == s.board.entries[k])
  {
    hide ExpireStep, InUse;
    if keys != [] {
      var n := |keys| - 1;
      ExpiryMeans(s, keys[..n], now, k);
      ExpiryOfOne(ExpireAll(s, keys[..n], now), keys[n], now);
      assert keys == keys[..n] + [keys[n]];
    }
  }

  // Scheduling.

  /** Task t is new and as job j's pass orders it. */
  predicate OrderedBy(c: Config, s: Sys, s': Sys, j: string, batches: seq<Batch>, how: Scheduling, t: nat)
    requires t in s'.board.tasks
  {
    var task := s'.board.tasks[t];
    && s.nextTask <= t < s'.nextTask && task.jobId == j && task.status.Pending? && task.worker == ""
    && task.batch in batches && task.priority == how.priority(task.batch.id)
    && task.storage == (if c.reuse then how.storage(task.batch.id) else Transient)
    && !ReadyOrInFlight(s.board, task.batch.id)
  }

  ghost predicate OnlyOrders(c: Config, s: Sys, s': Sys, j: string, batches: seq<Batch>, how: Scheduling) {
    && s.nextTask <= s'.nextTask
    && (forall t :: t in s.board.tasks ==> t in s'.board.tasks && s'.board.tasks[t] == s.board.tasks[t])
    && (forall t :: t in s'.board.tasks && t !in s.board.tasks ==> OrderedBy(c, s, s', j, batches, how, t))
    && (forall k :: ReadyOrInFlight(s.board, k) ==> ReadyOrInFlight(s'.board, k))
  }

  lemma AddTaskShape(s: Sys, batch: Batch, jobId: string, priority: real, storage: StorageClass, now: int)
    ensures var s' := AddTask(s, batch, jobId, priority, storage, now);
            || s' == s
            || (s'.nextTask == s.nextTask + 1
                && s'.board.tasks == s.board.tasks[s.nextTask := Task(batch, jobId, priority, storage, TaskStatus.Pending, "")])
  {
  }

  lemma OneOrder(c: Config, s: Sys, s1: Sys, j: string, batches: seq<Batch>, batch: Batch, how: Scheduling)
    requires Inv(c, s1) && OnlyOrders(c, s, s1, j, batches, how) && s.nextTask !in s.board.tasks
    ensures OnlyOrders(c, s, ScheduleOne(c, s1, j, batch, how), j, batches + [batch], how)
  {
    hide Inv, ReadyOrInFlight, AddTask;
    FreshIdIsFree(c, s1);
    hide Coherent;
    var s' := ScheduleOne(c, s1, j, batch, how);
    var storage := if c.reuse then how.storage(batch.id) else Transient;
    forall k | ReadyOrInFlight(s.board, k)
      ensures ReadyOrInFlight(s'.board, k)
    {
      OrderKeepsCover(c, s1, j, batch, how, k);
    }
    AddTaskShape(s1, batch, j, how.priority(batch.id), storage, how.now);
    forall t | t in s'.board.tasks && t !in s.board.tasks
      ensures OrderedBy(c, s, s', j, batches + [batch], how, t)
    {
      if t in s1.board.tasks {
        assert OrderedBy(c, s, s1, j, batches, how, t);
      }
    }
  }

  lemma OrderKeepsCover(c: Config, s: Sys, j: string, batch: Batch, how: Scheduling, k: string)
    requires Inv(c, s) && ReadyOrInFlight(s.board, k)
    ensures ReadyOrInFlight(ScheduleOne(c, s, j, batch, how).board, k)
  {
    hide Inv, ReadyOrInFlight, AddTask;
    FreshIdIsFree(c, s);
    AddTaskCovers(c, s, batch, j, how.priority(batch.id), if c.reuse then how.storage(batch.id) else Transient, how.now, k);
  }

  lemma {:induction false} OrdersOf(c: Config, s: Sys, j: string, batches: seq<Batch>, how: Scheduling)
    requires Inv(c, s) && IsActive(s, j) && Registered(s, batches)
    ensures OnlyOrders(c, s, ScheduleAll(c, s, j, batches, how), j, batches, how)
  {
    hide Inv, ScheduleOne, OrderedBy;
    FreshIdIsFree(c, s);
    if batches != [] {
      var n := |batches| - 1;
      OrdersOf(c, s, j, batches[..n], how);
      ScheduleAllKeeps(c, s, j, batches[..n], how);
      OneOrder(c, s, ScheduleAll(c, s, j, batches[..n], how), j, batches[..n], batches[n], how);
      assert batches == batches[..n] + [batches[n]];
    }
  }

  /** A scheduling pass adds tasks of this job only, for uncovered batches within its depth, with the given rank and storage. */
  lemma SchedulingMeans(c: Config, s: Sys, j: string, how: Scheduling)
    requires Inv(c, s) && IsActive(s, j)
    ensures OnlyOrders(c, s, ScheduleJobStep(c, s, j, how), j, First(TargetDepth(c, s.est, s.jobs[j]), Upcoming(s.jobs[j])), how)
  {
    hide Inv, JobInv, ScheduleAll, Upcoming, TargetDepth, Replenished, OnlyOrders;
    InvHasJobs(c, s);
    RefreshIsIdle(c, s, j);
    WindowIsRegistered(c, s, j);
    OrdersOf(c, s, j, First(TargetDepth(c, s.est, s.jobs[j]), Upcoming(s.jobs[j])), how);
  }

  // The opportunistic pass.

  /** The estimate is rounded to the nearest whole number, and to the even one of two that are equally near. */
  lemma RoundingMeans(x: real)
    ensures var r := RoundHalfEven(x) as real;
            && -0.5 <= r - x <= 0.5
            && (r - x == 0.5 || r - x == -0.5 ==> RoundHalfEven(x) % 2 == 0)
  {
  }

  lemma {:induction false} FirstOfPass(c: Config, s: Sys, ranking: seq<Batch>, slots: nat, now: int)
    requires Inv(c, s) && Registered(s, ranking) && ranking != [] && slots > 0
    requires CanPrefetch(c, s, ranking[0]) && CanAdmit(c, s, ranking[0])
    ensures var s' := PrefetchAll(c, s, ranking, slots, now);
            && s.nextTask < s'.nextTask && s.nextTask in s'.board.tasks && s.nextTask !in s.board.tasks
            && s'.board.tasks[s.nextTask]
               == Task(ranking[0], "", Value(c, s, ranking[0].id, ranking[0].datasetId), Reusable, TaskStatus.Pending, "")
  {
    hide Inv, Value, CanAdmit, ReadyOrInFlight;
    FreshIdIsFree(c, s);
    hide Coherent;
    var n := |ranking| - 1;
    if n == 0 {
      assert ranking[..0] == [];
      assert PrefetchAll(c, s, ranking, slots, now) == PrefetchOne(c, s, ranking[0], now);
      UncoveredIsFree(c, s, ranking[0].id);
    } else {
      FirstOfPass(c, s, ranking[..n], slots, now);
      PrefetchAllKeeps(c, s, ranking[..n], slots, now);
      FreshIdIsFree(c, PrefetchAll(c, s, ranking[..n], slots, now));
    }
  }

  lemma UncoveredIsFree(c: Config, s: Sys, k: string)
    requires Inv(c, s) && !ReadyOrInFlight(s.board, k)
    ensures !(Indexed(s.board, k) && Live(StatusOf(s.board, k)))
  {
    assert KeyCoherent(s.board, k);
  }

  /**
   * When the opportunistic pass may act and there is a candidate, it orders the most valuable one, for
   * no job, to be kept for reuse.
   */
  lemma PrefetchOrdersTheBest(c: Config, s: Sys, ranking: seq<Batch>, now: int, other: Batch)
    requires Inv(c, s) && Ranking(c, s, ranking) && MayPrefetch(c, s) && PrefetchCandidate(c, s, other)
    ensures ranking != [] && PrefetchCandidate(c, s, ranking[0])
    ensures var s' := PrefetchStep(c, s, ranking, now);
            var worth := Value(c, s, ranking[0].id, ranking[0].datasetId);
            && s.nextTask !in s.board.tasks && s.nextTask in s'.board.tasks
            && s'.board.tasks[s.nextTask] == Task(ranking[0], "", worth, Reusable, TaskStatus.Pending, "")
            && worth > 0.0 && (exists i :: 0 <= i < |ranking| && ranking[i].id == other.id
                                           && Value(c, s, ranking[i].id, ranking[i].datasetId) <= worth)
  {
    hide Inv, JobInv, Value, CanAdmit, PrefetchAll, IdleWorkers, PendingTasks, MayPrefetch, ReadyOrInFlight, Ranking, Upcoming,
         TargetDepth, ExtendedDepth;
    InvHasJobs(c, s);
    BestOfRanking(c, s, ranking, other);
    RankingIsRegistered(c, s, ranking);
    MayPrefetchHasSlots(c, s);
    FirstOfPass(c, s, ranking, IdleWorkers(s) - |PendingTasks(s.board)|, now);
  }

  lemma BestOfRanking(c: Config, s: Sys, ranking: seq<Batch>, other: Batch)
    requires Ranking(c, s, ranking) && PrefetchCandidate(c, s, other)
    ensures ranking != [] && PrefetchCandidate(c, s, ranking[0])
    ensures exists i :: 0 <= i < |ranking| && ranking[i].id == other.id
                        && Value(c, s, ranking[i].id, ranking[i].datasetId) <= Value(c, s, ranking[0].id, ranking[0].datasetId)
  {
    hide Value, PrefetchCandidate;
    var i :| 0 <= i < |ranking| && ranking[i].id == other.id;
    assert i > 0 ==> MoreValuable(c, s, ranking[0], ranking[i]);
  }

  /**
   * A batch that may be prefetched lies beyond the target depth of some active job and within multiplier
   * times that depth, is neither ready nor in flight, and is worth something.
   */
  lemma CandidateMeans(c: Config, s: Sys, batch: Batch) returns (j: string, p: nat)
    requires PrefetchCandidate(c, s, batch)
    ensures c.reuse && c.opportunistic && !ReadyOrInFlight(s.board, batch.id) && Value(c, s, batch.id, batch.datasetId) > 0.0
    ensures IsActive(s, j)
    ensures var depth := TargetDepth(c, s.est, s.jobs[j]);
            depth <= p < Max(1, c.multiplier) * depth && p < |Upcoming(s.jobs[j])| && Upcoming(s.jobs[j])[p] == batch
  {
    hide Value, CanAdmit, ReadyOrInFlight, TargetDepth, Upcoming;
    j :| j in s.jobs && IsActive(s, j) && batch in Beyond(c, s.est, s.jobs[j]);
    var beyond := Beyond(c, s.est, s.jobs[j]);
    var i :| 0 <= i < |beyond| && beyond[i] == batch;
    p := TargetDepth(c, s.est, s.jobs[j]) + i;
  }

  /** The size that a batch of that data set is expected to have, in whole bytes. */
  function ExpectedSize(s: Sys, datasetId: string): int {
    if datasetId in s.est.size then RoundHalfEven(s.est.size[datasetId]) else 0
  }

  /** The bytes that unpinned payloads worth less than a batch take in the cache. */
  ghost function BytesWorthLess(c: Config, s: Sys, batch: Batch): nat {
    BytesIn(s.board.entries, set k | k in s.board.entries && Cached(s.board.entries[k]) && !InUse(s.pins, k)
                                     && PayloadValue(c, s, k) < Value(c, s, batch.id, batch.datasetId))
  }

  /**
   * A batch may be fetched early if the cache is unbounded, or has room left and the batch's size is not
   * known, or can make room for the expected size by giving up what is worth less.
   */
  lemma AdmissibleMeans(c: Config, s: Sys, batch: Batch)
    ensures var size := ExpectedSize(s, batch.datasetId);
            CanAdmit(c, s, batch) <==>
              || c.capacity <= 0
              || (size <= 0 && CacheBytes(s.board.entries) < c.capacity)
              || (0 < size <= c.capacity
                  && (CacheBytes(s.board.entries) + size <= c.capacity
                      || CacheBytes(s.board.entries) - BytesWorthLess(c, s, batch) + size <= c.capacity))
  {
    hide Value, PayloadValue, InUse, Cached, BytesIn;
    assert Candidates(c, s, Value(c, s, batch.id, batch.datasetId))
        == set k | k in s.board.entries && Cached(s.board.entries[k]) && !InUse(s.pins, k)
                   && PayloadValue(c, s, k) < Value(c, s, batch.id, batch.datasetId);
    assert RoundHalfEven(0.0) == 0;
    hide RoundHalfEven;
  }

  /** Whatever the pass adds is for a candidate. */
  lemma {:induction false} PassAddsCandidates(c: Config, s: Sys, ranking: seq<Batch>, slots: nat, now: int, t: nat)
    requires t !in s.board.tasks && t in PrefetchAll(c, s, ranking, slots, now).board.tasks
    ensures PrefetchAll(c, s, ranking, slots, now).board.tasks[t].batch in ranking
  {
    hide CanPrefetch, CanAdmit, Value, AddTask;
    if ranking != [] {
      var n := |ranking| - 1;
      var s1 := PrefetchAll(c, s, ranking[..n], slots, now);
      AddTaskShape(s1, ranking[n], "", Value(c, s1, ranking[n].id, ranking[n].datasetId), Reusable, now);
      if t in s1.board.tasks {
        PassAddsCandidates(c, s, ranking[..n], slots, now, t);
      }
    }
  }

  /** The opportunistic pass acts only with reuse, prefetching and Redis on and for active jobs, and only for candidates. */
  lemma PrefetchingMeans(c: Config, s: Sys, ranking: seq<Batch>, now: int, t: nat)
    requires Inv(c, s) && Ranking(c, s, ranking)
    ensures var s' := PrefetchStep(c, s, ranking, now);
            && (s' != s ==> c.reuse && c.opportunistic && c.redis && exists j :: IsActive(s, j))
            && (t in s'.board.tasks && t !in s.board.tasks ==> PrefetchCandidate(c, s, s'.board.tasks[t].batch))
  {
    hide Inv, PrefetchAll, IdleWorkers, PendingTasks, CoveredToTarget, PrefetchCandidate;
    if MayPrefetch(c, s) {
      MayPrefetchHasSlots(c, s);
      var slots := IdleWorkers(s) - |PendingTasks(s.board)|;
      if t in PrefetchAll(c, s, ranking, slots, now).board.tasks && t !in s.board.tasks {
        PassAddsCandidates(c, s, ranking, slots, now, t);
      }
    }
  }

  // Eviction.

  lemma EvictionClears(s: Sys, v: string, k: string)
    requires v in s.board.entries && !InUse(s.pins, v) && s.board.entries[v].fetchKey != ""
    ensures var s' := Evict(s, v);
            && v !in s'.board.entries && v !in s'.board.handles && s'.pins == s.pins
            && s'.redis == s.redis - {s.board.entries[v].fetchKey}
            && s'.board.entries.Keys <= s.board.entries.Keys && s'.board.handles.Keys <= s.board.handles.Keys
            && (k != v && k in s.board.entries ==> k in s'.board.entries && s'.board.entries[k] == s.board.entries[k])
            && (k != v && k in s.board.handles ==> k in s'.board.handles && s'.board.handles[k] == s.board.handles[k])
  {
    hide NoteKey, InUse;
  }

  lemma CachedKeyIsOwn(c: Config, s: Sys, k: string)
    requires BoardInv(c, s) && k in s.board.entries && Cached(s.board.entries[k])
    ensures s.board.entries[k].fetchKey == RedisKey(c, k) != ""
  {
    hide Coherent, TasksKnown, WorkersTruthful, BudgetKept, PhasesTold;
    assert EntryTruthful(c, s.redis, k, s.board.entries[k]);
  }

  /** Evicting payloads of the cache deletes their keys and what the store says of them, and nothing else. */
  lemma {:induction false} EvictionsClear(c: Config, s: Sys, victims: seq<string>, k: string)
    requires BoardInv(c, s) && AllCached(s, victims)
    requires forall i :: 0 <= i < |victims| ==> victims[i] in s.board.entries && !InUse(s.pins, victims[i])
    requires forall i, m :: 0 <= i < m < |victims| ==> victims[i] != victims[m]
    ensures var s' := EvictAll(s, victims);
            && s'.pins == s.pins
            && (k in victims ==> k !in s'.board.entries && k !in s'.board.handles && RedisKey(c, k) !in s'.redis)
            && (k !in victims ==> (RedisKey(c, k) in s'.redis <==> RedisKey(c, k) in s.redis))
            && (k !in victims && k in s.board.entries ==> k in s'.board.entries && s'.board.entries[k] == s.board.entries[k])
            && (k !in victims && k in s.board.handles ==> k in s'.board.handles && s'.board.handles[k] == s.board.handles[k])
  {
    hide BoardInv, Evict, InUse, Cached, RedisKey;
    if victims != [] {
      var n := |victims| - 1;
      var s1 := EvictAll(s, victims[..n]);
      EvictionsClear(c, s, victims[..n], k);
      EvictionsClear(c, s, victims[..n], victims[n]);
      EvictAllKeeps(c, s, victims[..n]);
      assert victims[n] !in victims[..n] && victims == victims[..n] + [victims[n]];
      CachedKeyIsOwn(c, s1, victims[n]);
      EvictionClears(s1, victims[n], k);
      if RedisKey(c, k) == RedisKey(c, victims[n]) {
        RedisKeyInjective(c, k, victims[n]);
      }
    }
  }

  /** Evictions make just enough room: with them the payload fits, and without the last one it would not. */
  lemma EvictsJustEnough(c: Config, s: Sys, incoming: real, size: int, victims: seq<string>)
    requires Chooses(c, s, incoming, size, Some(victims)) && c.capacity > 0
    ensures CacheBytes(EvictAll(s, victims).board.entries) + Max(0, size) <= c.capacity
    ensures victims != [] ==> CacheBytes(EvictAll(s, victims[..|victims| - 1]).board.entries) + Max(0, size) > c.capacity
  {
    hide Candidates, EvictAll, BytesIn, CachedKeys, InUse, Freed;
    if NeededBytes(c, s, size) > 0 {
      GreedyPrefixSuits(c, s, incoming, NeededBytes(c, s, size), victims);
      EvictAllFrees(s, victims);
      if victims != [] {
        EvictAllFrees(s, victims[..|victims| - 1]);
      }
    } else {
      EvictNothing(s);
    }
  }
}

/** The scheduling passes meet their targets and the opportunistic pass stays within spare capacity. */
module CoordinatorScheduling {
  import opened Text
  import opened Sequences
  import opened CoordinatorPlan
  import opened CoordinatorBoard
  import opened CoordinatorPins
  import opened CoordinatorState
  import opened CoordinatorCache
  import opened CoordinatorService
  import opened CoordinatorInvariants
  import opened CoordinatorBoardSteps
  import opened CoordinatorJobSteps
  import opened CoordinatorRuns

  // The per-job pass.

  lemma CreateCovers(b: Board, t: nat, task: Task, now: int, k: string)
    requires KeyCoherent(b, k) && KeyCoherent(b, task.batch.id) && t !in b.tasks
    ensures ReadyOrInFlight(b, k) ==> ReadyOrInFlight(CreateTask(b, t, task, now), k)
    ensures task.batch.id !in b.handles ==> ReadyOrInFlight(CreateTask(b, t, task, now), task.batch.id)
  {
  }

  /** Adding a task uncovers no batch and covers its own. */
  lemma AddTaskCovers(c: Config, s: Sys, batch: Batch, jobId: string, priority: real, storage: StorageClass, now: int, k: string)
    requires Coherent(s.board) && s.nextTask !in s.board.tasks
    ensures ReadyOrInFlight(s.board, k) ==> ReadyOrInFlight(AddTask(s, batch, jobId, priority, storage, now).board, k)
    ensures ReadyOrInFlight(AddTask(s, batch, jobId, priority, storage, now).board, batch.id)
  {
    hide Coherent, CreateTask;
    CoherentAt(s.board, batch.id);
    CoherentAt(s.board, k);
    CreateCovers(s.board, s.nextTask, Task(batch, jobId, priority, storage, TaskStatus.Pending, ""), now, k);
  }

  lemma CoherentAt(b: Board, k: string)
    requires Coherent(b)
    ensures KeyCoherent(b, k)
  {
  }

  predicate AllCovered(b: Board, batches: seq<Batch>) {
    forall i :: 0 <= i < |batches| ==> ReadyOrInFlight(b, batches[i].id)
  }

  lemma FreshIdIsFree(c: Config, s: Sys)
    requires Inv(c, s)
    ensures s.nextTask !in s.board.tasks && Coherent(s.board)
  {
    hide Coherent, JobInv, PinInv, WorkersTruthful, RedisTruthful, BudgetKept, PhasesTold;
  }

  lemma ScheduleOneCovers(c: Config, s: Sys, j: string, batches: seq<Batch>, batch: Batch, how: Scheduling)
    requires Inv(c, s) && AllCovered(s.board, batches)
    ensures AllCovered(ScheduleOne(c, s, j, batch, how).board, batches + [batch])
  {
    hide Inv, AddTask, ReadyOrInFlight, Coherent;
    FreshIdIsFree(c, s);
    var s' := ScheduleOne(c, s, j, batch, how);
    forall i | 0 <= i < |batches|
      ensures ReadyOrInFlight(s'.board, batches[i].id)
    {
      AddTaskCovers(c, s, batch, j, how.priority(batch.id), if c.reuse then how.storage(batch.id) else Transient, how.now, batches[i].id);
    }
    AddTaskCovers(c, s, batch, j, how.priority(batch.id), if c.reuse then how.storage(batch.id) else Transient, how.now, batch.id);
  }

  lemma {:induction false} ScheduleAllCovers(c: Config, s: Sys, j: string, batches: seq<Batch>, how: Scheduling)
    requires Inv(c, s) && IsActive(s, j) && Registered(s, batches)
    ensures AllCovered(ScheduleAll(c, s, j, batches, how).board, batches)
  {
    hide Inv, ScheduleOne, IsActive, ReadyOrInFlight;
    if batches != [] {
      var n := |batches| - 1;
      ScheduleAllCovers(c, s, j, batches[..n], how);
      ScheduleAllKeeps(c, s, j, batches[..n], how);
      ScheduleOneCovers(c, ScheduleAll(c, s, j, batches[..n], how), j, batches[..n], batches[n], how);
      assert batches == batches[..n] + [batches[n]];
    }
  }

  lemma {:induction false} CoveredCountIsFull(b: Board, batches: seq<Batch>)
    ensures CoveredCount(b, batches) == |batches| <==> AllCovered(b, batches)
  {
    hide ReadyOrInFlight;
    if batches != [] {
      CoveredCountIsFull(b, batches[..|batches| - 1]);
    }
  }

  /**
   * After a scheduling pass every one of the job's next batches up to its target depth is ready or
   * in flight: as many as the depth asks for, or all that its window has.
   */
  lemma SchedulingMeetsTheTarget(c: Config, s: Sys, j: string, how: Scheduling)
    requires Inv(c, s) && IsActive(s, j)
    ensures var s' := ScheduleJobStep(c, s, j, how);
            var depth := TargetDepth(c, s.est, s.jobs[j]);
            && s'.jobs == s.jobs && s'.est == s.est
            && AllCovered(s'.board, First(depth, Upcoming(s.jobs[j])))
            && CoveredWithin(s', s.jobs[j], depth) == Min(depth, |Upcoming(s.jobs[j])|)
  {
    hide Inv, JobInv, ScheduleAll, Upcoming, TargetDepth, Replenished, AllCovered, CoveredCount;
    InvHasJobs(c, s);
    RefreshIsIdle(c, s, j);
    WindowIsRegistered(c, s, j);
    var next := First(TargetDepth(c, s.est, s.jobs[j]), Upcoming(s.jobs[j]));
    ScheduleAllKeeps(c, s, j, next, how);
    ScheduleAllCovers(c, s, j, next, how);
    CoveredCountIsFull(ScheduleAll(c, s, j, next, how).board, next);
  }

  // The opportunistic pass.

  lemma AddTaskAddsOne(c: Config, s: Sys, batch: Batch, jobId: string, priority: real, storage: StorageClass, now: int)
    requires s.nextTask !in s.board.tasks
    ensures var s' := AddTask(s, batch, jobId, priority, storage, now);
            && s.nextTask <= s'.nextTask <= s.nextTask + 1 && s'.workers == s.workers
            && |PendingTasks(s'.board)| == |PendingTasks(s.board)| + s'.nextTask - s.nextTask
  {
    var s' := AddTask(s, batch, jobId, priority, storage, now);
    if s'.nextTask > s.nextTask {
      assert PendingTasks(s'.board) == PendingTasks(s.board) + {s.nextTask};
    }
  }

  /** s' is s with some tasks added: waiting, owned by no job, for batches that nobody had in hand. */
  ghost predicate OnlyPrefetches(s: Sys, s': Sys) {
    && (forall t :: t in s.board.tasks ==> t in s'.board.tasks && s'.board.tasks[t] == s.board.tasks[t])
    && (forall t :: t in s'.board.tasks && t !in s.board.tasks ==> Prefetch(s, s', t))
    && s'.nextTask >= s.nextTask
  }

  predicate Prefetch(s: Sys, s': Sys, t: nat)
    requires t in s'.board.tasks
  {
    var task := s'.board.tasks[t];
    && s.nextTask <= t < s'.nextTask && task.status.Pending? && task.jobId == "" && task.storage.Reusable?
    && !ReadyOrInFlight(s.board, task.batch.id)
  }

  lemma PrefetchOneAddsOne(c: Config, s: Sys, s1: Sys, batch: Batch, now: int)
    requires Inv(c, s1) && OnlyPrefetches(s, s1) && Coherent(s.board) && s.nextTask !in s.board.tasks
    requires forall k :: ReadyOrInFlight(s.board, k) ==> ReadyOrInFlight(s1.board, k)
    ensures var s' := PrefetchOne(c, s1, batch, now);
            && OnlyPrefetches(s, s') && s1.nextTask <= s'.nextTask <= s1.nextTask + 1 && s'.workers == s1.workers
            && |PendingTasks(s'.board)| == |PendingTasks(s1.board)| + s'.nextTask - s1.nextTask
            && (forall k :: ReadyOrInFlight(s.board, k) ==> ReadyOrInFlight(s'.board, k))
  {
    hide Inv, Value, CanAdmit, Coherent, ReadyOrInFlight, PendingTasks;
    FreshIdIsFree(c, s1);
    AddTaskAddsOne(c, s1, batch, "", Value(c, s1, batch.id, batch.datasetId), Reusable, now);
    forall k | ReadyOrInFlight(s.board, k)
      ensures ReadyOrInFlight(PrefetchOne(c, s1, batch, now).board, k)
    {
      AddTaskCovers(c, s1, batch, "", Value(c, s1, batch.id, batch.datasetId), Reusable, now, k);
    }
  }

  lemma {:induction false} PrefetchAllAdds(c: Config, s: Sys, ranking: seq<Batch>, slots: nat, now: int)
    requires Inv(c, s) && Registered(s, ranking)
    ensures var s' := PrefetchAll(c, s, ranking, slots, now);
            && OnlyPrefetches(s, s') && s'.nextTask <= s.nextTask + slots && s'.workers == s.workers
            && |PendingTasks(s'.board)| == |PendingTasks(s.board)| + s'.nextTask - s.nextTask
            && (forall k :: ReadyOrInFlight(s.board, k) ==> ReadyOrInFlight(s'.board, k))
  {
    hide Inv, PrefetchOne, PendingTasks, ReadyOrInFlight, Coherent, Prefetch;
    FreshIdIsFree(c, s);
    if ranking != [] {
      var n := |ranking| - 1;
      PrefetchAllAdds(c, s, ranking[..n], slots, now);
      PrefetchAllKeeps(c, s, ranking[..n], slots, now);
      PrefetchOneAddsOne(c, s, PrefetchAll(c, s, ranking[..n], slots, now), ranking[n], now);
    }
  }

  lemma MayPrefetchMeansCovered(c: Config, s: Sys, j: string)
    requires MayPrefetch(c, s) && IsActive(s, j)
    ensures var depth := TargetDepth(c, s.est, s.jobs[j]);
            AllCovered(s.board, First(depth, Upcoming(s.jobs[j]))) && |Upcoming(s.jobs[j])| >= depth
  {
    hide IdleWorkers, TargetDepth, Upcoming, CoveredCount, AllCovered;
    assert CoveredToTarget(c, s, j);
    CoveredCountIsFull(s.board, First(TargetDepth(c, s.est, s.jobs[j]), Upcoming(s.jobs[j])));
  }

  lemma CountsSpelledOut(s: Sys)
    ensures |PendingTasks(s.board)| == |set t | t in s.board.tasks && s.board.tasks[t].status.Pending?|
    ensures IdleWorkers(s) == |set w | w in s.workers && s.workers[w] == {}|
  {
    assert PendingTasks(s.board) == set t | t in s.board.tasks && s.board.tasks[t].status.Pending?;
    assert IdleWorkers(s) == |set w | w in s.workers && s.workers[w] == {}|;
  }

  /**
   * The opportunistic pass does anything only when every active job already has its whole target
   * depth ready or in flight; then it only adds tasks of its own, and afterwards no more tasks wait
   * than there are idle workers.
   */
  lemma PrefetchUsesOnlySpareCapacity(c: Config, s: Sys, ranking: seq<Batch>, now: int)
    requires Inv(c, s) && Ranking(c, s, ranking)
    ensures var s' := PrefetchStep(c, s, ranking, now);
            && OnlyPrefetches(s, s')
            && (s' != s ==>
                  && |set t | t in s'.board.tasks && s'.board.tasks[t].status.Pending?| <= |set w | w in s'.workers && s'.workers[w] == {}|
                  && forall j :: IsActive(s, j) ==>
                       AllCovered(s.board, First(TargetDepth(c, s.est, s.jobs[j]), Upcoming(s.jobs[j])))
                       && |Upcoming(s.jobs[j])| >= TargetDepth(c, s.est, s.jobs[j]))
  {
    hide Inv, JobInv, MayPrefetch, Ranking, PrefetchAll, PendingTasks, CountWhere, TargetDepth, Upcoming, AllCovered, Prefetch;
    InvHasJobs(c, s);
    CountsSpelledOut(PrefetchStep(c, s, ranking, now));
    if MayPrefetch(c, s) {
      MayPrefetchHasSlots(c, s);
      RankingIsRegistered(c, s, ranking);
      PrefetchAllAdds(c, s, ranking, IdleWorkers(s) - |PendingTasks(s.board)|, now);
      forall j | IsActive(s, j)
        ensures AllCovered(s.board, First(TargetDepth(c, s.est, s.jobs[j]), Upcoming(s.jobs[j])))
        ensures |Upcoming(s.jobs[j])| >= TargetDepth(c, s.est, s.jobs[j])
      {
        MayPrefetchMeansCovered(c, s, j);
      }
    }
  }
}

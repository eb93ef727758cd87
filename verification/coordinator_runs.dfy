/** The invariant over whole runs of the coordinator, and what it promises trainers and operators. */
module CoordinatorRuns {
  import opened Text
  import opened Sequences
  import opened CoordinatorPlan
  import opened CoordinatorBoard
  import opened CoordinatorPins
  import opened CoordinatorState
  import opened CoordinatorCache
  import opened CoordinatorService
  import opened CoordinatorInvariants
  import opened CoordinatorBoardSteps
  import opened CoordinatorJobSteps

  // Steps that leave jobs and pins alone.

  /** Only tasks, entries, workers and what goes with them changed, and no handle did. */
  predicate BoardOnly(s: Sys, s': Sys) {
    && s'.datasets == s.datasets && s'.jobs == s.jobs && s'.order == s.order && s'.est == s.est && s'.pins == s.pins
    && s'.jobHistory == s.jobHistory && s'.board.handles == s.board.handles
  }

  lemma BoardOnlyKeeps(c: Config, s: Sys, s': Sys)
    requires Inv(c, s) && BoardInv(c, s') && BoardOnly(s, s')
    ensures Inv(c, s')
  {
    hide BoardInv, JobsSound, ListsAll, DatasetsSound, Permutes, EstimatesPositive, PinsAgree, PinnedStored, PinsTold;
  }

  lemma AddTaskKeepsInv(c: Config, s: Sys, batch: Batch, jobId: string, priority: real, storage: StorageClass, now: int)
    requires Inv(c, s) && batch.datasetId in s.datasets && (jobId == "" || IsActive(s, jobId))
    ensures var s' := AddTask(s, batch, jobId, priority, storage, now);
            Inv(c, s') && BoardOnly(s, s')
  {
    hide BoardInv, JobInv, PinInv, CreateTask;
    AddTaskKeeps(c, s, batch, jobId, priority, storage, now);
    BoardOnlyKeeps(c, s, AddTask(s, batch, jobId, priority, storage, now));
  }

  predicate Registered(s: Sys, batches: seq<Batch>) {
    forall i :: 0 <= i < |batches| ==> batches[i].datasetId in s.datasets
  }

  lemma {:induction false} ScheduleAllKeeps(c: Config, s: Sys, j: string, batches: seq<Batch>, how: Scheduling)
    requires Inv(c, s) && IsActive(s, j) && Registered(s, batches)
    ensures Inv(c, ScheduleAll(c, s, j, batches, how)) && BoardOnly(s, ScheduleAll(c, s, j, batches, how))
  {
    hide Inv, AddTask, ReadyOrInFlight;
    if batches != [] {
      var n := |batches| - 1;
      ScheduleAllKeeps(c, s, j, batches[..n], how);
      var s1 := ScheduleAll(c, s, j, batches[..n], how);
      AddTaskKeepsInv(c, s1, batches[n], j, how.priority(batches[n].id), if c.reuse then how.storage(batches[n].id) else Transient, how.now);
    }
  }

  lemma WindowIsRegistered(c: Config, s: Sys, j: string)
    requires JobInv(c, s) && IsActive(s, j)
    ensures Registered(s, Upcoming(s.jobs[j])) && forall n :: Registered(s, First(n, Upcoming(s.jobs[j])))
  {
    UpcomingIsTheWindow(c, s, j);
    WindowFields(c, s.datasets[s.jobs[j].datasetId], j, s.jobs[j]);
    hide WindowOf, Upcoming, JobsSound, Permutes;
  }

  lemma ScheduleJobKeeps(c: Config, s: Sys, j: string, how: Scheduling)
    requires Inv(c, s)
    ensures Inv(c, ScheduleJobStep(c, s, j, how))
  {
    if j in s.jobs {
      RefreshIsIdle(c, s, j);
      hide Inv, Replenished, ScheduleAll, TargetDepth;
      if IsActive(s, j) {
        WindowIsRegistered(c, s, j);
        ScheduleAllKeeps(c, s, j, First(TargetDepth(c, s.est, s.jobs[j]), Upcoming(s.jobs[j])), how);
      }
    }
  }

  lemma StartJobKeeps(c: Config, s: Sys, id: string, datasetId: string, lookahead: int, how: Scheduling)
    requires Inv(c, s)
    ensures Inv(c, StartJobStep(c, s, id, datasetId, lookahead, how))
  {
    hide Inv, AddJob, ScheduleJobStep;
    if id !in s.jobs && datasetId in s.datasets {
      AddJobKeeps(c, s, id, datasetId, lookahead);
      ScheduleJobKeeps(c, AddJob(c, s, id, datasetId, lookahead), id, how);
    }
  }

  lemma {:induction false} PrefetchAllKeeps(c: Config, s: Sys, ranking: seq<Batch>, slots: nat, now: int)
    requires Inv(c, s) && Registered(s, ranking)
    ensures Inv(c, PrefetchAll(c, s, ranking, slots, now)) && BoardOnly(s, PrefetchAll(c, s, ranking, slots, now))
  {
    hide Inv, AddTask, CanPrefetch, CanAdmit, Value;
    if ranking != [] {
      var n := |ranking| - 1;
      PrefetchAllKeeps(c, s, ranking[..n], slots, now);
      var s1 := PrefetchAll(c, s, ranking[..n], slots, now);
      AddTaskKeepsInv(c, s1, ranking[n], "", Value(c, s1, ranking[n].id, ranking[n].datasetId), Reusable, now);
    }
  }

  lemma RankingIsRegistered(c: Config, s: Sys, ranking: seq<Batch>)
    requires JobInv(c, s) && Ranking(c, s, ranking)
    ensures Registered(s, ranking)
  {
    forall i | 0 <= i < |ranking|
      ensures ranking[i].datasetId in s.datasets
    {
      assert PrefetchCandidate(c, s, ranking[i]);
      hide JobInv, Ranking, CanPrefetch, CanAdmit, Upcoming, ExtendedDepth, TargetDepth;
      var j :| j in s.jobs && IsActive(s, j) && ranking[i] in Beyond(c, s.est, s.jobs[j]);
      WindowIsRegistered(c, s, j);
      assert ranking[i] in First(ExtendedDepth(c, s.est, s.jobs[j]), Upcoming(s.jobs[j]));
    }
  }

  lemma MayPrefetchHasSlots(c: Config, s: Sys)
    requires MayPrefetch(c, s)
    ensures IdleWorkers(s) - |PendingTasks(s.board)| > 0
  {
    hide IdleWorkers, CoveredToTarget;
  }

  lemma PrefetchKeeps(c: Config, s: Sys, ranking: seq<Batch>, now: int)
    requires Inv(c, s) && Ranking(c, s, ranking)
    ensures Inv(c, PrefetchStep(c, s, ranking, now))
  {
    hide BoardInv, JobInv, PinInv, PrefetchAll, Ranking, MayPrefetch;
    if MayPrefetch(c, s) {
      MayPrefetchHasSlots(c, s);
      RankingIsRegistered(c, s, ranking);
      PrefetchAllKeeps(c, s, ranking, IdleWorkers(s) - |PendingTasks(s.board)|, now);
    }
  }

  lemma RegisterWorkerKeeps(c: Config, s: Sys, w: string)
    requires Inv(c, s)
    ensures Inv(c, RegisterWorkerStep(s, w)) && BoardOnly(s, RegisterWorkerStep(s, w))
  {
    var s' := RegisterWorkerStep(s, w);
    assert WorkersTruthful(s'.workers, s.board.tasks);
    hide Coherent, TasksKnown, WorkersTruthful, RedisTruthful, BudgetKept, PhasesTold, JobInv, PinInv;
    assert BoardInv(c, s');
    BoardOnlyKeeps(c, s, s');
  }

  /** Polling, finding, putting and failing change no handle. */
  lemma WorkerCallsKeep(c: Config, s: Sys, a: Action)
    requires Inv(c, s) && Allowed(c, s, a) && (a.Poll? || a.WorkerFinds? || a.WorkerPuts? || a.FailTask?)
    ensures Inv(c, Apply(c, s, a)) && BoardOnly(s, Apply(c, s, a))
  {
    hide BoardInv, JobInv, PinInv, Chosen, Assign, Fail, NoteKey;
    match a {
      case Poll(w, choice) => PollKeeps(c, s, w, choice);
      case WorkerFinds(t) => FindingKeeps(c, s, t);
      case WorkerPuts(t) => PuttingKeeps(c, s, t);
      case FailTask(t) => FailKeeps(c, s, t);
    }
    assert BoardInv(c, Apply(c, s, a)) && BoardOnly(s, Apply(c, s, a));
    hide Apply;
    BoardOnlyKeeps(c, s, Apply(c, s, a));
  }

  lemma ExpireKeepsInv(c: Config, s: Sys, k: string, now: int)
    requires Inv(c, s)
    ensures Inv(c, ExpireStep(s, k, now))
  {
    ExpireKeeps(c, s, k, now);
    ExpireKeepsPins(s, k, now);
    hide BoardInv, PinInv, JobsSound, Permutes, Remove;
  }

  lemma RegisterDatasetKeeps(c: Config, s: Sys, d: Dataset)
    requires Inv(c, s) && d.id !in s.datasets && d.batchSize > 0
    ensures Inv(c, RegisterDatasetStep(s, d))
  {
    DatasetKeepsJobs(c, s, d);
    DatasetKeepsTasks(s, d);
    hide JobInv, Coherent, TasksKnown, WorkersTruthful, RedisTruthful, BudgetKept, PhasesTold, PinsAgree, PinnedStored, PinsTold;
  }

  lemma StepPreserves(c: Config, s: Sys, a: Action)
    requires Inv(c, s) && Allowed(c, s, a)
    ensures Inv(c, Apply(c, s, a))
  {
    if a.Poll? || a.WorkerFinds? || a.WorkerPuts? || a.FailTask? {
      WorkerCallsKeep(c, s, a);
    } else {
      match a
      case RegisterWorker(w) => RegisterWorkerKeeps(c, s, w);
      case RegisterDataset(d) => RegisterDatasetKeeps(c, s, d);
      case StartJob(id, datasetId, lookahead, how) => StartJobKeeps(c, s, id, datasetId, lookahead, how);
      case NextBatch(id, feedback, now) => NextBatchKeeps(c, s, id, feedback, now);
      case Acknowledge(id, batchId, epoch) => AcknowledgeKeeps(c, s, id, batchId, epoch);
      case FinishJob(id, status) => FinishKeeps(c, s, id, status);
      case CompleteTask(t, o, victims, now) =>
        if o.InRedis? { CompleteInRedisKeeps(c, s, t, o, victims, now); } else { CompleteInWorkerKeeps(c, s, t, o, victims, now); }
      case ExpireEntry(k, now) => ExpireKeepsInv(c, s, k, now);
      case ScheduleJob(id, how) => ScheduleJobKeeps(c, s, id, how);
      case PrefetchPass(ranking, now) => PrefetchKeeps(c, s, ranking, now);
      case _ =>
    }
    hide Inv, StartJobStep, NextBatchStep, AcknowledgeStep, FinishJobStep, CompleteStep, ExpireStep,
         ScheduleJobStep, PrefetchStep, RegisterWorkerStep;
  }

  lemma {:induction false} RunPreserves(c: Config, s: Sys, run: seq<Action>)
    requires Inv(c, s) && ValidRun(c, s, run)
    ensures Inv(c, After(c, s, run))
    decreases |run|
  {
    hide Inv, Apply;
    if run != [] {
      StepPreserves(c, s, run[0]);
      RunPreserves(c, Apply(c, s, run[0]), run[1..]);
    }
  }

  lemma RunFromStart(c: Config, run: seq<Action>)
    requires Permutes(c.shuffle) && ValidRun(c, Init(), run)
    ensures Inv(c, After(c, Init(), run))
  {
    InitInv(c);
    RunPreserves(c, Init(), run);
  }
}

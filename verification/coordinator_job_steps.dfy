/** Every call keeps what is known about jobs, their windows and progress, and about pins. */
module CoordinatorJobSteps {
  import opened Text
  import opened Sequences
  import opened CoordinatorPlan
  import opened CoordinatorBoard
  import opened CoordinatorPins
  import opened CoordinatorState
  import opened CoordinatorCache
  import opened CoordinatorService
  import opened CoordinatorInvariants
  import opened CoordinatorBoardSteps

  // One job's records change and the others' do not.

  lemma JobsSoundUpdate(c: Config, datasets: Datasets, jobs: Jobs, history: JobHistory, j: string, job: Job, log: seq<JobEvent>)
    requires JobsSound(c, datasets, jobs, history) && JobSound(c, datasets, j, job, log)
    ensures JobsSound(c, datasets, jobs[j := job], history[j := log])
    ensures log == JobLog(history, j) ==> JobsSound(c, datasets, jobs[j := job], history)
  {
    hide JobSound;
  }

  lemma PinsToldUpdate(p1: Pins, jobs1: Jobs, h1: JobHistory, p2: Pins, jobs2: Jobs, h2: JobHistory, j: string)
    requires PinsTold(p1, jobs1, h1) && PinTold(p2, jobs2, h2, j)
    requires forall j2 :: j2 != j ==> KeysOf(p2, j2) == KeysOf(p1, j2)
    requires forall j2 :: j2 != j ==> JobLog(h2, j2) == JobLog(h1, j2)
    requires forall j2 :: j2 != j ==> (ActiveIn(jobs2, j2) <==> ActiveIn(jobs1, j2))
    ensures PinsTold(p2, jobs2, h2)
  {
    forall j2: string
      ensures PinTold(p2, jobs2, h2, j2)
    {
      assert PinTold(p1, jobs1, h1, j2);
      hide KeysOf, JobLog, ActiveIn, Outstanding;
    }
  }

  // Windows and progress.

  predicate FromHere(d: Dataset, job: Job, batch: Batch) {
    batch.epoch == job.epoch && batch.index >= job.next && batch.datasetId == d.id
  }

  lemma WindowFields(c: Config, d: Dataset, j: string, job: Job)
    requires d.batchSize > 0
    ensures forall i :: 0 <= i < |WindowOf(c, d, j, job)| ==> FromHere(d, job, WindowOf(c, d, j, job)[i])
  {
    var window := WindowOf(c, d, j, job);
    forall i | 0 <= i < |window|
      ensures FromHere(d, job, window[i])
    {
      assert window[i] == MakeBatch(c.shuffle, d, job.epoch, job.next + i, OwnerIn(c, j));
    }
  }

  lemma WindowStart(c: Config, d: Dataset, j: string, job: Job)
    requires d.batchSize > 0
    ensures FindBatch(WindowOf(c, d, j, job), job.epoch, job.next) == BatchAt(c, d, j, job.epoch, job.next)
  {
    var window := WindowOf(c, d, j, job);
    if job.next < |EpochGroups(c.shuffle, d, job.epoch)| {
      assert window[0] == MakeBatch(c.shuffle, d, job.epoch, job.next, OwnerIn(c, j));
    } else {
      assert window == [];
    }
    hide EpochGroups, BatchId;
  }

  /** Everything in a window is still to come. */
  lemma {:induction false} AheadIsAll(planned: seq<Batch>, epoch: nat, next: nat)
    requires forall i :: 0 <= i < |planned| ==> planned[i].epoch == epoch && planned[i].index >= next
    ensures Ahead(planned, epoch, next) == planned
  {
    if planned != [] {
      AheadIsAll(planned[..|planned| - 1], epoch, next);
    }
  }

  /** An active job's upcoming batches are exactly its window: the next lookahead batches of its epoch. */
  lemma UpcomingIsTheWindow(c: Config, s: Sys, j: string)
    requires JobInv(c, s) && IsActive(s, j)
    ensures Usable(s, s.jobs[j].datasetId)
    ensures Upcoming(s.jobs[j]) == s.jobs[j].planned == WindowOf(c, s.datasets[s.jobs[j].datasetId], j, s.jobs[j])
  {
    var job := s.jobs[j];
    assert JobSound(c, s.datasets, j, job, JobLog(s.jobHistory, j));
    WindowFields(c, s.datasets[job.datasetId], j, job);
    hide WindowOf, IsCourse, Permutes;
    AheadIsAll(job.planned, job.epoch, job.next);
  }

  /** Where a job stands after its next batch has been issued. */
  lemma AdvancedPosition(s: Sys, job: Job, batch: Batch, perEpoch: nat)
    requires job.status.Active? && batch.epoch == job.epoch && batch.index == job.next < perEpoch == PerEpoch(s, job.datasetId)
    ensures var after := Advanced(s, job, batch);
            && after.datasetId == job.datasetId && after.status == job.status && InRange(after, perEpoch)
            && after.epoch * perEpoch + after.next == job.epoch * perEpoch + job.next + 1
  {
    assert (job.epoch + 1) * perEpoch == job.epoch * perEpoch + perEpoch;
    hide PerEpoch;
  }

  lemma CourseGrows(c: Config, d: Dataset, j: string, batches: seq<Batch>, epoch: nat, index: nat, batch: Batch)
    requires d.batchSize > 0 && index < BatchesPerEpoch(d)
    requires IsCourse(c, d, j, batches, epoch * BatchesPerEpoch(d) + index)
    requires BatchAt(c, d, j, epoch, index) == Some(batch)
    ensures IsCourse(c, d, j, batches + [batch], epoch * BatchesPerEpoch(d) + index + 1)
  {
    DivModUnique(BatchesPerEpoch(d), epoch, index);
    hide BatchesPerEpoch, BatchAt;
  }

  /** The next planned batch is the next one of the job's course, and there is one unless the data set is empty. */
  lemma NextPlannedIsNext(c: Config, s: Sys, j: string)
    requires JobInv(c, s) && IsActive(s, j)
    ensures Usable(s, s.jobs[j].datasetId)
    ensures NextPlanned(s, j) == BatchAt(c, s.datasets[s.jobs[j].datasetId], j, s.jobs[j].epoch, s.jobs[j].next)
    ensures NextPlanned(s, j).Some? <==> s.jobs[j].next < PerEpoch(s, s.jobs[j].datasetId)
    ensures NextPlanned(s, j).Some? <==> PerEpoch(s, s.jobs[j].datasetId) > 0
    ensures NextPlanned(s, j).Some? ==> NextPlanned(s, j).value.epoch == s.jobs[j].epoch
                                        && NextPlanned(s, j).value.index == s.jobs[j].next
  {
    var job := s.jobs[j];
    assert JobSound(c, s.datasets, j, job, JobLog(s.jobHistory, j));
    var d := s.datasets[job.datasetId];
    WindowStart(c, d, j, job);
    GroupsPerEpoch(c.shuffle, d, job.epoch);
    hide EpochGroups, BatchesPerEpoch, WindowOf, FindBatch, IsCourse, Permutes, BatchId;
  }

  /** Planning again an intact window changes nothing. */
  lemma RefreshIsIdle(c: Config, s: Sys, j: string)
    requires JobInv(c, s) && j in s.jobs
    ensures Refreshed(c, s, j) == s && Replenished(c, s, j) == s && WithJob(s, j, s.jobs[j]) == s
    ensures !IsActive(s, j) ==> s.jobs[j].planned == []
  {
    assert JobSound(c, s.datasets, j, s.jobs[j], JobLog(s.jobHistory, j));
    hide WindowOf, BatchesPerEpoch, IsCourse, Upcoming, Lookahead, Permutes;
  }

  lemma PreparedIsIdle(c: Config, s: Sys, j: string)
    requires JobInv(c, s) && j in s.jobs
    ensures Prepared(c, s, j) == s
  {
    RefreshIsIdle(c, s, j);
    hide JobInv, Refreshed;
  }

  // Jobs coming, learning and going.

  lemma DatasetKeepsJobs(c: Config, s: Sys, d: Dataset)
    requires JobInv(c, s) && d.id !in s.datasets && d.batchSize > 0
    ensures JobInv(c, RegisterDatasetStep(s, d))
  {
    hide JobSound, Permutes;
    var s' := RegisterDatasetStep(s, d);
    forall j | j in s.jobs
      ensures JobSound(c, s'.datasets, j, s.jobs[j], JobLog(s.jobHistory, j))
    {
      DatasetKeepsJob(c, s.datasets, d, j, s.jobs[j], JobLog(s.jobHistory, j));
    }
  }

  lemma DatasetKeepsJob(c: Config, datasets: Datasets, d: Dataset, j: string, job: Job, log: seq<JobEvent>)
    requires JobSound(c, datasets, j, job, log) && d.id !in datasets
    ensures JobSound(c, datasets[d.id := d], j, job, log)
  {
    hide WindowOf, BatchesPerEpoch, IsCourse, InRange;
  }

  lemma DatasetKeepsTasks(s: Sys, d: Dataset)
    requires TasksKnown(s.datasets, s.jobs, s.board.tasks, s.nextTask)
    ensures TasksKnown(RegisterDatasetStep(s, d).datasets, s.jobs, s.board.tasks, s.nextTask)
  {
  }

  lemma NewJobOnCourse(c: Config, s: Sys, id: string, job: Job)
    requires JobInv(c, s) && job.datasetId in s.datasets && job.epoch == job.next == 0
    ensures OnCourse(c, s.datasets, id, job, [])
  {
    hide BatchesPerEpoch, NthBatch, Permutes, JobsSound;
    assert IssuedBatches([]) == [];
  }

  lemma NewJobIsSound(c: Config, s: Sys, id: string, datasetId: string, lookahead: int)
    requires JobInv(c, s) && id !in s.jobs && datasetId in s.datasets
    ensures var s' := AddJob(c, s, id, datasetId, lookahead);
            && JobSound(c, s.datasets, id, s'.jobs[id], []) && s'.jobs[id].status.Active?
            && s' == s.(jobs := s.jobs[id := s'.jobs[id]], order := s.order + [id])
  {
    hide JobSound, OnCourse, JobInv, Refreshed;
    var newJob := Job(datasetId, lookahead, 0, 0, Active, 0.0, []);
    var s1 := s.(jobs := s.jobs[id := newJob], order := s.order + [id]);
    NewJobOnCourse(c, s, id, newJob);
    RefreshedJob(c, s1, id, []);
    assert s1.jobs[id := Refreshed(c, s1, id).jobs[id]] == s.jobs[id := Refreshed(c, s1, id).jobs[id]];
  }

  lemma AddJobKeepsJobs(c: Config, s: Sys, id: string, datasetId: string, lookahead: int)
    requires JobInv(c, s) && id !in s.jobs && datasetId in s.datasets
    ensures JobInv(c, AddJob(c, s, id, datasetId, lookahead))
  {
    NewJobIsSound(c, s, id, datasetId, lookahead);
    JobsSoundUpdate(c, s.datasets, s.jobs, s.jobHistory, id, AddJob(c, s, id, datasetId, lookahead).jobs[id], []);
    hide JobSound, JobsSound, AddJob, Permutes;
  }

  lemma AddJobKeepsPins(s: Sys, jobs: Jobs, id: string, job: Job)
    requires PinsTold(s.pins, s.jobs, s.jobHistory) && id !in s.jobs && jobs == s.jobs[id := job]
    ensures PinsTold(s.pins, jobs, s.jobHistory)
  {
    assert PinTold(s.pins, s.jobs, s.jobHistory, id);
    PinsToldUpdate(s.pins, s.jobs, s.jobHistory, s.pins, jobs, s.jobHistory, id);
  }

  lemma NewJobKeepsTasks(s: Sys, jobs: Jobs, id: string, job: Job)
    requires TasksKnown(s.datasets, s.jobs, s.board.tasks, s.nextTask) && id !in s.jobs && jobs == s.jobs[id := job]
    ensures TasksKnown(s.datasets, jobs, s.board.tasks, s.nextTask)
  {
  }

  lemma AddJobKeeps(c: Config, s: Sys, id: string, datasetId: string, lookahead: int)
    requires Inv(c, s) && id !in s.jobs && datasetId in s.datasets
    ensures Inv(c, AddJob(c, s, id, datasetId, lookahead)) && IsActive(AddJob(c, s, id, datasetId, lookahead), id)
  {
    var s' := AddJob(c, s, id, datasetId, lookahead);
    NewJobIsSound(c, s, id, datasetId, lookahead);
    AddJobKeepsJobs(c, s, id, datasetId, lookahead);
    AddJobKeepsPins(s, s'.jobs, id, s'.jobs[id]);
    NewJobKeepsTasks(s, s'.jobs, id, s'.jobs[id]);
    hide JobSound, JobInv, PinsTold, TasksKnown, AddJob, Coherent, WorkersTruthful, RedisTruthful, BudgetKept, PhasesTold, PinsAgree,
         PinnedStored;
  }

  lemma FeedbackKeepsJob(c: Config, s: Sys, j: string, compute: real)
    requires JobInv(c, s) && j in s.jobs
    ensures JobInv(c, WithJob(s, j, s.jobs[j].(compute := compute)))
  {
    var job := s.jobs[j].(compute := compute);
    assert JobSound(c, s.datasets, j, s.jobs[j], JobLog(s.jobHistory, j));
    assert JobSound(c, s.datasets, j, job, JobLog(s.jobHistory, j)) by {
      hide BatchesPerEpoch, IsCourse, Permutes, Window;
    }
    JobsSoundUpdate(c, s.datasets, s.jobs, s.jobHistory, j, job, JobLog(s.jobHistory, j));
    hide JobSound, JobsSound, Permutes;
  }

  lemma SameStatusKeepsPins(s: Sys, j: string, job: Job)
    requires PinsTold(s.pins, s.jobs, s.jobHistory) && j in s.jobs && job.status == s.jobs[j].status
    ensures PinsTold(s.pins, s.jobs[j := job], s.jobHistory)
  {
    assert PinTold(s.pins, s.jobs, s.jobHistory, j);
    PinsToldUpdate(s.pins, s.jobs, s.jobHistory, s.pins, s.jobs[j := job], s.jobHistory, j);
  }

  lemma FeedbackKeeps(c: Config, s: Sys, j: string, feedback: Option<real>)
    requires Inv(c, s) && j in s.jobs
    ensures Inv(c, WithFeedback(s, j, feedback)) && j in WithFeedback(s, j, feedback).jobs
  {
    if feedback.Some? {
      var job := s.jobs[j].(compute := feedback.value);
      JobUpdateKeepsTasks(s, j, job);
      FeedbackKeepsJob(c, s, j, feedback.value);
      SameStatusKeepsPins(s, j, job);
      hide JobInv, PinsTold, TasksKnown, Coherent, WorkersTruthful, RedisTruthful, BudgetKept, PhasesTold, PinsAgree, PinnedStored;
    }
  }

  // Serving a batch.

  /** What JobSound still asks for once the job has been planned again. */
  ghost predicate OnCourse(c: Config, datasets: Datasets, j: string, job: Job, log: seq<JobEvent>) {
    && job.datasetId in datasets && datasets[job.datasetId].batchSize > 0
    && InRange(job, BatchesPerEpoch(datasets[job.datasetId]))
    && IsCourse(c, datasets[job.datasetId], j, IssuedBatches(log),
                job.epoch * BatchesPerEpoch(datasets[job.datasetId]) + job.next)
  }

  lemma RefreshedJob(c: Config, s: Sys, j: string, log: seq<JobEvent>)
    requires j in s.jobs && OnCourse(c, s.datasets, j, s.jobs[j], log)
    ensures JobSound(c, s.datasets, j, Refreshed(c, s, j).jobs[j], log)
    ensures Refreshed(c, s, j) == WithJob(s, j, Refreshed(c, s, j).jobs[j]) && Refreshed(c, s, j).jobs[j].status == s.jobs[j].status
  {
    hide Window, IsCourse, BatchesPerEpoch;
  }

  lemma ServedCourse(c: Config, s: Sys, j: string, batch: Batch)
    requires JobInv(c, s) && IsActive(s, j) && NextPlanned(s, j) == Some(batch)
    ensures Advanced(s, s.jobs[j], batch).status.Active?
    ensures OnCourse(c, s.datasets, j, Advanced(s, s.jobs[j], batch), JobLog(s.jobHistory, j) + [Issued(batch)])
  {
    var job := s.jobs[j];
    var log := JobLog(s.jobHistory, j);
    assert JobSound(c, s.datasets, j, job, log);
    var d := s.datasets[job.datasetId];
    NextPlannedIsNext(c, s, j);
    AdvancedPosition(s, job, batch, BatchesPerEpoch(d));
    HistoryGrows(log, Issued(batch));
    CourseGrows(c, d, j, IssuedBatches(log), job.epoch, job.next, batch);
    hide WindowOf, IsCourse, Advanced, FindBatch, IssuedBatches, Permutes, BatchAt, JobsSound, BatchesPerEpoch, InRange, NextPlanned;
  }

  lemma ServedShape(c: Config, s: Sys, j: string, batch: Batch, now: int)
    requires j in s.jobs
    ensures var s' := Served(c, s, j, batch, now);
            && s'.jobs == s.jobs[j := s'.jobs[j]] && s'.jobHistory == NoteJob(s.jobHistory, j, Issued(batch))
            && s'.datasets == s.datasets && s'.order == s.order && s'.est == s.est && s'.board == Touch(s.board, batch.id, now)
  {
    hide Pin, Touch, Advanced, PlanFor, NoteJob;
  }

  lemma ServedJobIsSound(c: Config, s: Sys, j: string, batch: Batch, now: int)
    requires JobInv(c, s) && IsActive(s, j) && NextPlanned(s, j) == Some(batch)
    ensures Served(c, s, j, batch, now).jobs[j].status.Active?
    ensures JobSound(c, s.datasets, j, Served(c, s, j, batch, now).jobs[j], JobLog(s.jobHistory, j) + [Issued(batch)])
  {
    hide JobInv, NextPlanned, OnCourse, JobSound, PlanFor, Pin, Touch, NoteJob, Advanced;
    ServedCourse(c, s, j, batch);
    var pins := if batch.id in s.board.entries then Pin(s.pins, batch.id, j) else s.pins;
    RefreshedJob(c, s.(board := Touch(s.board, batch.id, now), pins := pins, jobs := s.jobs[j := Advanced(s, s.jobs[j], batch)],
                       jobHistory := NoteJob(s.jobHistory, j, Issued(batch))), j, JobLog(s.jobHistory, j) + [Issued(batch)]);
    hide Refreshed;
  }

  lemma ServedKeepsJobs(c: Config, s: Sys, j: string, batch: Batch, now: int)
    requires JobInv(c, s) && IsActive(s, j) && NextPlanned(s, j) == Some(batch)
    ensures JobInv(c, Served(c, s, j, batch, now))
  {
    var s' := Served(c, s, j, batch, now);
    ServedJobIsSound(c, s, j, batch, now);
    ServedShape(c, s, j, batch, now);
    JobsSoundUpdate(c, s.datasets, s.jobs, s.jobHistory, j, s'.jobs[j], JobLog(s.jobHistory, j) + [Issued(batch)]);
    hide JobsSound, JobSound, Served, Permutes, NextPlanned;
  }

  /** A READY batch always has an entry, so serving it always pins it. */
  lemma ServedKeepsPins(c: Config, s: Sys, j: string, batch: Batch, now: int)
    requires PinInv(s) && IsActive(s, j) && IsReady(s.board, batch.id) && batch.id in s.board.entries
    requires Advanced(s, s.jobs[j], batch).status.Active?
    ensures PinInv(Served(c, s, j, batch, now))
  {
    var s' := Served(c, s, j, batch, now);
    PinAgrees(s.pins, batch.id, j);
    HistoryGrows(JobLog(s.jobHistory, j), Issued(batch));
    assert PinTold(s.pins, s.jobs, s.jobHistory, j);
    assert s'.board.handles == s.board.handles;
    assert ActiveIn(s'.jobs, j) && forall j2 :: j2 != j ==> (ActiveIn(s'.jobs, j2) <==> ActiveIn(s.jobs, j2));
    assert JobLog(s'.jobHistory, j) == JobLog(s.jobHistory, j) + [Issued(batch)];
    hide Advanced, PlanFor, PinsAgree, Pin, Outstanding;
    PinsToldUpdate(s.pins, s.jobs, s.jobHistory, s'.pins, s'.jobs, s'.jobHistory, j);
    forall j2: string
      ensures KeysOf(s'.pins, j2) <= s'.board.handles.Keys
    {
      assert KeysOf(s.pins, j2) <= s.board.handles.Keys;
    }
    hide KeysOf, PinTold;
  }

  lemma ServedKeeps(c: Config, s: Sys, j: string, batch: Batch, now: int)
    requires Inv(c, s) && IsActive(s, j) && NextPlanned(s, j) == Some(batch) && IsReady(s.board, batch.id)
    ensures Inv(c, Served(c, s, j, batch, now))
  {
    var s' := Served(c, s, j, batch, now);
    assert KeyCoherent(s.board, batch.id) && TasksKnown(s.datasets, s.jobs, s.board.tasks, s.nextTask);
    hide BoardInv, JobInv, PinInv, PlanFor, Touch, Pin, TasksKnown, NextPlanned;
    ServedKeepsJobs(c, s, j, batch, now);
    ServedCourse(c, s, j, batch);
    ServedJobIsSound(c, s, j, batch, now);
    ServedKeepsPins(c, s, j, batch, now);
    hide Advanced, KeyCoherent;
    ServedShape(c, s, j, batch, now);
    JobUpdateKeepsTasks(s, j, s'.jobs[j]);
    TouchKeeps(c, s, s', batch.id, now);
  }

  lemma NextBatchKeeps(c: Config, s: Sys, j: string, feedback: Option<real>, now: int)
    requires Inv(c, s)
    ensures Inv(c, NextBatchStep(c, s, j, feedback, now))
  {
    if j in s.jobs {
      FeedbackKeeps(c, s, j, feedback);
      var s1 := WithFeedback(s, j, feedback);
      PreparedIsIdle(c, s1, j);
      if s1.jobs[j].status.Active? && NextPlanned(s1, j).Some? && IsReady(s1.board, NextPlanned(s1, j).value.id) {
        ServedKeeps(c, s1, j, NextPlanned(s1, j).value, now);
      }
      hide Inv, WithFeedback, Prepared, Served, NextPlanned, IsReady;
    }
  }

  // Acknowledging and finishing.

  /** An event that issues nothing leaves the job's course as it was. */
  lemma EventKeepsJob(c: Config, s: Sys, j: string, job: Job, e: JobEvent)
    requires JobsSound(c, s.datasets, s.jobs, s.jobHistory) && j in s.jobs && !e.Issued?
    requires job == s.jobs[j] || (!job.status.Active? && job == s.jobs[j].(status := job.status, planned := []))
    ensures JobsSound(c, s.datasets, s.jobs[j := job], NoteJob(s.jobHistory, j, e))
  {
    var log := JobLog(s.jobHistory, j);
    HistoryGrows(log, e);
    assert JobSound(c, s.datasets, j, s.jobs[j], log);
    assert JobSound(c, s.datasets, j, job, log + [e]) by {
      hide Window, IsCourse, BatchesPerEpoch;
    }
    JobsSoundUpdate(c, s.datasets, s.jobs, s.jobHistory, j, job, log + [e]);
    hide JobsSound, JobSound;
  }

  lemma AcknowledgeKeepsPins(s: Sys, j: string, batchId: string)
    requires PinInv(s) && j in s.jobs
    ensures PinInv(s.(pins := Unpin(s.pins, batchId, j), jobHistory := NoteJob(s.jobHistory, j, Acked(batchId))))
  {
    var p', h' := Unpin(s.pins, batchId, j), NoteJob(s.jobHistory, j, Acked(batchId));
    UnpinAgrees(s.pins, batchId, j);
    HistoryGrows(JobLog(s.jobHistory, j), Acked(batchId));
    assert PinTold(s.pins, s.jobs, s.jobHistory, j);
    assert JobLog(h', j) == JobLog(s.jobHistory, j) + [Acked(batchId)];
    hide PinsAgree, Unpin, Outstanding;
    PinsToldUpdate(s.pins, s.jobs, s.jobHistory, p', s.jobs, h', j);
    forall j2: string
      ensures KeysOf(p', j2) <= s.board.handles.Keys
    {
      assert KeysOf(s.pins, j2) <= s.board.handles.Keys;
    }
    hide KeysOf, PinTold;
  }

  lemma HistoryKeepsJobs(c: Config, s: Sys, s': Sys)
    requires JobInv(c, s) && s'.datasets == s.datasets && s'.jobs == s.jobs && s'.order == s.order && s'.est == s.est
    requires JobsSound(c, s'.datasets, s'.jobs, s'.jobHistory)
    ensures JobInv(c, s')
  {
    hide JobsSound, Permutes, ListsAll, DatasetsSound, EstimatesPositive;
  }

  lemma SameBoard(c: Config, s: Sys, s': Sys)
    requires BoardInv(c, s) && s'.board == s.board && s'.datasets == s.datasets && s'.jobs == s.jobs && s'.nextTask == s.nextTask
    requires s'.workers == s.workers && s'.redis == s.redis && s'.confirmed == s.confirmed && s'.keyHistory == s.keyHistory
    ensures BoardInv(c, s')
  {
    hide Coherent, TasksKnown, WorkersTruthful, RedisTruthful, BudgetKept, PhasesTold;
  }

  lemma JobsAreSound(c: Config, s: Sys)
    requires JobInv(c, s)
    ensures JobsSound(c, s.datasets, s.jobs, s.jobHistory)
  {
  }

  lemma AcknowledgeKeeps(c: Config, s: Sys, j: string, batchId: string, epoch: nat)
    requires Inv(c, s)
    ensures Inv(c, AcknowledgeStep(s, j, batchId, epoch))
  {
    hide JobInv, PinInv, BoardInv, Unpin, NoteJob, JobsSound;
    if j in s.jobs && epoch <= s.jobs[j].epoch {
      JobsAreSound(c, s);
      AcknowledgeKeepsPins(s, j, batchId);
      EventKeepsJob(c, s, j, s.jobs[j], Acked(batchId));
      assert s.jobs[j := s.jobs[j]] == s.jobs;
      HistoryKeepsJobs(c, s, AcknowledgeStep(s, j, batchId, epoch));
      SameBoard(c, s, AcknowledgeStep(s, j, batchId, epoch));
    }
  }

  lemma FinishKeepsPins(s: Sys, j: string, status: JobStatus)
    requires PinInv(s) && j in s.jobs && !status.Active?
    ensures PinInv(FinishJobStep(s, j, status))
  {
    var s' := FinishJobStep(s, j, status);
    ReleaseAgrees(s.pins, j);
    HistoryGrows(JobLog(s.jobHistory, j), Closed);
    assert PinTold(s.pins, s.jobs, s.jobHistory, j);
    assert JobLog(s'.jobHistory, j) == JobLog(s.jobHistory, j) + [Closed];
    hide PinsAgree, Release, Outstanding;
    PinsToldUpdate(s.pins, s.jobs, s.jobHistory, s'.pins, s'.jobs, s'.jobHistory, j);
    forall j2: string
      ensures KeysOf(s'.pins, j2) <= s'.board.handles.Keys
    {
      assert KeysOf(s.pins, j2) <= s.board.handles.Keys;
    }
    hide KeysOf, PinTold;
  }

  lemma FinishKeeps(c: Config, s: Sys, j: string, status: JobStatus)
    requires Inv(c, s) && !status.Active?
    ensures Inv(c, FinishJobStep(s, j, status))
  {
    if j in s.jobs {
      CancelKeeps(c, s, j, status);
      FinishKeepsPins(s, j, status);
      EventKeepsJob(c, s, j, FinishJobStep(s, j, status).jobs[j], Closed);
    }
    hide BoardInv, JobsSound, PinInv, Permutes;
  }

  // Removals respect pins.

  lemma UnusedIsUnpinned(pins: Pins, handles: map<string, Handle>, k: string)
    requires PinsAgree(pins) && PinnedStored(pins, handles) && !InUse(pins, k)
    ensures PinnedStored(pins, handles - {k})
  {
    InUseMeansPinned(pins, k);
    forall j: string
      ensures KeysOf(pins, j) <= (handles - {k}).Keys
    {
      assert KeysOf(pins, j) <= handles.Keys && k !in KeysOf(pins, j);
      hide PinsAgree, InUse;
    }
  }

  lemma EvictKeepsPins(s: Sys, k: string)
    requires PinInv(s)
    ensures PinInv(Evict(s, k))
  {
    if !InUse(s.pins, k) && k in s.board.entries {
      UnusedIsUnpinned(s.pins, s.board.handles, k);
    }
    hide PinsAgree, PinnedStored, PinsTold, InUse;
  }

  lemma ExpireKeepsPins(s: Sys, k: string, now: int)
    requires PinInv(s)
    ensures PinInv(ExpireStep(s, k, now))
  {
    if !InUse(s.pins, k) && k in s.board.entries {
      UnusedIsUnpinned(s.pins, s.board.handles, k);
    }
    hide PinsAgree, PinnedStored, PinsTold, InUse;
  }

  lemma {:induction false} EvictAllKeepsPins(s: Sys, victims: seq<string>)
    requires PinInv(s)
    ensures PinInv(EvictAll(s, victims))
  {
    if victims != [] {
      EvictAllKeepsPins(s, victims[..|victims| - 1]);
      EvictKeepsPins(EvictAll(s, victims[..|victims| - 1]), victims[|victims| - 1]);
      hide PinInv, Evict;
    }
  }

  // Completing a task.

  lemma LearnedKeeps(c: Config, s: Sys, datasetId: string, o: Outcome)
    requires Inv(c, s)
    ensures Inv(c, Learned(c, s, datasetId, o))
  {
    if o.seconds.Some? {
      AveragesStayPositive(s.est.prep, datasetId, o.seconds.value, c.alpha);
    }
    hide BoardInv, PinInv, Averaged, JobsSound, DatasetsSound;
  }

  /** The chosen victims are cached payloads. */
  lemma VictimsAreCached(c: Config, s: Sys, incoming: real, size: int, victims: Option<seq<string>>)
    requires Chooses(c, s, incoming, size, victims)
    ensures victims.Some? ==> AllCached(s, victims.value)
  {
    hide PayloadValue, InUse, Cached;
  }

  lemma EvictionsKeep(c: Config, s: Sys, incoming: real, size: int, victims: Option<seq<string>>)
    requires Inv(c, s) && Chooses(c, s, incoming, size, victims) && victims.Some?
    ensures Inv(c, EvictAll(s, victims.value)) && Reduced(s, EvictAll(s, victims.value))
  {
    VictimsAreCached(c, s, incoming, size, victims);
    EvictAllKeeps(c, s, victims.value);
    EvictAllKeepsPins(s, victims.value);
    hide BoardInv, PinInv, EvictAll;
  }

  /** Evictions spare a running task and its payload's records. */
  lemma RunningTaskStays(c: Config, s: Sys, s': Sys, t: nat)
    requires BoardInv(c, s) && BoardInv(c, s') && Reduced(s, s') && IsRunning(s, t) && t in s.confirmed
    ensures IsRunning(s', t)
  {
    hide Coherent, TasksKnown;
  }

  lemma {:induction false} EvictAllKeepsTask(s: Sys, victims: seq<string>, t: nat)
    requires IsRunning(s, t) && IsRunning(EvictAll(s, victims), t)
    ensures EvictAll(s, victims).board.tasks[t] == s.board.tasks[t]
  {
    if victims != [] {
      EvictAllKeepsTask(s, victims[..|victims| - 1], t);
    }
  }

  /** What EvictAll leaves of a running task whose payload its worker has confirmed. */
  lemma AfterEvictions(c: Config, s: Sys, t: nat, incoming: real, size: int, victims: Option<seq<string>>)
    requires Inv(c, s) && IsRunning(s, t) && t in s.confirmed && Chooses(c, s, incoming, size, victims)
    ensures var after := if victims.Some? then EvictAll(s, victims.value) else s;
            Inv(c, after) && IsRunning(after, t) && after.board.tasks[t] == s.board.tasks[t]
            && RedisKey(c, s.board.tasks[t].batch.id) in after.redis && t in after.confirmed
  {
    if victims.Some? {
      EvictionsKeep(c, s, incoming, size, victims);
      RunningTaskStays(c, s, EvictAll(s, victims.value), t);
      EvictAllKeepsTask(s, victims.value, t);
    }
    hide Coherent, TasksKnown, WorkersTruthful, PhasesTold, PinInv, JobInv, EvictAll, BudgetKept, Chooses, RedisKey, EntryTruthful;
  }

  /** An admitted payload fits into the budget beside what the cache still holds. */
  lemma AdmittedFits(c: Config, s: Sys, after: Sys, size: int, victims: Option<seq<string>>)
    requires after == (if victims.Some? then EvictAll(s, victims.value) else s)
    requires Fits(c, s, size, victims) && c.capacity > 0 && BudgetKept(c, after.board.entries)
    ensures AdmittedBytes(after.board.entries) + Max(0, size) <= c.capacity
  {
    BytesInSubset(after.board.entries, AdmittedKeys(after.board.entries), CachedKeys(after.board.entries));
    hide EvictAll, BytesIn, Cached;
  }

  /** The state that the admission decision leaves, and why recording the payload there is sound. */
  lemma DecisionIsSound(c: Config, s: Sys, t: nat, o: Outcome, victims: Option<seq<string>>, now: int)
    requires Inv(c, s) && IsRunning(s, t) && o.InRedis? && t in s.confirmed
    requires Chooses(c, s, Value(c, s, s.board.tasks[t].batch.id, s.board.tasks[t].batch.datasetId), o.size, victims)
    ensures var task := s.board.tasks[t];
            var s2 := Decided(c, s, task.batch.id, o.size, victims);
            var entry := EntryFor(task.batch, Placed(c, s, task.batch.id, o, task.storage, victims), o.size, now);
            var redis := (if victims.Some? then EvictAll(s, victims.value) else s).redis;
            && Inv(c, s2.(redis := redis)) && IsRunning(s2, t) && s2.board.tasks[t] == task && FitToRecord(c, s2, t, entry)
            && (s2.redis == redis || s2.redis == redis - {RedisKey(c, task.batch.id)})
            && (c.capacity > 0 && Cached(entry) && !entry.forced ==> AdmittedBytes(s2.board.entries) + Max(0, entry.size) <= c.capacity)
  {
    var task := s.board.tasks[t];
    var k := task.batch.id;
    var after := if victims.Some? then EvictAll(s, victims.value) else s;
    AfterEvictions(c, s, t, Value(c, s, k, task.batch.datasetId), o.size, victims);
    assert after.(redis := after.redis) == after;
    if c.capacity > 0 && Fits(c, s, o.size, victims) {
      AdmittedFits(c, s, after, o.size, victims);
    }
    hide Inv, EvictAll, AdmittedBytes, Value, Chooses, RedisKey, Fits;
  }

  lemma RecordKeepsPins(s: Sys, t: nat, entry: Entry)
    requires PinInv(s) && t in s.board.tasks
    ensures PinInv(Recorded(s, t, entry))
  {
    forall j: string
      ensures KeysOf(s.pins, j) <= Recorded(s, t, entry).board.handles.Keys
    {
      assert KeysOf(s.pins, j) <= s.board.handles.Keys;
    }
    hide PinsAgree, PinsTold;
  }

  lemma CompleteInRedisKeeps(c: Config, s: Sys, t: nat, o: Outcome, victims: Option<seq<string>>, now: int)
    requires Inv(c, s) && IsRunning(s, t) && o.InRedis? && t in s.confirmed
    requires var s1 := Learned(c, s, s.board.tasks[t].batch.datasetId, o);
             Chooses(c, s1, Value(c, s1, s.board.tasks[t].batch.id, s.board.tasks[t].batch.datasetId), o.size, victims)
    ensures Inv(c, CompleteStep(c, s, t, o, victims, now))
  {
    var task := s.board.tasks[t];
    var s1 := Learned(c, s, task.batch.datasetId, o);
    LearnedKeeps(c, s, task.batch.datasetId, o);
    DecisionIsSound(c, s1, t, o, victims, now);
    var s2 := Decided(c, s1, task.batch.id, o.size, victims);
    var redis := (if victims.Some? then EvictAll(s1, victims.value) else s1).redis;
    var entry := EntryFor(task.batch, Placed(c, s1, task.batch.id, o, task.storage, victims), o.size, now);
    RecordKeeps(c, s2, redis, t, entry);
    RecordKeepsPins(s2, t, entry);
    hide BoardInv, PinInv, Decided, Placed, Learned, EvictAll, FitToRecord, RedisKey, Chooses, AdmittedBytes, JobsSound;
  }

  lemma CompleteInWorkerKeeps(c: Config, s: Sys, t: nat, o: Outcome, victims: Option<seq<string>>, now: int)
    requires Inv(c, s) && IsRunning(s, t) && o.InWorker?
    ensures Inv(c, CompleteStep(c, s, t, o, victims, now))
  {
    var task := s.board.tasks[t];
    var s1 := Learned(c, s, task.batch.datasetId, o);
    LearnedKeeps(c, s, task.batch.datasetId, o);
    var entry := EntryFor(task.batch, Placed(c, s1, task.batch.id, o, task.storage, victims), o.size, now);
    assert s1.(redis := s1.redis) == s1;
    RecordKeeps(c, s1, s1.redis, t, entry);
    RecordKeepsPins(s1, t, entry);
    hide BoardInv, PinInv, Learned, RedisKey, AdmittedBytes, JobsSound;
  }
}

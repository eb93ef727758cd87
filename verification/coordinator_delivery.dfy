/** What a trainer is given, batch by batch and epoch by epoch. */
module CoordinatorDelivery {
  import opened Text
  import opened Sequences
  import opened CoordinatorPlan
  import opened CoordinatorBoard
  import opened CoordinatorPins
  import opened CoordinatorState
  import opened CoordinatorService
  import opened CoordinatorInvariants
  import opened CoordinatorJobSteps
  import opened CoordinatorRuns

  /** The batches issued READY to job j so far. */
  function IssuedTo(s: Sys, j: string): seq<Batch> {
    IssuedBatches(JobLog(s.jobHistory, j))
  }

  /** A job's issued batches follow its course, and its progress counts them. */
  lemma IssuedOnCourse(c: Config, s: Sys, j: string)
    requires JobInv(c, s) && j in s.jobs
    ensures Usable(s, s.jobs[j].datasetId)
    ensures IsCourse(c, s.datasets[s.jobs[j].datasetId], j, IssuedTo(s, j), |IssuedTo(s, j)|)
    ensures |IssuedTo(s, j)| == s.jobs[j].epoch * PerEpoch(s, s.jobs[j].datasetId) + s.jobs[j].next
  {
    hide NthBatch, Window, BatchesPerEpoch, Permutes, IssuedBatches;
    assert JobSound(c, s.datasets, j, s.jobs[j], JobLog(s.jobHistory, j));
  }

  lemma CourseEntry(c: Config, d: Dataset, j: string, batches: seq<Batch>, m: nat)
    requires d.batchSize > 0 && IsCourse(c, d, j, batches, |batches|) && m < |batches|
    ensures var b := BatchesPerEpoch(d);
            && b > 0 && m % b < |EpochGroups(c.shuffle, d, m / b)|
            && batches[m] == MakeBatch(c.shuffle, d, m / b, m % b, OwnerIn(c, j))
  {
    hide BatchesPerEpoch, EpochGroups, MakeBatch;
    assert NthBatch(c, d, j, m) == Some(batches[m]);
  }

  /** The m-th batch issued to a job is batch m mod B of epoch m div B: no gap, no repeat, no early wrap. */
  lemma IssueOrder(c: Config, run: seq<Action>, j: string, m: nat)
    requires Permutes(c.shuffle) && ValidRun(c, Init(), run)
    requires j in After(c, Init(), run).jobs && m < |IssuedTo(After(c, Init(), run), j)|
    ensures var s := After(c, Init(), run);
            var batch := IssuedTo(s, j)[m];
            var perEpoch := PerEpoch(s, s.jobs[j].datasetId);
            && perEpoch > 0 && batch.epoch == m / perEpoch && batch.index == m % perEpoch
            && batch.datasetId == s.jobs[j].datasetId
            && batch.id == BatchId(s.jobs[j].datasetId, batch.epoch, batch.index, OwnerIn(c, j))
            && HasItsSamples(c, s, batch)
  {
    hide ValidRun, After, IssuedBatches, JobsSound, BatchesPerEpoch, BatchId, EpochGroups, HasItsSamples;
    RunFromStart(c, run);
    var s := After(c, Init(), run);
    IssuedOnCourse(c, s, j);
    var d := s.datasets[s.jobs[j].datasetId];
    CourseEntry(c, d, j, IssuedTo(s, j), m);
    assert DatasetsSound(s.datasets);
    BatchHasItsSamples(c, s, IssuedTo(s, j)[m], m / BatchesPerEpoch(d), m % BatchesPerEpoch(d), OwnerIn(c, j), s.jobs[j].datasetId);
  }

  /** The batch holds its stretch of its data set, in the order shuffled with the seed plus the batch's epoch. */
  ghost predicate HasItsSamples(c: Config, s: Sys, batch: Batch) {
    && batch.datasetId in s.datasets
    && var d := s.datasets[batch.datasetId];
       var order := if d.shuffle then c.shuffle(d.seed + batch.epoch, d.samples) else d.samples;
       var start := batch.index * d.batchSize;
       0 <= start < |order| == |d.samples| && d.batchSize > 0 && batch.samples == order[start..Min(|order|, start + d.batchSize)]
  }

  lemma BatchHasItsSamples(c: Config, s: Sys, batch: Batch, epoch: nat, index: nat, owner: string, datasetId: string)
    requires Permutes(c.shuffle) && datasetId in s.datasets && DatasetsSound(s.datasets)
    requires index < |EpochGroups(c.shuffle, s.datasets[datasetId], epoch)|
    requires batch == MakeBatch(c.shuffle, s.datasets[datasetId], epoch, index, owner)
    ensures HasItsSamples(c, s, batch)
  {
    hide EpochGroups, BatchId;
    GroupsPerEpoch(c.shuffle, s.datasets[datasetId], epoch);
    GroupSpelledOut(c.shuffle, s.datasets[datasetId], epoch, index);
  }

  /** With shared payloads, two jobs on one data set are issued the very same batches in the same order. */
  lemma SharedJobsSeeTheSame(c: Config, run: seq<Action>, j1: string, j2: string, m: nat)
    requires Permutes(c.shuffle) && ValidRun(c, Init(), run) && c.reuse
    requires j1 in After(c, Init(), run).jobs && j2 in After(c, Init(), run).jobs
    requires After(c, Init(), run).jobs[j1].datasetId == After(c, Init(), run).jobs[j2].datasetId
    requires m < |IssuedTo(After(c, Init(), run), j1)| && m < |IssuedTo(After(c, Init(), run), j2)|
    ensures IssuedTo(After(c, Init(), run), j1)[m] == IssuedTo(After(c, Init(), run), j2)[m]
  {
    hide ValidRun, After, IssuedBatches, JobsSound, BatchesPerEpoch, MakeBatch, EpochGroups;
    RunFromStart(c, run);
    var s := After(c, Init(), run);
    IssuedOnCourse(c, s, j1);
    IssuedOnCourse(c, s, j2);
    CourseEntry(c, s.datasets[s.jobs[j1].datasetId], j1, IssuedTo(s, j1), m);
    CourseEntry(c, s.datasets[s.jobs[j2].datasetId], j2, IssuedTo(s, j2), m);
  }

  function SamplesOf(batches: seq<Batch>): seq<seq<Sample>> {
    seq(|batches|, i requires 0 <= i < |batches| => batches[i].samples)
  }

  lemma EpochOfCourse(c: Config, d: Dataset, j: string, batches: seq<Batch>, epoch: nat, first: nat, i: nat)
    requires d.batchSize > 0 && IsCourse(c, d, j, batches, |batches|)
    requires first == epoch * BatchesPerEpoch(d) && i < BatchesPerEpoch(d) == |EpochGroups(c.shuffle, d, epoch)|
    requires first + i < |batches|
    ensures batches[first + i].samples == EpochGroups(c.shuffle, d, epoch)[i]
  {
    hide BatchesPerEpoch, EpochGroups;
    DivModUnique(BatchesPerEpoch(d), epoch, i);
    CourseEntry(c, d, j, batches, first + i);
  }

  /** The batches hold the data set's samples, shuffled with its seed plus the epoch, cut to whole batches under drop_last. */
  ghost predicate CarryEpoch(c: Config, d: Dataset, epoch: nat, batches: seq<Batch>) {
    var order := if d.shuffle then c.shuffle(d.seed + epoch, d.samples) else d.samples;
    && d.batchSize > 0 && |order| == |d.samples|
    && Flatten(SamplesOf(batches)) == order[..if d.dropLast then |d.samples| - |d.samples| % d.batchSize else |d.samples|]
  }

  lemma CourseCarriesEpoch(c: Config, d: Dataset, j: string, issued: seq<Batch>, epoch: nat, perEpoch: nat)
    requires Permutes(c.shuffle) && d.batchSize > 0 && perEpoch == BatchesPerEpoch(d)
    requires IsCourse(c, d, j, issued, |issued|) && (epoch + 1) * perEpoch <= |issued|
    ensures 0 <= epoch * perEpoch <= (epoch + 1) * perEpoch
    ensures CarryEpoch(c, d, epoch, issued[epoch * perEpoch..(epoch + 1) * perEpoch])
  {
    hide BatchesPerEpoch, EpochGroups, KeptSamples, IsCourse, Flatten;
    var first := epoch * perEpoch;
    NextStart(epoch, perEpoch);
    GroupsPerEpoch(c.shuffle, d, epoch);
    var batches := issued[first..first + perEpoch];
    forall i: nat | i < perEpoch
      ensures batches[i].samples == EpochGroups(c.shuffle, d, epoch)[i]
    {
      EpochOfCourse(c, d, j, issued, epoch, first, i);
    }
    assert SamplesOf(batches) == EpochGroups(c.shuffle, d, epoch);
    GroupsPartitionTheEpoch(c.shuffle, d, epoch);
    KeptSpelledOut(c.shuffle, d, epoch);
  }

  /**
   * What a job is issued in one whole epoch is, put together, the data set's sample list, shuffled
   * with its seed plus the epoch, and cut to whole batches under drop_last.
   */
  lemma EpochIsComplete(c: Config, run: seq<Action>, j: string, epoch: nat)
    requires Permutes(c.shuffle) && ValidRun(c, Init(), run) && j in After(c, Init(), run).jobs
    ensures var s := After(c, Init(), run);
            var first, last := epoch * PerEpoch(s, s.jobs[j].datasetId), (epoch + 1) * PerEpoch(s, s.jobs[j].datasetId);
            && s.jobs[j].datasetId in s.datasets && 0 <= first <= last
            && (last <= |IssuedTo(s, j)| ==> CarryEpoch(c, s.datasets[s.jobs[j].datasetId], epoch, IssuedTo(s, j)[first..last]))
  {
    hide ValidRun, After, IssuedBatches, JobsSound, BatchesPerEpoch, CarryEpoch, IsCourse;
    RunFromStart(c, run);
    var s := After(c, Init(), run);
    IssuedOnCourse(c, s, j);
    var d, issued := s.datasets[s.jobs[j].datasetId], IssuedTo(s, j);
    NextStart(epoch, BatchesPerEpoch(d));
    if (epoch + 1) * BatchesPerEpoch(d) <= |issued| {
      CourseCarriesEpoch(c, d, j, issued, epoch, BatchesPerEpoch(d));
    }
  }

  // Answers.

  /** A known job is told that it is done exactly when it has finished or its data set has no batch. */
  lemma DoneOnlyWhenOver(c: Config, s: Sys, j: string, feedback: Option<real>)
    requires Inv(c, s) && j in s.jobs
    ensures NextBatchReply(c, s, j, feedback).Done? <==> !IsActive(s, j) || PerEpoch(s, s.jobs[j].datasetId) == 0
  {
    hide Inv, JobInv, BatchesPerEpoch, NextPlanned, Refreshed;
    var s1 := WithFeedback(s, j, feedback);
    FeedbackKeeps(c, s, j, feedback);
    InvHasJobs(c, s1);
    PreparedIsIdle(c, s1, j);
    if IsActive(s1, j) {
      NextPlannedIsNext(c, s1, j);
    }
  }

  /**
   * A READY answer carries the next batch of the job's course, with its handle, and counts as issued;
   * any other answer issues nothing.
   */
  lemma AnswersFollowTheCourse(c: Config, s: Sys, j: string, feedback: Option<real>, now: int)
    requires Inv(c, s) && j in s.jobs
    ensures var reply := NextBatchReply(c, s, j, feedback);
            var s' := NextBatchStep(c, s, j, feedback, now);
            && (reply.Ready? ==>
                  && IssuedTo(s', j) == IssuedTo(s, j) + [reply.batch]
                  && IsReady(s.board, reply.batch.id) && reply.handle == s.board.handles[reply.batch.id]
                  && InUse(s'.pins, reply.batch.id))
            && (!reply.Ready? ==> s'.jobHistory == s.jobHistory && s'.pins == s.pins)
  {
    hide Inv, JobInv, NextPlanned, Served, IssuedBatches, Refreshed;
    var s1 := WithFeedback(s, j, feedback);
    FeedbackKeeps(c, s, j, feedback);
    InvHasJobs(c, s1);
    PreparedIsIdle(c, s1, j);
    if NextPlanned(s1, j).Some? {
      var batch := NextPlanned(s1, j).value;
      ReadyHasEntry(c, s, batch.id);
      if IsReady(s.board, batch.id) {
        ServedIsIssued(c, s1, j, batch, now);
      }
    }
  }

  lemma ServedIsIssued(c: Config, s: Sys, j: string, batch: Batch, now: int)
    requires j in s.jobs && batch.id in s.board.entries
    ensures IssuedTo(Served(c, s, j, batch, now), j) == IssuedTo(s, j) + [batch]
    ensures InUse(Served(c, s, j, batch, now).pins, batch.id)
  {
    hide Advanced, PlanFor, Touch, IssuedBatches;
    HistoryGrows(JobLog(s.jobHistory, j), Issued(batch));
    WithRelates(s.pins.byKey, batch.id, j, batch.id, j);
  }

  lemma ReadyHasEntry(c: Config, s: Sys, k: string)
    requires Inv(c, s)
    ensures IsReady(s.board, k) ==> k in s.board.entries
  {
    assert KeyCoherent(s.board, k);
  }

  /**
   * The answer about a batch mirrors its current task: READY once completed, FAILED while the last
   * attempt failed or was cancelled, and PENDING otherwise.
   */
  lemma AnswerMirrorsTheTask(c: Config, s: Sys, batch: Batch)
    requires Inv(c, s)
    ensures Resolve(s.board, batch).Ready? <==> Indexed(s.board, batch.id) && StatusOf(s.board, batch.id).Completed?
    ensures Resolve(s.board, batch).Broken? <==>
              Indexed(s.board, batch.id) && (StatusOf(s.board, batch.id).Failed? || StatusOf(s.board, batch.id).Cancelled?)
    ensures Resolve(s.board, batch).Pending? <==>
              !Indexed(s.board, batch.id) || StatusOf(s.board, batch.id).Pending? || StatusOf(s.board, batch.id).Running?
  {
    assert KeyCoherent(s.board, batch.id);
  }
  predicate LastAttemptFailed(b: Board, k: string) {
    Indexed(b, k) && StatusOf(b, k).Failed?
  }

  predicate LastAttemptCancelled(b: Board, k: string) {
    Indexed(b, k) && StatusOf(b, k).Cancelled?
  }

  /** The current task of batch k belongs to a job other than j, and that job has finished. */
  predicate OwnedByFinishedOther(s: Sys, j: string, k: string) {
    Indexed(s.board, k)
    && var owner := s.board.tasks[s.board.index[k]].jobId;
       owner != j && owner in s.jobs && !s.jobs[owner].status.Active?
  }

  /** A cancelled task belongs to a finished job, and so to none that is still active. */
  lemma CancelledBelongsToFinished(c: Config, s: Sys, j: string, k: string)
    requires Inv(c, s) && IsActive(s, j) && LastAttemptCancelled(s.board, k)
    ensures OwnedByFinishedOther(s, j, k)
  {
    assert TaskKnown(s.datasets, s.jobs, s.nextTask, s.board.index[k], s.board.tasks[s.board.index[k]]);
  }

  /** What an active job is told about its next batch is told about the batch that its position names. */
  lemma ReplyIsAboutNext(c: Config, s: Sys, j: string, feedback: Option<real>)
    requires Inv(c, s) && IsActive(s, j)
    ensures NextBatchReply(c, s, j, feedback)
            == if NextPlanned(s, j).None? then Done else Resolve(s.board, NextPlanned(s, j).value)
  {
    hide Inv, JobInv, FindBatch, Refreshed, Resolve;
    var s1 := WithFeedback(s, j, feedback);
    FeedbackKeeps(c, s, j, feedback);
    InvHasJobs(c, s1);
    PreparedIsIdle(c, s1, j);
  }

  /**
   * In every reachable state an active job is answered FAILED exactly if the last attempt at its
   * next batch failed, or was cancelled; and a cancelled attempt is always one that belonged to
   * another job, which has finished.
   */
  lemma FailedAnswersExplained(c: Config, run: seq<Action>, j: string, feedback: Option<real>)
    requires Permutes(c.shuffle) && ValidRun(c, Init(), run) && IsActive(After(c, Init(), run), j)
    ensures var s := After(c, Init(), run);
            NextBatchReply(c, s, j, feedback).Broken? <==>
              NextPlanned(s, j).Some?
              && (LastAttemptFailed(s.board, NextPlanned(s, j).value.id)
                  || (LastAttemptCancelled(s.board, NextPlanned(s, j).value.id)
                      && OwnedByFinishedOther(s, j, NextPlanned(s, j).value.id)))
  {
    hide ValidRun, After, Inv, NextPlanned, Resolve, OwnedByFinishedOther;
    RunFromStart(c, run);
    var s := After(c, Init(), run);
    ReplyIsAboutNext(c, s, j, feedback);
    if NextPlanned(s, j).Some? {
      var batch := NextPlanned(s, j).value;
      AnswerMirrorsTheTask(c, s, batch);
      if LastAttemptCancelled(s.board, batch.id) {
        CancelledBelongsToFinished(c, s, j, batch.id);
      }
    }
  }
}

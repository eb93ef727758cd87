/** One job's end can make another job, which still runs, be told that its next batch has FAILED. */
module CoordinatorInterference {
  import opened Text
  import opened Sequences
  import opened CoordinatorPlan
  import opened CoordinatorBoard
  import opened CoordinatorPins
  import opened CoordinatorState
  import opened CoordinatorService
  import opened CoordinatorInvariants
  import opened CoordinatorRuns
  import opened CoordinatorDelivery
  import opened CoordinatorTiny

  const ONE := "one"
  const TWO := "two"

  function SharedRun(): seq<Action> {
    [RegisterDataset(TINY)]
    + ([StartJob(ONE, "d", 1, Demo())] + ([StartJob(TWO, "d", 1, Demo())] + ([FinishJob(ONE, JobCompleted)] + [])))
  }

  /** Both jobs wait for the same batch, whose task belongs to the first. */
  function Shared(c: Config, batch: Batch): Sys {
    var s := Scheduled(c, ONE, batch);
    s.(jobs := s.jobs[TWO := TinyJob(c, TWO)], order := s.order + [TWO])
  }

  lemma SharedWindow(c: Config)
    requires c.reuse
    ensures TinyJob(c, ONE).planned == TinyJob(c, TWO).planned
  {
    hide Window;
  }

  lemma SecondStart(c: Config, batch: Batch)
    requires c.reuse && TinyJob(c, ONE).planned == [batch]
    ensures StartJobStep(c, Scheduled(c, ONE, batch), TWO, "d", 1, Demo()) == Shared(c, batch)
  {
    hide TinyJob, StartJobStep;
    SharedWindow(c);
    TinyStart(c, Scheduled(c, ONE, batch), TWO);
  }

  lemma SharedSteps(c: Config)
    requires c.reuse
    ensures |TinyJob(c, ONE).planned| == 1
    ensures ValidRun(c, Init(), SharedRun())
    ensures After(c, Init(), SharedRun()) == FinishJobStep(Shared(c, TinyJob(c, ONE).planned[0]), ONE, JobCompleted)
  {
    hide TinyJob, StartJobStep, FinishJobStep, ValidRun, After, Scheduled, Shared;
    TinyJobIsScheduled(c, ONE);
    TinyWindow(c, ONE);
    var batch := TinyJob(c, ONE).planned[0];
    SecondStart(c, batch);
    var s1 := RegisterDatasetStep(Init(), TINY);
    NoSteps(c, FinishJobStep(Shared(c, batch), ONE, JobCompleted));
    Prepend(c, Shared(c, batch), FinishJob(ONE, JobCompleted), []);
    Prepend(c, Scheduled(c, ONE, batch), StartJob(TWO, "d", 1, Demo()), [FinishJob(ONE, JobCompleted)] + []);
    Prepend(c, s1, StartJob(ONE, "d", 1, Demo()), [StartJob(TWO, "d", 1, Demo())] + ([FinishJob(ONE, JobCompleted)] + []));
    Prepend(c, Init(), RegisterDataset(TINY),
            [StartJob(ONE, "d", 1, Demo())] + ([StartJob(TWO, "d", 1, Demo())] + ([FinishJob(ONE, JobCompleted)] + [])));
  }

  /** What is left of the shared batch once its task's owner has finished. */
  lemma SharedIsCancelled(c: Config, batch: Batch)
    requires TinyJob(c, TWO).planned == [batch] && batch.epoch == 0 && batch.index == 0
    ensures var s := FinishJobStep(Shared(c, batch), ONE, JobCompleted);
            IsActive(s, TWO) && NextPlanned(s, TWO) == Some(batch) && LastAttemptCancelled(s.board, batch.id)
  {
    hide WindowOf, NoteJob, Release;
  }

  /**
   * Whatever the configuration, when payloads are shared: two jobs wait for the same batch, the one
   * whose task it is finishes, and the other, still active, is answered FAILED for a batch at which
   * no attempt has failed.
   */
  lemma OthersEndFailsABatch(c: Config)
    requires Permutes(c.shuffle) && c.reuse
    ensures ValidRun(c, Init(), SharedRun())
    ensures var s := After(c, Init(), SharedRun());
            && IsActive(s, TWO) && NextBatchReply(c, s, TWO, None).Broken?
            && NextPlanned(s, TWO).Some? && OwnedByFinishedOther(s, TWO, NextPlanned(s, TWO).value.id)
            && forall k :: KeyLog(s.keyHistory, k) == []
  {
    hide Inv, TinyJob, ValidRun, After, SharedRun, FinishJobStep, NextPlanned, NextBatchReply, OwnedByFinishedOther;
    SharedSteps(c);
    RunFromStart(c, SharedRun());
    TinyWindow(c, ONE);
    SharedWindow(c);
    var batch := TinyJob(c, ONE).planned[0];
    SharedIsCancelled(c, batch);
    NothingBroke(c, batch);
    var s := After(c, Init(), SharedRun());
    CancelledBelongsToFinished(c, s, TWO, batch.id);
    FailedAnswersExplained(c, SharedRun(), TWO, None);
  }

  lemma NothingBroke(c: Config, batch: Batch)
    ensures FinishJobStep(Shared(c, batch), ONE, JobCompleted).keyHistory == map[]
  {
    hide TinyJob, NoteJob, Release;
  }
}

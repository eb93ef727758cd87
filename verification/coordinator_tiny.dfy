/** The smallest data set, one sample in one batch, for runs that exhibit what can go wrong. */
module CoordinatorTiny {
  import opened Text
  import opened Sequences
  import opened CoordinatorPlan
  import opened CoordinatorBoard
  import opened CoordinatorPins
  import opened CoordinatorState
  import opened CoordinatorService
  import opened CoordinatorJobSteps

  const TINY: Dataset := Dataset("d", ["x"], 1, false, false, 0)

  const NOTHING_LEARNED: Estimates := Estimates(map[], map[])

  function Demo(): Scheduling {
    Scheduling(0, _ => 0.0, _ => Reusable)
  }

  /** A job over the data set, waiting for its only batch. */
  function TinyJob(c: Config, j: string): Job {
    var newJob := Job("d", 1, 0, 0, Active, 0.0, []);
    newJob.(planned := WindowOf(c, TINY, j, newJob))
  }

  lemma TinyWindow(c: Config, j: string)
    ensures var w := TinyJob(c, j).planned;
            |w| == 1 && w == [w[0]] && w[0].epoch == 0 && w[0].index == 0 && w[0].datasetId == "d"
  {
    hide BatchId;
    var newJob := Job("d", 1, 0, 0, Active, 0.0, []);
    assert |EpochGroups(c.shuffle, TINY, 0)| == 1;
    assert WindowOf(c, TINY, j, newJob)[0] == MakeBatch(c.shuffle, TINY, 0, 0, OwnerIn(c, j));
  }

  lemma TinyDepth(c: Config, j: string)
    ensures TargetDepth(c, NOTHING_LEARNED, TinyJob(c, j)) == 1
  {
    hide WindowOf;
  }

  /** Scheduling the job concerns just this batch. */
  lemma TinyScheduling(c: Config, s: Sys, j: string)
    requires j in s.jobs && s.jobs[j] == TinyJob(c, j) && s.est == NOTHING_LEARNED
    requires s.datasets == map["d" := TINY]
    ensures |TinyJob(c, j).planned| == 1
    ensures ScheduleJobStep(c, s, j, Demo()) == ScheduleOne(c, s, j, TinyJob(c, j).planned[0], Demo())
  {
    hide TinyJob, TargetDepth, WindowOf, Upcoming, ScheduleOne, Ahead;
    TinyWindow(c, j);
    TinyUpcoming(c, j);
    TinyDepth(c, j);
    var w := TinyJob(c, j).planned;
    TinyReplenished(c, s, j);
    assert First(1, w) == w && w[..0] == [];
    assert ScheduleAll(c, s, j, w, Demo()) == ScheduleOne(c, s, j, w[0], Demo());
  }

  lemma TinyUpcoming(c: Config, j: string)
    ensures Upcoming(TinyJob(c, j)) == TinyJob(c, j).planned
  {
    hide WindowOf, Ahead;
    TinyWindow(c, j);
    AheadIsAll(TinyJob(c, j).planned, 0, 0);
  }

  lemma TinyReplenished(c: Config, s: Sys, j: string)
    requires j in s.jobs && s.jobs[j] == TinyJob(c, j)
    ensures Replenished(c, s, j) == s
  {
    hide WindowOf, Upcoming;
    TinyUpcoming(c, j);
    TinyWindow(c, j);
  }

  lemma TinyStart(c: Config, s: Sys, j: string)
    requires j !in s.jobs && s.est == NOTHING_LEARNED && s.datasets == map["d" := TINY]
    ensures |TinyJob(c, j).planned| == 1
    ensures StartJobStep(c, s, j, "d", 1, Demo())
            == ScheduleOne(c, s.(jobs := s.jobs[j := TinyJob(c, j)], order := s.order + [j]), j, TinyJob(c, j).planned[0], Demo())
  {
    hide WindowOf, ScheduleOne, ScheduleJobStep;
    var s' := AddJob(c, s, j, "d", 1);
    assert s' == s.(jobs := s.jobs[j := TinyJob(c, j)], order := s.order + [j]);
    TinyScheduling(c, s', j);
  }

  /** The state after a first job's only batch has been scheduled. */
  function Scheduled(c: Config, j: string, batch: Batch): Sys {
    Init().(datasets := map["d" := TINY], jobs := map[j := TinyJob(c, j)], order := [j], nextTask := 1,
            board := Board(map[0 := TinyTask(c, j, batch)], map[batch.id := 0], map[batch.id := TinyEntry(c, batch)], map[]))
  }

  function TinyTask(c: Config, j: string, batch: Batch): Task {
    Task(batch, j, 0.0, if c.reuse then Reusable else Transient, TaskStatus.Pending, "")
  }

  function TinyEntry(c: Config, batch: Batch): Entry {
    Entry(EntryPending, if c.reuse then Reusable else Transient, Nowhere, 0, None, 0, "", batch.datasetId, false)
  }

  lemma TinyJobIsScheduled(c: Config, j: string)
    ensures |TinyJob(c, j).planned| == 1
    ensures StartJobStep(c, RegisterDatasetStep(Init(), TINY), j, "d", 1, Demo()) == Scheduled(c, j, TinyJob(c, j).planned[0])
  {
    hide TinyJob, StartJobStep;
    var s := RegisterDatasetStep(Init(), TINY);
    TinyStart(c, s, j);
    assert s.jobs[j := TinyJob(c, j)] == map[j := TinyJob(c, j)] && s.order + [j] == [j];
  }

  // Building runs from the back.

  lemma NoSteps(c: Config, s: Sys)
    ensures ValidRun(c, s, []) && After(c, s, []) == s
  {
  }

  lemma Prepend(c: Config, s: Sys, a: Action, run: seq<Action>)
    requires Allowed(c, s, a) && ValidRun(c, Apply(c, s, a), run)
    ensures ValidRun(c, s, [a] + run) && After(c, s, [a] + run) == After(c, Apply(c, s, a), run)
  {
    hide Apply, Allowed;
    assert ([a] + run)[1..] == run;
  }
}

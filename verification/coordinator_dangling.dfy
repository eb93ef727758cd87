/** The one way a READY handle can name a missing Redis key does happen. */
module CoordinatorDangling {
  import opened Text
  import opened Sequences
  import opened CoordinatorPlan
  import opened CoordinatorBoard
  import opened CoordinatorPins
  import opened CoordinatorState
  import opened CoordinatorCache
  import opened CoordinatorService
  import opened CoordinatorInvariants
  import opened CoordinatorRuns
  import opened CoordinatorAdmission
  import opened CoordinatorTiny

  const J := "j"
  const W := "w"

  /** A first attempt gets as far as Redis and is then reported as failed. */
  function FirstAttempt(): seq<Action> {
    [RegisterDataset(TINY)]
    + ([StartJob(J, "d", 1, Demo())] + ([RegisterWorker(W)] + ([Poll(W, Some(0))] + ([WorkerPuts(0)] + ([FailTask(0)] + SecondAttempt())))))
  }

  /** The second attempt finds the payload that the first one has left there. */
  function SecondAttempt(): seq<Action> {
    [ScheduleJob(J, Demo())] + ([Poll(W, Some(1))] + ([WorkerFinds(1)] + []))
  }

  /** The tasks, index, entries and key history of a state about batch, with task t at status. */
  predicate At(c: Config, s: Sys, batch: Batch, t: nat, status: TaskStatus) {
    && s.jobs == map[J := TinyJob(c, J)] && s.est == NOTHING_LEARNED && s.datasets == map["d" := TINY]
    && W in s.workers && s.board.index == map[batch.id := t] && s.nextTask == t + 1
    && t in s.board.tasks && s.board.tasks[t] == Task(batch, J, 0.0, Reusable, status, s.board.tasks[t].worker)
    && s.board.handles == map[] && s.confirmed == {} && s.made == {}
    && (forall u :: u in s.board.tasks && u != t ==> s.board.tasks[u].status.Failed?)
  }

  lemma Taken(c: Config, s: Sys, batch: Batch, t: nat)
    requires At(c, s, batch, t, TaskStatus.Pending)
    ensures Chosen(s.board, Some(t))
    ensures At(c, PollStep(s, W, Some(t)), batch, t, Running) && PollStep(s, W, Some(t)).redis == s.redis
  {
    hide TinyJob, NoteKey;
    TinyIsActive(c);
  }

  lemma TinyIsActive(c: Config)
    ensures TinyJob(c, J).status.Active?
  {
    hide WindowOf;
  }

  lemma PutAndFailed(c: Config, s: Sys, batch: Batch)
    requires c.redis && At(c, s, batch, 0, Running)
    ensures Allowed(c, s, WorkerPuts(0)) && Allowed(c, WorkerPutsStep(c, s, 0), FailTask(0))
    ensures At(c, FailStep(WorkerPutsStep(c, s, 0), 0), batch, 0, TaskStatus.Failed)
    ensures FailStep(WorkerPutsStep(c, s, 0), 0).redis == s.redis + {RedisKey(c, batch.id)}
  {
    hide TinyJob, NoteKey, RedisKey;
  }

  lemma TriedAgain(c: Config, s: Sys, batch: Batch)
    requires c.reuse && At(c, s, batch, 0, TaskStatus.Failed) && TinyJob(c, J).planned == [batch]
    ensures At(c, ScheduleJobStep(c, s, J, Demo()), batch, 1, TaskStatus.Pending)
    ensures ScheduleJobStep(c, s, J, Demo()).redis == s.redis
  {
    hide TinyJob, ScheduleJobStep;
    TinyScheduling(c, s, J);
  }

  /** The state in which the worker has found the payload of its second task in Redis. */
  predicate Found(c: Config, s: Sys) {
    && IsRunning(s, 1) && s.board.tasks[1].storage.Reusable? && 1 in s.confirmed && 1 !in s.made
  }

  lemma SecondAttemptFinds(c: Config, s: Sys, batch: Batch)
    requires c.redis && c.reuse && At(c, s, batch, 0, TaskStatus.Failed) && TinyJob(c, J).planned == [batch]
    requires RedisKey(c, batch.id) in s.redis
    ensures ValidRun(c, s, SecondAttempt()) && Found(c, After(c, s, SecondAttempt()))
  {
    hide TinyJob, ScheduleJobStep, PollStep, RedisKey, ValidRun, After, Chosen;
    TriedAgain(c, s, batch);
    var s1 := ScheduleJobStep(c, s, J, Demo());
    Taken(c, s1, batch, 1);
    var s2 := PollStep(s1, W, Some(1));
    NoSteps(c, WorkerFindsStep(s2, 1));
    Prepend(c, s2, WorkerFinds(1), []);
    Prepend(c, s1, Poll(W, Some(1)), [WorkerFinds(1)] + []);
    Prepend(c, s, ScheduleJob(J, Demo()), [Poll(W, Some(1))] + ([WorkerFinds(1)] + []));
  }

  lemma Begun(c: Config)
    requires c.reuse
    ensures |TinyJob(c, J).planned| == 1 && TinyJob(c, J).planned == [TinyJob(c, J).planned[0]]
    ensures var batch := TinyJob(c, J).planned[0];
            var s := StartJobStep(c, RegisterDatasetStep(Init(), TINY), J, "d", 1, Demo());
            At(c, RegisterWorkerStep(s, W), batch, 0, TaskStatus.Pending)
  {
    hide TinyJob, StartJobStep;
    TinyWindow(c, J);
    TinyJobIsScheduled(c, J);
  }

  lemma BothAttempts(c: Config)
    requires c.redis && c.reuse
    ensures ValidRun(c, Init(), FirstAttempt()) && Found(c, After(c, Init(), FirstAttempt()))
  {
    hide TinyJob, StartJobStep, PollStep, RedisKey, ValidRun, After, Chosen, SecondAttempt, At, FailStep, Found;
    Begun(c);
    var batch := TinyJob(c, J).planned[0];
    var s1 := RegisterDatasetStep(Init(), TINY);
    var s2 := StartJobStep(c, s1, J, "d", 1, Demo());
    var s3 := RegisterWorkerStep(s2, W);
    Taken(c, s3, batch, 0);
    var s4 := PollStep(s3, W, Some(0));
    PutAndFailed(c, s4, batch);
    var s5 := WorkerPutsStep(c, s4, 0);
    SecondAttemptFinds(c, FailStep(s5, 0), batch);
    var rest := SecondAttempt();
    Prepend(c, s5, FailTask(0), rest);
    Prepend(c, s4, WorkerPuts(0), [FailTask(0)] + rest);
    Prepend(c, s3, Poll(W, Some(0)), [WorkerPuts(0)] + ([FailTask(0)] + rest));
    Prepend(c, s2, RegisterWorker(W), [Poll(W, Some(0))] + ([WorkerPuts(0)] + ([FailTask(0)] + rest)));
    Prepend(c, s1, StartJob(J, "d", 1, Demo()), [RegisterWorker(W)] + ([Poll(W, Some(0))] + ([WorkerPuts(0)] + ([FailTask(0)] + rest))));
    Prepend(c, Init(), RegisterDataset(TINY),
            [StartJob(J, "d", 1, Demo())] + ([RegisterWorker(W)] + ([Poll(W, Some(0))] + ([WorkerPuts(0)] + ([FailTask(0)] + rest)))));
  }

  /**
   * In every bounded cache some run ends with a READY handle whose Redis key is missing: the payload
   * of an attempt that failed after its put is found by the next attempt, which then has no copy of
   * its own to offer as a fallback, and it is too large to be kept.
   */
  lemma DanglingHandleIsReachable(c: Config) returns (s: Sys, a: Action, k: string)
    requires Permutes(c.shuffle) && c.redis && c.reuse && c.capacity > 0
    ensures ValidRun(c, Init(), FirstAttempt()) && s == After(c, Init(), FirstAttempt()) && Allowed(c, s, a)
    ensures var s' := Apply(c, s, a);
            IsReady(s'.board, k) && s'.board.handles[k].location.Redis? && s'.board.handles[k].fetchKey !in s'.redis
  {
    hide Inv, Chooses, ValidRun, After, FirstAttempt, RedisKey, CompleteStep;
    BothAttempts(c);
    s := After(c, Init(), FirstAttempt());
    RunFromStart(c, FirstAttempt());
    var o := InRedis(c.capacity + 1, None, None);
    ForcedHandleCanDangle(c, s, 1, o, 0);
    a := CompleteTask(1, o, None, 0);
    k := s.board.tasks[1].batch.id;
  }
}

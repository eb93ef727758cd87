/** What the calls need of each other from the state: registered data sets behind jobs, and pins that agree. */
module CoordinatorLinks {
  import opened Text
  import opened Sequences
  import opened CoordinatorPlan
  import opened CoordinatorBoard
  import opened CoordinatorPins
  import opened CoordinatorState
  import opened CoordinatorService

  predicate JobsRegistered(datasets: map<string, Dataset>, jobs: map<string, Job>) {
    forall j :: j in jobs ==> jobs[j].datasetId in datasets
  }

  ghost predicate Linked(s: Sys) {
    JobsRegistered(s.datasets, s.jobs) && PinsAgree(s.pins)
  }

  /** Data sets are as before, and jobs and pins still have what they need. */
  ghost predicate KeepsLinks(s: Sys, s': Sys) {
    s'.datasets == s.datasets && Linked(s')
  }

  lemma JobUpdateKeepsLinks(s: Sys, s': Sys, j: string)
    requires Linked(s) && j in s.jobs && j in s'.jobs && s'.jobs == s.jobs[j := s'.jobs[j]]
    requires s'.jobs[j].datasetId == s.jobs[j].datasetId && s'.datasets == s.datasets && s'.pins == s.pins
    ensures KeepsLinks(s, s')
  {
  }

  lemma RefreshKeepsLinks(c: Config, s: Sys, j: string)
    requires Linked(s) && j in s.jobs
    ensures KeepsLinks(s, Refreshed(c, s, j)) && KeepsLinks(s, Replenished(c, s, j))
    ensures j in Refreshed(c, s, j).jobs && j in Replenished(c, s, j).jobs
  {
    hide PlanFor, Upcoming, PinsAgree;
  }

  lemma ServeKeepsLinks(c: Config, s: Sys, j: string, batch: Batch, now: int)
    requires Linked(s) && j in s.jobs
    ensures KeepsLinks(s, Served(c, s, j, batch, now))
  {
    hide PlanFor, PinsAgree, Pin, Touch, NoteJob;
    PinAgrees(s.pins, batch.id, j);
  }

  lemma NextBatchKeepsLinks(c: Config, s: Sys, j: string, feedback: Option<real>, now: int)
    requires Linked(s)
    ensures KeepsLinks(s, NextBatchStep(c, s, j, feedback, now))
  {
    hide PinsAgree, Served, Refreshed, FindBatch;
    if j in s.jobs {
      var s1 := WithFeedback(s, j, feedback);
      JobUpdateKeepsLinks(s, s1, j);
      RefreshKeepsLinks(c, s1, j);
      var s2 := Prepared(c, s1, j);
      if NextPlanned(s2, j).Some? {
        ServeKeepsLinks(c, s2, j, NextPlanned(s2, j).value, now);
      }
    }
  }

  lemma AcknowledgeKeepsLinks(s: Sys, j: string, batchId: string, epoch: nat)
    requires Linked(s)
    ensures KeepsLinks(s, AcknowledgeStep(s, j, batchId, epoch))
  {
    hide PinsAgree, Unpin, NoteJob;
    UnpinAgrees(s.pins, batchId, j);
  }

  lemma FinishKeepsLinks(s: Sys, j: string, status: JobStatus)
    requires Linked(s)
    ensures KeepsLinks(s, FinishJobStep(s, j, status))
  {
    hide PinsAgree, Release, NoteJob, CancelTasksOf;
    ReleaseAgrees(s.pins, j);
  }

  lemma {:induction false} ScheduleAllKeepsLinks(c: Config, s: Sys, j: string, batches: seq<Batch>, how: Scheduling)
    requires Linked(s)
    ensures KeepsLinks(s, ScheduleAll(c, s, j, batches, how))
  {
    hide PinsAgree, CreateTask, ReadyOrInFlight;
    if batches != [] {
      ScheduleAllKeepsLinks(c, s, j, batches[..|batches| - 1], how);
    }
  }

  lemma ScheduleKeepsLinks(c: Config, s: Sys, j: string, how: Scheduling)
    requires Linked(s)
    ensures KeepsLinks(s, ScheduleJobStep(c, s, j, how))
  {
    hide PinsAgree, ScheduleAll, Replenished, Upcoming, TargetDepth;
    if j in s.jobs {
      var s1 := Replenished(c, s, j);
      RefreshKeepsLinks(c, s, j);
      ScheduleAllKeepsLinks(c, s1, j, First(TargetDepth(c, s1.est, s1.jobs[j]), Upcoming(s1.jobs[j])), how);
    }
  }

  lemma StartKeepsLinks(c: Config, s: Sys, j: string, datasetId: string, lookahead: int, how: Scheduling)
    requires Linked(s)
    ensures KeepsLinks(s, StartJobStep(c, s, j, datasetId, lookahead, how))
  {
    hide PinsAgree, ScheduleJobStep, Refreshed;
    if j !in s.jobs && datasetId in s.datasets {
      var s1 := s.(jobs := s.jobs[j := Job(datasetId, lookahead, 0, 0, Active, 0.0, [])], order := s.order + [j]);
      RefreshKeepsLinks(c, s1, j);
      ScheduleKeepsLinks(c, AddJob(c, s, j, datasetId, lookahead), j, how);
    }
  }

  lemma {:induction false} EvictAllKeepsLinks(s: Sys, victims: seq<string>)
    requires Linked(s)
    ensures KeepsLinks(s, EvictAll(s, victims))
  {
    hide PinsAgree, Remove, NoteKey, InUse;
    if victims != [] {
      EvictAllKeepsLinks(s, victims[..|victims| - 1]);
    }
  }

  lemma DecisionKeepsLinks(c: Config, s: Sys, k: string, size: int, victims: Option<seq<string>>)
    requires Linked(s)
    ensures KeepsLinks(s, Decided(c, s, k, size, victims))
  {
    hide PinsAgree, EvictAll, Fits;
    if victims.Some? {
      EvictAllKeepsLinks(s, victims.value);
    }
  }

  lemma CompleteKeepsLinks(c: Config, s: Sys, t: nat, o: Outcome, victims: Option<seq<string>>, now: int)
    requires Linked(s)
    ensures KeepsLinks(s, CompleteStep(c, s, t, o, victims, now))
  {
    hide PinsAgree, Decided, Fits, NoteKey, Complete, Averaged, Placed;
    if t in s.board.tasks && o.InRedis? {
      var task := s.board.tasks[t];
      DecisionKeepsLinks(c, Learned(c, s, task.batch.datasetId, o), task.batch.id, o.size, victims);
    }
  }

  function ExpireAll(s: Sys, keys: seq<string>, now: int): Sys {
    if keys == [] then s else ExpireStep(ExpireAll(s, keys[..|keys| - 1], now), keys[|keys| - 1], now)
  }

  lemma {:induction false} ExpireAllKeepsLinks(s: Sys, keys: seq<string>, now: int)
    requires Linked(s)
    ensures KeepsLinks(s, ExpireAll(s, keys, now))
  {
    hide PinsAgree, Remove, NoteKey, InUse;
    if keys != [] {
      ExpireAllKeepsLinks(s, keys[..|keys| - 1], now);
    }
  }
}

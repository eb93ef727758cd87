/** What a reported result leaves behind: entry, handle, worker and estimates, and the budget in reported sizes. */
module CoordinatorCompletion {
  import opened Text
  import opened Sequences
  import opened CoordinatorPlan
  import opened CoordinatorBoard
  import opened CoordinatorPins
  import opened CoordinatorState
  import opened CoordinatorCache
  import opened CoordinatorService
  import opened CoordinatorInvariants
  import opened CoordinatorBoardSteps
  import opened CoordinatorJobSteps
  import opened CoordinatorRuns
  import opened CoordinatorAdmission
  import opened CoordinatorGuarantees

  // One completion.

  /** The entry is about this report, whatever became of the payload. */
  predicate AboutReport(e: Entry, task: Task, o: Outcome, now: int) {
    e.status.EntryAvailable? && e.size == o.size && e.lastAccessed == now && e.datasetId == task.batch.datasetId
  }

  /** The payload stays with the worker that reported it. */
  predicate KeptByWorker(e: Entry, task: Task, o: Outcome)
    requires o.InWorker?
  {
    && e.location == Worker(o.host, o.port) && e.expires == o.expires && e.fetchKey == task.batch.id && e.storage == task.storage
    && !e.forced
  }

  /** The payload is in the cache, or would be if it had not been deleted for want of room. */
  predicate KeptInRedis(c: Config, e: Entry, task: Task, forced: bool) {
    && e.location.Redis? && e.expires.None? && e.fetchKey == RedisKey(c, task.batch.id) && e.storage.Reusable?
    && e.forced == forced
  }

  /** The cache has no room, and trainers are sent to the worker's own copy while that lasts. */
  predicate KeptAsFallback(e: Entry, f: Fallback) {
    && e.location.Worker? && e.location.host == f.host && e.location.port == f.port && e.fetchKey == f.key
    && e.storage.Transient? && !e.forced
    && e.expires == if f.expires == 0 then None else Some(f.expires)
  }

  lemma CompletedBoard(c: Config, s: Sys, t: nat, o: Outcome, victims: Option<seq<string>>, now: int)
    requires Inv(c, s) && Allowed(c, s, CompleteTask(t, o, victims, now))
    ensures var s' := CompleteStep(c, s, t, o, victims, now);
            var k := s.board.tasks[t].batch.id;
            && t in s'.board.tasks && s'.board.tasks[t].status.Completed?
            && k in s'.board.entries && k in s'.board.handles && s'.board.handles[k] == ReadyHandle(k, s'.board.entries[k])
            && s'.board.entries[k] == EntryFor(s.board.tasks[t].batch, Placed(c, Learned(c, s, s.board.tasks[t].batch.datasetId, o), k, o,
                                                                              s.board.tasks[t].storage, victims), o.size, now)
            && s'.reported == s.reported[k := o.size]
  {
    hide Inv, Chooses, EvictAll, RedisKey, NoteKey, Averaged, Value, Fits, Placed, EntryFor;
    var task := s.board.tasks[t];
    var s1 := Learned(c, s, task.batch.datasetId, o);
    LearnedKeeps(c, s, task.batch.datasetId, o);
    if o.InRedis? {
      AfterEvictions(c, s1, t, Value(c, s1, task.batch.id, task.batch.datasetId), o.size, victims);
    }
  }

  /**
   * After a completion the entry of the batch has the reported size, the present time and the batch's
   * data set; and the payload is where the worker keeps it, or in the cache if there was room, or else
   * with its fallback, or else nowhere. The handle says the same.
   */
  lemma CompletionRecords(c: Config, s: Sys, t: nat, o: Outcome, victims: Option<seq<string>>, now: int)
    requires Inv(c, s) && Allowed(c, s, CompleteTask(t, o, victims, now))
    ensures var s' := Apply(c, s, CompleteTask(t, o, victims, now));
            var task := s.board.tasks[t];
            var k := task.batch.id;
            && k in s'.board.entries && IsReady(s'.board, k) && s'.reported == s.reported[k := o.size]
            && var e := s'.board.entries[k];
               && AboutReport(e, task, o, now)
               && (o.InWorker? ==> KeptByWorker(e, task, o))
               && (o.InRedis? ==>
                     if HasRoom(c, s, t, o) then KeptInRedis(c, e, task, false)
                     else if o.fallback.Some? && o.fallback.value.host != "" && o.fallback.value.port > 0 && o.fallback.value.key != ""
                     then KeptAsFallback(e, o.fallback.value)
                     else KeptInRedis(c, e, task, true))
               && s'.board.handles[k] == Handle(k, e.location, e.fetchKey, e.expires, e.forced)
  {
    hide Inv, Chooses, EvictAll, RedisKey, NoteKey, Averaged, Value, Fits, CompleteStep, RoomCanBeMade, Learned;
    CompletedBoard(c, s, t, o, victims, now);
    if o.InRedis? {
      var batch := s.board.tasks[t].batch;
      var s1 := Learned(c, s, batch.datasetId, o);
      AdmittedIffRoom(c, s1, Value(c, s1, batch.id, batch.datasetId), o.size, victims);
    }
  }

  /** A task that is over is charged to no worker, so its worker is idle unless it has others. */
  lemma CompletionFreesWorker(c: Config, s: Sys, a: Action, t: nat, w: string)
    requires Inv(c, s) && Allowed(c, s, a) && ((a.CompleteTask? && a.task == t) || (a.FailTask? && a.task == t))
    requires w in s.workers
    ensures var s' := Apply(c, s, a); w in s'.workers && s'.workers[w] == s.workers[w] - {t}
  {
    hide Coherent, JobInv, PinInv, RedisTruthful, BudgetKept, PhasesTold, TasksKnown, Chooses, EvictAll, Fits, NoteKey, Averaged, Placed, RedisKey;
    if a.CompleteTask? {
      WorkersStay(c, s, t, a.outcome, a.victims);
      CompletedBoardWorkers(c, s, t, a.outcome, a.victims, a.now);
    }
    ChargedToOne(s, t, w);
  }

  lemma ChargedToOne(s: Sys, t: nat, w: string)
    requires WorkersTruthful(s.workers, s.board.tasks) && IsRunning(s, t) && w in s.workers
    ensures w != s.board.tasks[t].worker ==> s.workers[w] == s.workers[w] - {t}
  {
  }

  lemma {:induction false} EvictAllKeepsWorkers(s: Sys, victims: seq<string>)
    ensures EvictAll(s, victims).workers == s.workers && EvictAll(s, victims).reported == s.reported
    ensures EvictAll(s, victims).est == s.est
  {
    hide Remove, InUse, NoteKey;
    if victims != [] {
      EvictAllKeepsWorkers(s, victims[..|victims| - 1]);
    }
  }

  lemma WorkersStay(c: Config, s: Sys, t: nat, o: Outcome, victims: Option<seq<string>>)
    requires t in s.board.tasks
    ensures Decided(c, Learned(c, s, s.board.tasks[t].batch.datasetId, o), s.board.tasks[t].batch.id, o.size, victims).workers == s.workers
  {
    hide EvictAll, Fits, Averaged;
    if victims.Some? {
      EvictAllKeepsWorkers(Learned(c, s, s.board.tasks[t].batch.datasetId, o), victims.value);
    }
  }

  lemma CompletedBoardWorkers(c: Config, s: Sys, t: nat, o: Outcome, victims: Option<seq<string>>, now: int)
    requires Inv(c, s) && Allowed(c, s, CompleteTask(t, o, victims, now))
    requires Decided(c, Learned(c, s, s.board.tasks[t].batch.datasetId, o), s.board.tasks[t].batch.id, o.size, victims).workers == s.workers
    ensures CompleteStep(c, s, t, o, victims, now).workers == Unassigned(s, t)
  {
    hide Inv, Chooses, EvictAll, RedisKey, NoteKey, Averaged, Value, Fits, Placed, EntryFor, Recorded, Unassigned;
    var task := s.board.tasks[t];
    var s1 := Learned(c, s, task.batch.datasetId, o);
    LearnedKeeps(c, s, task.batch.datasetId, o);
    if o.InRedis? {
      AfterEvictions(c, s1, t, Value(c, s1, task.batch.id, task.batch.datasetId), o.size, victims);
    }
    var s2 := if o.InRedis? then Decided(c, s1, task.batch.id, o.size, victims) else s1;
    RecordedWorkers(s, s2, t, EntryFor(task.batch, Placed(c, s1, task.batch.id, o, task.storage, victims), o.size, now));
  }

  lemma RecordedWorkers(s: Sys, s2: Sys, t: nat, entry: Entry)
    requires t in s.board.tasks && t in s2.board.tasks && s2.board.tasks[t] == s.board.tasks[t] && s2.workers == s.workers
    ensures Recorded(s2, t, entry).workers == Unassigned(s, t)
  {
    hide Complete, NoteKey;
  }

  // Estimates.

  /** A moving average goes from the previous estimate the fraction alpha of the way to a new sample. */
  lemma AverageMoves(m: map<string, real>, id: string, sample: real, alpha: real, other: string)
    ensures var m' := Averaged(m, id, sample, alpha);
            && (sample <= 0.0 ==> m' == m)
            && (sample > 0.0 && id !in m ==> id in m' && m'[id] == sample)
            && (sample > 0.0 && id in m && 0.0 <= alpha <= 1.0 ==> id in m' && m'[id] - m[id] == alpha * (sample - m[id]))
            && (sample > 0.0 && id in m && alpha < 0.0 ==> id in m' && m'[id] == m[id])
            && (sample > 0.0 && id in m && alpha > 1.0 ==> id in m' && m'[id] == sample)
            && (other != id ==> (other in m' <==> other in m) && (other in m ==> m'[other] == m[other]))
  {
    if sample > 0.0 && id in m && 0.0 <= alpha <= 1.0 {
      assert alpha * sample + (1.0 - alpha) * m[id] - m[id] == alpha * (sample - m[id]);
    }
  }

  lemma DecisionKeepsEstimates(c: Config, s: Sys, k: string, size: int, victims: Option<seq<string>>)
    ensures Decided(c, s, k, size, victims).est == s.est && Decided(c, s, k, size, victims).reported == s.reported
  {
    hide EvictAll, Fits;
    if victims.Some? {
      EvictAllKeepsWorkers(s, victims.value);
    }
  }

  lemma DecisionKeepsTask(c: Config, s: Sys, k: string, size: int, victims: Option<seq<string>>, t: nat)
    ensures t in Decided(c, s, k, size, victims).board.tasks ==>
              t in s.board.tasks && Decided(c, s, k, size, victims).board.tasks[t] == s.board.tasks[t]
  {
    hide EvictAll, Fits;
    if victims.Some? {
      EvictAllKeepsBatches(s, victims.value, t);
    }
  }

  lemma RecordedEntry(s: Sys, t: nat, entry: Entry)
    requires t in s.board.tasks
    ensures Recorded(s, t, entry).board.entries == s.board.entries[s.board.tasks[t].batch.id := entry]
    ensures t in Recorded(s, t, entry).board.tasks
  {
    hide NoteKey;
  }

  /** A completion teaches its size, and its duration if it has one, to the estimates of its data set. */
  lemma CompletionTeaches(c: Config, s: Sys, t: nat, o: Outcome, victims: Option<seq<string>>, now: int)
    requires t in s.board.tasks
    ensures var s' := CompleteStep(c, s, t, o, victims, now);
            var datasetId := s.board.tasks[t].batch.datasetId;
            && s'.est.size == Averaged(s.est.size, datasetId, o.size as real, c.alpha)
            && s'.est.prep == (if o.seconds.Some? then Averaged(s.est.prep, datasetId, o.seconds.value, c.alpha) else s.est.prep)
  {
    hide Decided, NoteKey, Averaged, Placed, EntryFor, Complete;
    var task := s.board.tasks[t];
    DecisionKeepsEstimates(c, Learned(c, s, task.batch.datasetId, o), task.batch.id, o.size, victims);
  }

  // Recorded sizes are the reported ones.

  predicate SizeTold(entries: Entries, reported: map<string, int>, k: string) {
    k in entries && entries[k].status.EntryAvailable? ==> k in reported && entries[k].size == reported[k]
  }

  predicate SizesTold(s: Sys) {
    forall k :: k in s.board.entries ==> SizeTold(s.board.entries, s.reported, k)
  }

  lemma TasksKeepSizes(s: Sys, batch: Batch, jobId: string, priority: real, storage: StorageClass, now: int)
    requires SizesTold(s)
    ensures SizesTold(AddTask(s, batch, jobId, priority, storage, now))
  {
    var s' := AddTask(s, batch, jobId, priority, storage, now);
    forall k | k in s'.board.entries
      ensures SizeTold(s'.board.entries, s'.reported, k)
    {
      assert k in s.board.entries ==> SizeTold(s.board.entries, s.reported, k);
    }
  }

  lemma {:induction false} ScheduleAllKeepsSizes(c: Config, s: Sys, j: string, batches: seq<Batch>, how: Scheduling)
    requires SizesTold(s)
    ensures SizesTold(ScheduleAll(c, s, j, batches, how))
  {
    hide SizesTold, AddTask, ReadyOrInFlight;
    if batches != [] {
      var n := |batches| - 1;
      ScheduleAllKeepsSizes(c, s, j, batches[..n], how);
      TasksKeepSizes(ScheduleAll(c, s, j, batches[..n], how), batches[n], j, how.priority(batches[n].id),
                     if c.reuse then how.storage(batches[n].id) else Transient, how.now);
    }
  }

  lemma SameEntriesKeepSizes(s: Sys, s': Sys)
    requires SizesTold(s) && s'.board.entries == s.board.entries && s'.reported == s.reported
    ensures SizesTold(s')
  {
  }

  lemma ScheduleKeepsSizes(c: Config, s: Sys, j: string, how: Scheduling)
    requires SizesTold(s)
    ensures SizesTold(ScheduleJobStep(c, s, j, how))
  {
    hide SizesTold, ScheduleAll, TargetDepth, Upcoming, PlanFor;
    if j in s.jobs {
      if s.jobs[j].status.Active? {
        var s1 := Replenished(c, s, j);
        SameEntriesKeepSizes(s, s1);
        ScheduleAllKeepsSizes(c, s1, j, First(TargetDepth(c, s1.est, s1.jobs[j]), Upcoming(s1.jobs[j])), how);
      } else {
        SameEntriesKeepSizes(s, ScheduleJobStep(c, s, j, how));
      }
    }
  }

  lemma StartKeepsSizes(c: Config, s: Sys, j: string, datasetId: string, lookahead: int, how: Scheduling)
    requires SizesTold(s)
    ensures SizesTold(StartJobStep(c, s, j, datasetId, lookahead, how))
  {
    hide SizesTold, ScheduleJobStep, PlanFor;
    if j !in s.jobs && datasetId in s.datasets {
      SameEntriesKeepSizes(s, AddJob(c, s, j, datasetId, lookahead));
      ScheduleKeepsSizes(c, AddJob(c, s, j, datasetId, lookahead), j, how);
    }
  }

  lemma {:induction false} PrefetchAllKeepsSizes(c: Config, s: Sys, ranking: seq<Batch>, slots: nat, now: int)
    requires SizesTold(s)
    ensures SizesTold(PrefetchAll(c, s, ranking, slots, now))
  {
    hide SizesTold, AddTask, CanPrefetch, CanAdmit, Value;
    if ranking != [] {
      var n := |ranking| - 1;
      PrefetchAllKeepsSizes(c, s, ranking[..n], slots, now);
      var s1 := PrefetchAll(c, s, ranking[..n], slots, now);
      TasksKeepSizes(s1, ranking[n], "", Value(c, s1, ranking[n].id, ranking[n].datasetId), Reusable, now);
    }
  }

  lemma TouchKeepsSizes(b: Board, k: string, now: int, reported: map<string, int>)
    requires forall k2 :: k2 in b.entries ==> SizeTold(b.entries, reported, k2)
    ensures forall k2 :: k2 in Touch(b, k, now).entries ==> SizeTold(Touch(b, k, now).entries, reported, k2)
  {
    forall k2 | k2 in Touch(b, k, now).entries
      ensures SizeTold(Touch(b, k, now).entries, reported, k2)
    {
      assert SizeTold(b.entries, reported, k2);
    }
  }

  lemma NextBatchKeepsSizes(c: Config, s: Sys, j: string, feedback: Option<real>, now: int)
    requires SizesTold(s)
    ensures SizesTold(NextBatchStep(c, s, j, feedback, now))
  {
    hide PlanFor, FindBatch, Advanced, Pin, NoteJob, Touch, SizeTold;
    if j in s.jobs {
      var s2 := Prepared(c, WithFeedback(s, j, feedback), j);
      assert s2.board == s.board && s2.reported == s.reported;
      if NextPlanned(s2, j).Some? {
        TouchKeepsSizes(s.board, NextPlanned(s2, j).value.id, now, s.reported);
      }
    }
  }

  lemma {:induction false} EvictAllKeepsSizes(s: Sys, victims: seq<string>)
    requires SizesTold(s)
    ensures SizesTold(EvictAll(s, victims))
  {
    hide InUse, NoteKey;
    if victims != [] {
      EvictAllKeepsSizes(s, victims[..|victims| - 1]);
      RemovalKeepsSizes(EvictAll(s, victims[..|victims| - 1]), victims[|victims| - 1]);
      hide Remove, SizesTold;
    }
  }

  lemma RemovalKeepsSizes(s: Sys, k: string)
    requires SizesTold(s)
    ensures SizesTold(s.(board := Remove(s.board, k))) && SizesTold(Evict(s, k)) && forall now :: SizesTold(ExpireStep(s, k, now))
  {
    hide InUse, NoteKey;
    var b := Remove(s.board, k);
    forall k2 | k2 in b.entries
      ensures SizeTold(b.entries, s.reported, k2)
    {
      assert SizeTold(s.board.entries, s.reported, k2);
    }
    assert forall k2 :: k2 in s.board.entries ==> SizeTold(s.board.entries, s.reported, k2);
    hide Remove, SizeTold;
  }

  lemma CompleteKeepsSizes(c: Config, s: Sys, t: nat, o: Outcome, victims: Option<seq<string>>, now: int)
    requires SizesTold(s) && t in s.board.tasks
    ensures SizesTold(CompleteStep(c, s, t, o, victims, now))
  {
    hide EvictAll, RedisKey, NoteKey, Averaged, Value, Fits, Placed;
    var task := s.board.tasks[t];
    var s1 := Learned(c, s, task.batch.datasetId, o);
    var s2 := if o.InRedis? then Decided(c, s1, task.batch.id, o.size, victims) else s1;
    if o.InRedis? && victims.Some? {
      EvictAllKeepsSizes(s1, victims.value);
      EvictAllKeepsWorkers(s1, victims.value);
      EvictAllKeepsBatches(s1, victims.value, t);
    }
    assert SizesTold(s2) && s2.reported == s.reported && (t in s2.board.tasks ==> s2.board.tasks[t] == task);
    hide Decided, SizesTold, Recorded, EntryFor;
    if t in s2.board.tasks {
      RecordingKeepsSizes(s2, t, EntryFor(task.batch, Placed(c, s1, task.batch.id, o, task.storage, victims), o.size, now));
      EntryHasSize(task.batch, Placed(c, s1, task.batch.id, o, task.storage, victims), o.size, now);
    }
  }

  lemma EntryHasSize(batch: Batch, p: Placement, size: int, now: int)
    ensures EntryFor(batch, p, size, now).size == size
  {
  }

  lemma RecordingKeepsSizes(s: Sys, t: nat, entry: Entry)
    requires SizesTold(s) && t in s.board.tasks
    ensures SizesTold(Recorded(s, t, entry).(reported := s.reported[s.board.tasks[t].batch.id := entry.size]))
  {
    hide NoteKey, Unassigned;
    var s' := Recorded(s, t, entry).(reported := s.reported[s.board.tasks[t].batch.id := entry.size]);
    forall k | k in s'.board.entries
      ensures SizeTold(s'.board.entries, s'.reported, k)
    {
      if k in s.board.entries {
        assert SizeTold(s.board.entries, s.reported, k);
      }
    }
  }

  lemma FailKeepsSizes(s: Sys, t: nat)
    requires SizesTold(s) && t in s.board.tasks
    ensures SizesTold(FailStep(s, t))
  {
    hide NoteKey;
    var s' := FailStep(s, t);
    forall k | k in s'.board.entries
      ensures SizeTold(s'.board.entries, s'.reported, k)
    {
      assert SizeTold(s.board.entries, s.reported, k);
    }
  }

  lemma OthersKeepEntries(c: Config, s: Sys, a: Action)
    requires Allowed(c, s, a)
    requires a.RegisterDataset? || a.Acknowledge? || a.FinishJob? || a.RegisterWorker? || a.Poll? || a.WorkerFinds? || a.WorkerPuts?
    ensures Apply(c, s, a).board.entries == s.board.entries && Apply(c, s, a).reported == s.reported
  {
    hide Chosen, NoteJob, Unpin, RedisKey, PollStep, FinishJobStep;
    match a
    case Poll(w, choice) => PollKeepsEntries(s, w, choice);
    case FinishJob(j, status) => FinishKeepsEntries(s, j, status);
    case _ =>
  }

  lemma PollKeepsEntries(s: Sys, w: string, choice: Option<nat>)
    ensures PollStep(s, w, choice).board.entries == s.board.entries && PollStep(s, w, choice).reported == s.reported
  {
    hide NoteKey, OwnerActive;
  }

  lemma FinishKeepsEntries(s: Sys, j: string, status: JobStatus)
    ensures FinishJobStep(s, j, status).board.entries == s.board.entries && FinishJobStep(s, j, status).reported == s.reported
  {
    hide NoteJob, Release;
  }

  lemma StepKeepsSizes(c: Config, s: Sys, a: Action)
    requires SizesTold(s) && Allowed(c, s, a)
    ensures SizesTold(Apply(c, s, a))
  {
    hide SizesTold, StartJobStep, NextBatchStep, CompleteStep, FailStep, ScheduleJobStep, PrefetchAll, MayPrefetch, ExpireStep,
         Chosen, Ranking, Chooses, IdleWorkers, PendingTasks, RegisterDatasetStep, AcknowledgeStep, FinishJobStep,
         RegisterWorkerStep, PollStep, WorkerFindsStep, WorkerPutsStep, RedisKey;
    match a
    case StartJob(id, datasetId, lookahead, how) => StartKeepsSizes(c, s, id, datasetId, lookahead, how);
    case NextBatch(id, feedback, now) => NextBatchKeepsSizes(c, s, id, feedback, now);
    case CompleteTask(t, o, victims, now) => CompleteKeepsSizes(c, s, t, o, victims, now);
    case FailTask(t) => FailKeepsSizes(s, t);
    case ExpireEntry(k, now) => RemovalKeepsSizes(s, k);
    case ScheduleJob(id, how) => ScheduleKeepsSizes(c, s, id, how);
    case PrefetchPass(ranking, now) =>
      if MayPrefetch(c, s) {
        MayPrefetchHasSlots(c, s);
        PrefetchAllKeepsSizes(c, s, ranking, IdleWorkers(s) - |PendingTasks(s.board)|, now);
      }
    case _ =>
      OthersKeepEntries(c, s, a);
      SameEntriesKeepSizes(s, Apply(c, s, a));
  }

  lemma {:induction false} RunKeepsSizes(c: Config, s: Sys, run: seq<Action>)
    requires SizesTold(s) && ValidRun(c, s, run)
    ensures SizesTold(After(c, s, run))
    decreases |run|
  {
    hide SizesTold, Apply, Allowed;
    if run != [] {
      StepKeepsSizes(c, s, run[0]);
      RunKeepsSizes(c, Apply(c, s, run[0]), run[1..]);
    }
  }

  /** The bytes of some payloads by the sizes that workers reported for them. */
  ghost function ReportedBytes(reported: map<string, int>, keys: set<string>): nat {
    if keys == {} then 0
    else
      var k :| k in keys;
      (if k in reported then Max(0, reported[k]) else 0) + ReportedBytes(reported, keys - {k})
  }

  lemma {:induction false} ReportedPick(reported: map<string, int>, keys: set<string>, k: string)
    requires k in keys
    ensures ReportedBytes(reported, keys) == (if k in reported then Max(0, reported[k]) else 0) + ReportedBytes(reported, keys - {k})
    decreases keys
  {
    var first :| first in keys
      && ReportedBytes(reported, keys) == (if first in reported then Max(0, reported[first]) else 0) + ReportedBytes(reported, keys - {first});
    if first != k {
      ReportedPick(reported, keys - {first}, k);
      ReportedPick(reported, keys - {k}, first);
      assert keys - {first} - {k} == keys - {k} - {first};
    }
  }

  lemma {:induction false} BytesAreReported(entries: Entries, reported: map<string, int>, keys: set<string>)
    requires forall k :: k in keys ==> k in entries && k in reported && entries[k].size == reported[k]
    ensures BytesIn(entries, keys) == ReportedBytes(reported, keys)
    decreases keys
  {
    if keys != {} {
      var k :| k in keys;
      BytesInPick(entries, keys, k);
      ReportedPick(reported, keys, k);
      BytesAreReported(entries, reported, keys - {k});
    }
  }

  /** The payloads that a trainer may be sent to in the bounded cache. */
  function HeldInCache(s: Sys): set<string> {
    set k | k in s.board.handles && s.board.handles[k].location.Redis? && !s.board.handles[k].forced
  }

  lemma HeldAreAdmitted(c: Config, s: Sys)
    requires Inv(c, s)
    ensures HeldInCache(s) == AdmittedKeys(s.board.entries)
  {
    hide JobInv, PinInv, TasksKnown, WorkersTruthful, BudgetKept, PhasesTold, RedisKey;
    forall k: string
      ensures k in HeldInCache(s) <==> k in AdmittedKeys(s.board.entries)
    {
      assert KeyCoherent(s.board, k);
      assert k in s.board.entries ==> EntryTruthful(c, s.redis, k, s.board.entries[k]);
    }
  }

  lemma ToldAt(s: Sys, k: string)
    requires SizesTold(s) && k in AdmittedKeys(s.board.entries)
    ensures k in s.board.entries && k in s.reported && s.board.entries[k].size == s.reported[k]
  {
    assert SizeTold(s.board.entries, s.reported, k);
  }

  /**
   * The budget, in the sizes that workers reported: what the READY handles point to in the cache never
   * exceeds its capacity, and all of it is there.
   */
  lemma BudgetIsKeptAsReported(c: Config, run: seq<Action>)
    requires Permutes(c.shuffle) && ValidRun(c, Init(), run) && c.capacity > 0
    ensures var s := After(c, Init(), run);
            && ReportedBytes(s.reported, HeldInCache(s)) <= c.capacity
            && forall k :: k in HeldInCache(s) ==> k in s.reported && RedisKey(c, k) in s.redis
  {
    hide ValidRun, After, SizesTold, BytesIn, RedisKey, ReportedBytes, AdmittedKeys, HeldInCache;
    RunFromStart(c, run);
    NothingTold();
    RunKeepsSizes(c, Init(), run);
    var s := After(c, Init(), run);
    HeldAreAdmitted(c, s);
    forall k | k in AdmittedKeys(s.board.entries)
      ensures k in s.board.entries && k in s.reported && s.board.entries[k].size == s.reported[k] && RedisKey(c, k) in s.redis
    {
      ToldAt(s, k);
      AdmittedIsThere(c, s, k);
    }
    BytesAreReported(s.board.entries, s.reported, AdmittedKeys(s.board.entries));
    AdmittedWithinBudget(c, s);
  }

  lemma NothingTold()
    ensures SizesTold(Init())
  {
  }

  lemma AdmittedIsThere(c: Config, s: Sys, k: string)
    requires Inv(c, s) && k in AdmittedKeys(s.board.entries)
    ensures RedisKey(c, k) in s.redis
  {
    hide JobInv, PinInv, TasksKnown, WorkersTruthful, BudgetKept, PhasesTold, RedisKey, Coherent;
    assert EntryTruthful(c, s.redis, k, s.board.entries[k]);
  }

  lemma AdmittedWithinBudget(c: Config, s: Sys)
    requires Inv(c, s) && c.capacity > 0
    ensures BytesIn(s.board.entries, AdmittedKeys(s.board.entries)) <= c.capacity
  {
    hide JobInv, PinInv, TasksKnown, WorkersTruthful, PhasesTold, RedisTruthful, Coherent, BytesIn;
  }
}

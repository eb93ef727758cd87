/** Every operation on tasks, entries, workers and Redis keeps the board's part of the invariant. */
module CoordinatorBoardSteps {
  import opened Text
  import opened Sequences
  import opened CoordinatorPlan
  import opened CoordinatorBoard
  import opened CoordinatorPins
  import opened CoordinatorState
  import opened CoordinatorCache
  import opened CoordinatorService
  import opened CoordinatorInvariants

  // Creating a task.

  lemma CreateKeepsTasks(s: Sys, batch: Batch, jobId: string, priority: real, storage: StorageClass, now: int)
    requires TasksKnown(s.datasets, s.jobs, s.board.tasks, s.nextTask)
    requires batch.datasetId in s.datasets && (jobId == "" || ActiveIn(s.jobs, jobId))
    ensures var s' := AddTask(s, batch, jobId, priority, storage, now);
            TasksKnown(s'.datasets, s'.jobs, s'.board.tasks, s'.nextTask)
  {
  }

  lemma CreateKeepsRedis(c: Config, b: Board, t: nat, task: Task, now: int, redis: set<string>, confirmed: set<nat>)
    requires RedisTruthful(c, b.entries, b.tasks, redis, confirmed) && t !in b.tasks
    ensures RedisTruthful(c, CreateTask(b, t, task, now).entries, CreateTask(b, t, task, now).tasks, redis, confirmed)
  {
    hide RedisKey;
  }

  lemma CreateKeepsWorkers(b: Board, t: nat, task: Task, now: int, workers: map<string, set<nat>>)
    requires WorkersTruthful(workers, b.tasks) && t !in b.tasks
    ensures WorkersTruthful(workers, CreateTask(b, t, task, now).tasks)
  {
  }

  lemma CreateKeepsBudget(b: Board, t: nat, task: Task, now: int)
    requires Coherent(b)
    ensures AdmittedBytes(CreateTask(b, t, task, now).entries) == AdmittedBytes(b.entries)
    ensures CreateTask(b, t, task, now).handles == b.handles
  {
    assert KeyCoherent(b, task.batch.id);
    AdmittedSame(b.entries, CreateTask(b, t, task, now).entries);
    hide AdmittedBytes;
  }

  lemma CreateKeepsPhases(b: Board, t: nat, task: Task, now: int, history: KeyHistory)
    requires Coherent(b) && t !in b.tasks && PhasesTold(b, history)
    ensures PhasesTold(CreateTask(b, t, task, now), history)
  {
    var b' := CreateTask(b, t, task, now);
    assert KeyCoherent(b, task.batch.id);
    forall k: string
      ensures PhaseAfter(KeyLog(history, k)) == PhaseOf(b', k)
    {
      assert PhaseAfter(KeyLog(history, k)) == PhaseOf(b, k);
      assert KeyCoherent(b, k);
      hide PhaseAfter, KeyLog;
    }
  }

  lemma AddTaskKeeps(c: Config, s: Sys, batch: Batch, jobId: string, priority: real, storage: StorageClass, now: int)
    requires BoardInv(c, s) && batch.datasetId in s.datasets && (jobId == "" || ActiveIn(s.jobs, jobId))
    ensures BoardInv(c, AddTask(s, batch, jobId, priority, storage, now))
    ensures AddTask(s, batch, jobId, priority, storage, now).board.handles == s.board.handles
  {
    assert s.nextTask !in s.board.tasks;
    CreateKeepsTasks(s, batch, jobId, priority, storage, now);
    var task := Task(batch, jobId, priority, storage, TaskStatus.Pending, "");
    CreateKeepsRedis(c, s.board, s.nextTask, task, now, s.redis, s.confirmed);
    CreateKeepsWorkers(s.board, s.nextTask, task, now, s.workers);
    CreateKeepsBudget(s.board, s.nextTask, task, now);
    CreateKeepsPhases(s.board, s.nextTask, task, now, s.keyHistory);
    CreateKeepsCoherence(s.board, s.nextTask, task, now);
    hide Coherent, TasksKnown, WorkersTruthful, RedisTruthful, AdmittedBytes, PhasesTold, CreateTask;
  }

  // Assigning, failing and completing one.

  lemma AssignKeepsTasks(c: Config, s: Sys, t: nat, w: string)
    requires TasksKnown(s.datasets, s.jobs, s.board.tasks, s.nextTask) && IsPending(s.board, t) && w in s.workers
    requires WorkersTruthful(s.workers, s.board.tasks) && RedisTruthful(c, s.board.entries, s.board.tasks, s.redis, s.confirmed)
    ensures OwnerActive(s, t)
    ensures var b' := Assign(s.board, t, w, true);
            && TasksKnown(s.datasets, s.jobs, b'.tasks, s.nextTask)
            && WorkersTruthful(s.workers[w := s.workers[w] + {t}], b'.tasks)
            && RedisTruthful(c, b'.entries, b'.tasks, s.redis, s.confirmed)
  {
    assert TaskKnown(s.datasets, s.jobs, s.nextTask, t, s.board.tasks[t]);
    hide EntryTruthful, RedisKey;
  }

  lemma AssignKeepsPhases(b: Board, t: nat, w: string, history: KeyHistory)
    requires Coherent(b) && IsPending(b, t) && PhasesTold(b, history)
    ensures PhasesTold(Assign(b, t, w, true), NoteKey(history, b.tasks[t].batch.id, Started))
  {
    var k := b.tasks[t].batch.id;
    assert TaskCoherent(b, t) && KeyCoherent(b, k);
    forall k2: string | k2 != k
      ensures PhaseOf(Assign(b, t, w, true), k2) == PhaseOf(b, k2)
    {
      assert KeyCoherent(b, k2);
    }
    PhaseNoted(b, Assign(b, t, w, true), history, k, Started);
  }

  lemma PollKeeps(c: Config, s: Sys, w: string, choice: Option<nat>)
    requires BoardInv(c, s)
    ensures BoardInv(c, PollStep(s, w, choice)) && PollStep(s, w, choice).board.handles == s.board.handles
  {
    if w in s.workers && choice.Some? && IsPending(s.board, choice.value) {
      AssignKeepsTasks(c, s, choice.value, w);
      AssignKeepsPhases(s.board, choice.value, w, s.keyHistory);
      AssignKeepsCoherence(s.board, choice.value, w, true);
    }
    hide Coherent, PhasesTold, AdmittedBytes, NoteKey, TasksKnown, WorkersTruthful, RedisTruthful, OwnerActive;
  }

  lemma FindingKeeps(c: Config, s: Sys, t: nat)
    requires BoardInv(c, s) && IsRunning(s, t) && RedisKey(c, s.board.tasks[t].batch.id) in s.redis
    ensures BoardInv(c, WorkerFindsStep(s, t))
  {
    hide Coherent, PhasesTold, BudgetKept, TasksKnown, RedisKey, EntryTruthful;
  }

  /** A put concerns no payload that is recorded as stored: the task's own is not, and others have other keys. */
  lemma PuttingKeepsRedis(c: Config, s: Sys, t: nat)
    requires Coherent(s.board) && IsRunning(s, t)
    requires RedisTruthful(c, s.board.entries, s.board.tasks, s.redis, s.confirmed)
    ensures var s' := WorkerPutsStep(c, s, t);
            RedisTruthful(c, s'.board.entries, s'.board.tasks, s'.redis, s'.confirmed)
  {
    hide RedisKey, Coherent;
    var s' := WorkerPutsStep(c, s, t);
    var own := s.board.tasks[t].batch.id;
    RunningIsUnstored(s.board, t);
    forall k | k in s.board.entries
      ensures EntryTruthful(c, s'.redis, k, s.board.entries[k])
    {
      assert EntryTruthful(c, s.redis, k, s.board.entries[k]);
      if RedisKey(c, k) == RedisKey(c, own) {
        RedisKeyInjective(c, k, own);
      }
    }
  }

  lemma RunningIsUnstored(b: Board, t: nat)
    requires Coherent(b) && t in b.tasks && b.tasks[t].status.Running?
    ensures b.tasks[t].batch.id in b.entries && b.entries[b.tasks[t].batch.id].status.EntryPending?
  {
    assert TaskCoherent(b, t) && KeyCoherent(b, b.tasks[t].batch.id);
  }

  lemma PuttingKeeps(c: Config, s: Sys, t: nat)
    requires BoardInv(c, s) && IsRunning(s, t)
    ensures BoardInv(c, WorkerPutsStep(c, s, t))
  {
    hide Coherent, PhasesTold, BudgetKept, TasksKnown, RedisKey, RedisTruthful;
    PuttingKeepsRedis(c, s, t);
  }

  lemma FailKeepsRecords(c: Config, s: Sys, t: nat)
    requires Coherent(s.board) && IsRunning(s, t)
    requires WorkersTruthful(s.workers, s.board.tasks) && BudgetKept(c, s.board.entries)
    requires RedisTruthful(c, s.board.entries, s.board.tasks, s.redis, s.confirmed)
    ensures var s' := FailStep(s, t);
            && WorkersTruthful(s'.workers, s'.board.tasks) && BudgetKept(c, s'.board.entries)
            && RedisTruthful(c, s'.board.entries, s'.board.tasks, s'.redis, s'.confirmed)
  {
    assert TaskCoherent(s.board, t) && KeyCoherent(s.board, s.board.tasks[t].batch.id);
    AdmittedSame(s.board.entries, FailStep(s, t).board.entries);
    hide Coherent, RedisKey, AdmittedBytes, NoteKey;
  }

  lemma FailKeeps(c: Config, s: Sys, t: nat)
    requires BoardInv(c, s) && IsRunning(s, t)
    ensures BoardInv(c, FailStep(s, t)) && FailStep(s, t).board.handles == s.board.handles
  {
    var k := s.board.tasks[t].batch.id;
    var s' := FailStep(s, t);
    FailKeepsCoherence(s.board, t);
    FailKeepsRecords(c, s, t);
    assert TaskCoherent(s.board, t) && KeyCoherent(s.board, k);
    forall k2: string | k2 != k
      ensures PhaseOf(s'.board, k2) == PhaseOf(s.board, k2)
    {
      assert KeyCoherent(s.board, k2);
    }
    PhaseNoted(s.board, s'.board, s.keyHistory, k, Broke);
    hide Coherent, PhasesTold, BudgetKept, NoteKey, WorkersTruthful, RedisTruthful;
  }

  /** What makes it sound to record a completed payload at redis'. */
  predicate FitToRecord(c: Config, s: Sys, t: nat, entry: Entry)
    requires t in s.board.tasks
  {
    && entry.status.EntryAvailable?
    && EntryTruthful(c, s.redis, s.board.tasks[t].batch.id, entry)
  }

  lemma RecordKeepsBudget(c: Config, s: Sys, t: nat, entry: Entry)
    requires Coherent(s.board) && IsRunning(s, t) && BudgetKept(c, s.board.entries)
    requires c.capacity > 0 && Cached(entry) && !entry.forced ==> AdmittedBytes(s.board.entries) + Max(0, entry.size) <= c.capacity
    ensures BudgetKept(c, Recorded(s, t, entry).board.entries)
  {
    var k := s.board.tasks[t].batch.id;
    var e1, e2 := s.board.entries, Recorded(s, t, entry).board.entries;
    assert TaskCoherent(s.board, t) && KeyCoherent(s.board, k);
    assert k !in AdmittedKeys(e1);
    if Cached(entry) && !entry.forced {
      assert AdmittedKeys(e2) == AdmittedKeys(e1) + {k};
      BytesInPick(e2, AdmittedKeys(e2), k);
      assert AdmittedKeys(e2) - {k} == AdmittedKeys(e1);
      BytesInSame(e2, e1, AdmittedKeys(e1));
    } else {
      AdmittedSame(e1, e2);
    }
  }

  /**
   * Recording keeps Redis truthful even when the payload's own key has just been deleted: no other
   * payload and no other running task uses that key.
   */
  lemma RecordKeepsRedis(c: Config, s: Sys, t: nat, entry: Entry, redis: set<string>)
    requires Coherent(s.board) && IsRunning(s, t)
    requires RedisTruthful(c, s.board.entries, s.board.tasks, redis, s.confirmed)
    requires s.redis == redis || s.redis == redis - {RedisKey(c, s.board.tasks[t].batch.id)}
    requires FitToRecord(c, s, t, entry)
    ensures var s' := Recorded(s, t, entry);
            RedisTruthful(c, s'.board.entries, s'.board.tasks, s'.redis, s'.confirmed)
  {
    var k := s.board.tasks[t].batch.id;
    var s' := Recorded(s, t, entry);
    forall k2 | k2 in s'.board.entries
      ensures EntryTruthful(c, s'.redis, k2, s'.board.entries[k2])
    {
      if k2 != k {
        if RedisKey(c, k2) == RedisKey(c, k) {
          RedisKeyInjective(c, k2, k);
        }
        assert EntryTruthful(c, redis, k2, s.board.entries[k2]);
      }
    }
    forall t2 | t2 in s'.confirmed
      ensures t2 in s'.board.tasks && s'.board.tasks[t2].status.Running? && RedisKey(c, s'.board.tasks[t2].batch.id) in s'.redis
    {
      var k2 := s.board.tasks[t2].batch.id;
      if k2 == k {
        OneLiveTaskPerBatch(s.board, t, t2);
      }
      if RedisKey(c, k2) == RedisKey(c, k) {
        RedisKeyInjective(c, k2, k);
      }
    }
  }

  lemma RecordKeepsTasks(s: Sys, t: nat, entry: Entry)
    requires IsRunning(s, t) && TasksKnown(s.datasets, s.jobs, s.board.tasks, s.nextTask) && WorkersTruthful(s.workers, s.board.tasks)
    ensures var s' := Recorded(s, t, entry);
            TasksKnown(s'.datasets, s'.jobs, s'.board.tasks, s'.nextTask) && WorkersTruthful(s'.workers, s'.board.tasks)
  {
  }

  lemma RecordKeepsPhases(s: Sys, t: nat, entry: Entry)
    requires Coherent(s.board) && IsRunning(s, t) && PhasesTold(s.board, s.keyHistory)
    ensures PhasesTold(Recorded(s, t, entry).board, Recorded(s, t, entry).keyHistory)
  {
    var k := s.board.tasks[t].batch.id;
    var s' := Recorded(s, t, entry);
    assert TaskCoherent(s.board, t) && KeyCoherent(s.board, k);
    forall k2: string | k2 != k
      ensures PhaseOf(s'.board, k2) == PhaseOf(s.board, k2)
    {
      assert KeyCoherent(s.board, k2);
    }
    PhaseNoted(s.board, s'.board, s.keyHistory, k, Finished);
  }

  lemma RecordKeeps(c: Config, s: Sys, redis: set<string>, t: nat, entry: Entry)
    requires BoardInv(c, s.(redis := redis)) && IsRunning(s, t) && FitToRecord(c, s, t, entry)
    requires s.redis == redis || s.redis == redis - {RedisKey(c, s.board.tasks[t].batch.id)}
    requires c.capacity > 0 && Cached(entry) && !entry.forced ==> AdmittedBytes(s.board.entries) + Max(0, entry.size) <= c.capacity
    ensures BoardInv(c, Recorded(s, t, entry))
  {
    RecordKeepsBudget(c, s, t, entry);
    RecordKeepsRedis(c, s, t, entry, redis);
    RecordKeepsTasks(s, t, entry);
    RecordKeepsPhases(s, t, entry);
    CompleteKeepsCoherence(s.board, t, entry);
    hide Coherent, PhasesTold, BudgetKept, NoteKey, WorkersTruthful, RedisTruthful, TasksKnown, Complete;
  }

  // Removing a payload.

  lemma RemoveKeepsTasks(s: Sys, k: string)
    requires Coherent(s.board) && k in s.board.entries && s.board.entries[k].status.EntryAvailable?
    requires TasksKnown(s.datasets, s.jobs, s.board.tasks, s.nextTask) && WorkersTruthful(s.workers, s.board.tasks)
    ensures TasksKnown(s.datasets, s.jobs, Remove(s.board, k).tasks, s.nextTask)
    ensures WorkersTruthful(s.workers, Remove(s.board, k).tasks)
  {
    assert KeyCoherent(s.board, k);
  }

  lemma RemoveKeepsPhases(s: Sys, k: string)
    requires Coherent(s.board) && k in s.board.entries && s.board.entries[k].status.EntryAvailable?
    requires PhasesTold(s.board, s.keyHistory)
    ensures PhasesTold(Remove(s.board, k), NoteKey(s.keyHistory, k, Dropped))
  {
    assert KeyCoherent(s.board, k);
    forall k2: string | k2 != k
      ensures PhaseOf(Remove(s.board, k), k2) == PhaseOf(s.board, k2)
    {
      assert KeyCoherent(s.board, k2);
    }
    PhaseNoted(s.board, Remove(s.board, k), s.keyHistory, k, Dropped);
  }

  lemma RemoveKeepsRedis(c: Config, s: Sys, k: string, redis: set<string>)
    requires Coherent(s.board) && k in s.board.entries && s.board.entries[k].status.EntryAvailable?
    requires RedisTruthful(c, s.board.entries, s.board.tasks, s.redis, s.confirmed)
    requires redis == s.redis || (redis == s.redis - {RedisKey(c, k)})
    ensures RedisTruthful(c, Remove(s.board, k).entries, Remove(s.board, k).tasks, redis, s.confirmed)
  {
    assert KeyCoherent(s.board, k);
    var b' := Remove(s.board, k);
    forall k2 | k2 in b'.entries
      ensures EntryTruthful(c, redis, k2, b'.entries[k2])
    {
      assert EntryTruthful(c, s.redis, k2, s.board.entries[k2]);
      if RedisKey(c, k2) == RedisKey(c, k) {
        RedisKeyInjective(c, k2, k);
      }
    }
    forall t | t in s.confirmed
      ensures t in b'.tasks && b'.tasks[t].status.Running? && RedisKey(c, b'.tasks[t].batch.id) in redis
    {
      var k2 := s.board.tasks[t].batch.id;
      assert TaskCoherent(s.board, t);
      if RedisKey(c, k2) == RedisKey(c, k) {
        RedisKeyInjective(c, k2, k);
      }
    }
  }

  lemma RemovalKeeps(c: Config, s: Sys, k: string, redis: set<string>)
    requires BoardInv(c, s) && k in s.board.entries && s.board.entries[k].status.EntryAvailable?
    requires redis == s.redis || redis == s.redis - {RedisKey(c, k)}
    ensures BoardInv(c, s.(board := Remove(s.board, k), redis := redis, keyHistory := NoteKey(s.keyHistory, k, Dropped)))
  {
    RemoveKeepsTasks(s, k);
    RemoveKeepsPhases(s, k);
    RemoveKeepsRedis(c, s, k, redis);
    RemoveKeepsCoherence(s.board, k);
    AdmittedShrinks(s.board.entries, k);
    assert Remove(s.board, k).entries == s.board.entries - {k};
    hide Coherent, PhasesTold, NoteKey, WorkersTruthful, RedisTruthful, TasksKnown, Remove, AdmittedBytes;
  }

  lemma OnlyAvailableExpire(c: Config, s: Sys, k: string, now: int)
    requires Coherent(s.board) && k in s.board.entries && Expired(s.board.entries[k], now)
    ensures s.board.entries[k].status.EntryAvailable?
  {
    assert KeyCoherent(s.board, k);
  }

  lemma ExpireKeeps(c: Config, s: Sys, k: string, now: int)
    requires BoardInv(c, s)
    ensures BoardInv(c, ExpireStep(s, k, now))
  {
    if k in s.board.entries && Expired(s.board.entries[k], now) {
      OnlyAvailableExpire(c, s, k, now);
      RemovalKeeps(c, s, k, s.redis);
    }
    hide BoardInv, Remove, NoteKey;
  }

  lemma EvictKeeps(c: Config, s: Sys, k: string)
    requires BoardInv(c, s) && (k in s.board.entries ==> Cached(s.board.entries[k]))
    ensures BoardInv(c, Evict(s, k))
  {
    if !InUse(s.pins, k) && k in s.board.entries {
      assert EntryTruthful(c, s.redis, k, s.board.entries[k]);
      RemovalKeeps(c, s, k, Evict(s, k).redis);
    }
    hide BoardInv, Remove, NoteKey;
  }

  predicate AllCached(s: Sys, victims: seq<string>) {
    forall i :: 0 <= i < |victims| && victims[i] in s.board.entries ==> Cached(s.board.entries[victims[i]])
  }

  /** Evictions only take entries away; everything but the board, Redis and the history stays. */
  predicate Reduced(s: Sys, s': Sys) {
    && s' == s.(board := s'.board, redis := s'.redis, keyHistory := s'.keyHistory)
    && (forall k :: k in s'.board.entries ==> k in s.board.entries && s'.board.entries[k] == s.board.entries[k])
  }

  lemma EvictReduces(s: Sys, k: string)
    ensures Reduced(s, Evict(s, k))
  {
  }

  lemma {:induction false} EvictAllKeeps(c: Config, s: Sys, victims: seq<string>)
    requires BoardInv(c, s) && AllCached(s, victims)
    ensures BoardInv(c, EvictAll(s, victims)) && Reduced(s, EvictAll(s, victims))
  {
    if victims != [] {
      var n := |victims| - 1;
      var s1 := EvictAll(s, victims[..n]);
      EvictAllKeeps(c, s, victims[..n]);
      EvictKeeps(c, s1, victims[n]);
      EvictReduces(s1, victims[n]);
      hide BoardInv, Evict, Cached;
    }
  }

  // Jobs, data sets and workers coming and going.

  lemma CancelKeeps(c: Config, s: Sys, j: string, status: JobStatus)
    requires BoardInv(c, s) && j in s.jobs && !status.Active?
    ensures BoardInv(c, FinishJobStep(s, j, status)) && FinishJobStep(s, j, status).board.handles == s.board.handles
  {
    hide Coherent, BudgetKept, RedisTruthful, NoteJob, Release, PhasesTold, TasksKnown, WorkersTruthful, CancelTasksOf;
    var s' := FinishJobStep(s, j, status);
    CancelKeepsCoherence(s.board, j);
    CancelKeepsPhases(s.board, j, s.keyHistory);
    CancelKeepsRecords(c, s.board, j, s.workers, s.redis, s.confirmed);
    CancelKeepsTasks(s, j, s'.jobs[j]);
  }

  lemma CancelKeepsPhases(b: Board, j: string, history: KeyHistory)
    requires Coherent(b) && PhasesTold(b, history)
    ensures PhasesTold(CancelTasksOf(b, j), history)
  {
    hide PhaseAfter, KeyLog;
    forall k: string
      ensures PhaseAfter(KeyLog(history, k)) == PhaseOf(CancelTasksOf(b, j), k)
    {
      assert PhaseAfter(KeyLog(history, k)) == PhaseOf(b, k);
      assert KeyCoherent(b, k);
    }
  }

  lemma CancelKeepsRecords(c: Config, b: Board, j: string, workers: map<string, set<nat>>, redis: set<string>, confirmed: set<nat>)
    requires WorkersTruthful(workers, b.tasks) && RedisTruthful(c, b.entries, b.tasks, redis, confirmed)
    ensures var b' := CancelTasksOf(b, j);
            && WorkersTruthful(workers, b'.tasks) && RedisTruthful(c, b'.entries, b'.tasks, redis, confirmed)
            && b'.entries == b.entries && b'.handles == b.handles
  {
    hide RedisKey, EntryTruthful;
  }

  /** Finishing a job for the first time cancels its waiting tasks, and it owned no cancelled one before. */
  lemma CancelKeepsTasks(s: Sys, j: string, job: Job)
    requires TasksKnown(s.datasets, s.jobs, s.board.tasks, s.nextTask) && j in s.jobs && !job.status.Active?
    ensures TasksKnown(s.datasets, s.jobs[j := job], CancelTasksOf(s.board, j).tasks, s.nextTask)
    ensures !s.jobs[j].status.Active? ==> TasksKnown(s.datasets, s.jobs[j := job], s.board.tasks, s.nextTask)
  {
  }

  lemma TouchKeepsPhases(b: Board, k: string, now: int, history: KeyHistory)
    requires PhasesTold(b, history)
    ensures PhasesTold(Touch(b, k, now), history)
  {
    forall k2: string
      ensures PhaseAfter(KeyLog(history, k2)) == PhaseOf(Touch(b, k, now), k2)
    {
      assert PhaseAfter(KeyLog(history, k2)) == PhaseOf(b, k2);
      hide PhaseAfter, KeyLog;
    }
  }

  lemma TouchKeepsRedis(c: Config, b: Board, k: string, now: int, redis: set<string>, confirmed: set<nat>)
    requires RedisTruthful(c, b.entries, b.tasks, redis, confirmed)
    ensures RedisTruthful(c, Touch(b, k, now).entries, b.tasks, redis, confirmed)
    ensures AdmittedBytes(Touch(b, k, now).entries) == AdmittedBytes(b.entries)
  {
    AdmittedSame(b.entries, Touch(b, k, now).entries);
    hide RedisKey, AdmittedBytes;
  }

  lemma TouchKeeps(c: Config, s: Sys, s': Sys, k: string, now: int)
    requires BoardInv(c, s) && s'.board == Touch(s.board, k, now)
    requires s'.datasets == s.datasets && s'.nextTask == s.nextTask && s'.workers == s.workers && s'.redis == s.redis
    requires s'.confirmed == s.confirmed && s'.keyHistory == s.keyHistory
    requires TasksKnown(s'.datasets, s'.jobs, s.board.tasks, s'.nextTask)
    ensures BoardInv(c, s') && s'.board.handles == s.board.handles
  {
    TouchKeepsCoherence(s.board, k, now);
    TouchKeepsPhases(s.board, k, now, s.keyHistory);
    TouchKeepsRedis(c, s.board, k, now, s.redis, s.confirmed);
    hide Coherent, RedisTruthful, AdmittedBytes, TasksKnown, PhasesTold, WorkersTruthful;
  }

  lemma JobUpdateKeepsTasks(s: Sys, j: string, job: Job)
    requires TasksKnown(s.datasets, s.jobs, s.board.tasks, s.nextTask) && j in s.jobs && job.status == s.jobs[j].status
    ensures TasksKnown(s.datasets, s.jobs[j := job], s.board.tasks, s.nextTask)
  {
  }
}

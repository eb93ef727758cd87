/**
 * CoordinatorStore as an object: the original dictionaries as fields that its methods update in
 * place. Each method is proved to be the operation of the same name on the whole state.
 */
module CoordinatorStoreObject {
  import opened Text
  import opened Sequences
  import opened CoordinatorPlan
  import opened CoordinatorBoard
  import opened CoordinatorPins
  import opened CoordinatorState
  import opened CoordinatorCache
  import opened CoordinatorService

  class CoordinatorStore {
    var datasets: map<string, Dataset>
    var jobs: map<string, Job>
    var jobOrder: seq<string>
    var tasks: map<nat, Task>
    var tasksByBatchId: map<string, nat>
    var payloadEntries: map<string, Entry>
    var batchHandles: map<string, Handle>
    var payloadPins: map<string, set<string>>
    var jobPayloadPins: map<string, set<string>>
    var workers: map<string, set<nat>>
    var preparationTime: map<string, real>
    var payloadSize: map<string, real>

    function Tasks(): Board
      reads this
    {
      Board(tasks, tasksByBatchId, payloadEntries, batchHandles)
    }

    function PinMaps(): Pins
      reads this
    {
      Pins(payloadPins, jobPayloadPins)
    }

    constructor ()
      ensures Tasks() == Init().board && PinMaps() == Init().pins
      ensures datasets == map[] && jobs == map[] && jobOrder == [] && workers == map[]
      ensures preparationTime == map[] && payloadSize == map[]
    {
      datasets, jobs, jobOrder := map[], map[], [];
      tasks, tasksByBatchId, payloadEntries, batchHandles := map[], map[], map[], map[];
      payloadPins, jobPayloadPins, workers := map[], map[], map[];
      preparationTime, payloadSize := map[], map[];
    }

    // Data sets and workers.

    method RegisterDataset(d: Dataset)
      modifies this`datasets
      ensures datasets == old(datasets)[d.id := d]
    {
      datasets := datasets[d.id := d];
    }

    method RegisterWorker(worker: string)
      modifies this`workers
      ensures workers == old(workers)[worker := {}]
    {
      workers := workers[worker := {}];
    }

    // Tasks.

    method IsJobActive(jobId: string) returns (active: bool)
      ensures active == (jobId in jobs && jobs[jobId].status.Active?)
    {
      active := jobId in jobs && jobs[jobId].status.Active?;
    }

    /** create_task: the new task's state, or the live one that already serves the batch. */
    method CreateTask(t: nat, task: Task, now: int) returns (current: Option<nat>)
      modifies this`tasks, this`tasksByBatchId, this`payloadEntries
      ensures current.None? <==> task.jobId != "" && !(task.jobId in jobs && jobs[task.jobId].status.Active?)
      ensures Tasks() == if current.None? then old(Tasks()) else CoordinatorBoard.CreateTask(old(Tasks()), t, task, now)
      ensures current.Some? ==> task.batch.id in tasksByBatchId && current.value == tasksByBatchId[task.batch.id]
    {
      var k := task.batch.id;
      if task.jobId != "" {
        var active := IsJobActive(task.jobId);
        if !active {
          return None;
        }
      }
      if k in tasksByBatchId && tasksByBatchId[k] in tasks {
        var status := tasks[tasksByBatchId[k]].status;
        if status.Pending? || status.Running? || status.Completed? {
          return Some(tasksByBatchId[k]);
        }
      }
      tasks := tasks[t := task.(status := TaskStatus.Pending)];
      tasksByBatchId := tasksByBatchId[k := t];
      if k !in payloadEntries {
        payloadEntries := payloadEntries[k := Entry(EntryPending, task.storage, Nowhere, 0, None, now, "", task.batch.datasetId, false)];
      } else if payloadEntries[k].status.EntryFailed? {
        payloadEntries := payloadEntries[k := payloadEntries[k].(status := EntryPending)];
      }
      assert payloadEntries == CoordinatorBoard.CreateTask(old(Tasks()), t, task, now).entries;
      return Some(t);
    }

    method AssignTaskToWorker(t: nat, worker: string) returns (handed: bool)
      requires t in tasks && worker in workers
      modifies this`tasks, this`workers
      ensures var active := old(tasks)[t].jobId == "" || (old(tasks)[t].jobId in jobs && jobs[old(tasks)[t].jobId].status.Active?);
              && Tasks() == Assign(old(Tasks()), t, worker, active)
              && handed == (old(tasks)[t].status.Pending? && active)
              && workers == if handed then old(workers)[worker := old(workers)[worker] + {t}] else old(workers)
    {
      var task := tasks[t];
      if !task.status.Pending? {
        return false;
      }
      if task.jobId != "" {
        var active := IsJobActive(task.jobId);
        if !active {
          tasks := tasks[t := task.(status := Cancelled)];
          return false;
        }
      }
      tasks := tasks[t := task.(status := Running, worker := worker)];
      workers := workers[worker := workers[worker] + {t}];
      return true;
    }

    method ReleaseWorkerOf(t: nat)
      requires t in tasks
      modifies this`workers
      ensures workers == if tasks[t].worker in old(workers)
                         then old(workers)[tasks[t].worker := old(workers)[tasks[t].worker] - {t}] else old(workers)
    {
      var worker := tasks[t].worker;
      if worker in workers {
        workers := workers[worker := workers[worker] - {t}];
      }
    }

    method CompleteTask(t: nat, entry: Entry)
      requires t in tasks
      modifies this`tasks, this`payloadEntries, this`batchHandles, this`workers
      ensures Tasks() == Complete(old(Tasks()), t, entry)
      ensures workers == if old(tasks)[t].worker in old(workers)
                         then old(workers)[old(tasks)[t].worker := old(workers)[old(tasks)[t].worker] - {t}] else old(workers)
    {
      var k := tasks[t].batch.id;
      tasks := tasks[t := tasks[t].(status := Completed)];
      ReleaseWorkerOf(t);
      payloadEntries := payloadEntries[k := entry];
      batchHandles := batchHandles[k := ReadyHandle(k, entry)];
    }

    method FailTask(t: nat)
      requires t in tasks
      modifies this`tasks, this`payloadEntries, this`workers
      ensures Tasks() == Fail(old(Tasks()), t)
      ensures workers == if old(tasks)[t].worker in old(workers)
                         then old(workers)[old(tasks)[t].worker := old(workers)[old(tasks)[t].worker] - {t}] else old(workers)
    {
      var k := tasks[t].batch.id;
      tasks := tasks[t := tasks[t].(status := TaskStatus.Failed)];
      ReleaseWorkerOf(t);
      if k in payloadEntries {
        payloadEntries := payloadEntries[k := payloadEntries[k].(status := EntryFailed)];
      }
    }

    /** finish_job: closes the job once and cancels its waiting tasks one by one. */
    method FinishJob(jobId: string, status: JobStatus)
      requires jobId in jobs
      modifies this`jobs, this`tasks
      ensures old(jobs)[jobId].status.Active? ==>
                jobs == old(jobs)[jobId := old(jobs)[jobId].(status := status)] && Tasks() == CancelTasksOf(old(Tasks()), jobId)
      ensures !old(jobs)[jobId].status.Active? ==> jobs == old(jobs) && tasks == old(tasks)
    {
      if !jobs[jobId].status.Active? {
        return;
      }
      jobs := jobs[jobId := jobs[jobId].(status := status)];
      var todo := tasks.Keys;
      while todo != {}
        invariant todo <= tasks.Keys == old(tasks).Keys
        invariant forall t :: t in tasks ==> tasks[t] == if t in todo then old(tasks)[t] else Cancelling(old(tasks)[t], jobId)
        decreases todo
        modifies this`tasks
      {
        var t :| t in todo;
        if tasks[t].jobId == jobId && tasks[t].status.Pending? {
          tasks := tasks[t := tasks[t].(status := Cancelled)];
        }
        todo := todo - {t};
      }
      assert tasks == CancelTasksOf(old(Tasks()), jobId).tasks;
    }

    /** issue_batch_to_job */
    method IssueBatchToJob(jobId: string, batch: Batch)
      requires jobId in jobs
      modifies this`jobs
      ensures jobs == old(jobs)[jobId := Issue(old(jobs)[jobId], batch)]
    {
      var job := jobs[jobId];
      if job.status.Active? && job.epoch == batch.epoch && job.next == batch.index {
        jobs := jobs[jobId := job.(next := batch.index + 1)];
      }
    }

    method UpdateRuntimeMetrics(jobId: string, compute: real)
      requires jobId in jobs
      modifies this`jobs
      ensures jobs == old(jobs)[jobId := old(jobs)[jobId].(compute := compute)]
    {
      jobs := jobs[jobId := jobs[jobId].(compute := compute)];
    }

    /** update_job_progress with advance_to_next_epoch */
    method AdvanceToNextEpoch(jobId: string)
      requires jobId in jobs
      modifies this`jobs
      ensures jobs == old(jobs)[jobId := old(jobs)[jobId].(epoch := old(jobs)[jobId].epoch + 1, next := 0)]
    {
      jobs := jobs[jobId := jobs[jobId].(epoch := jobs[jobId].epoch + 1, next := 0)];
    }

    /** start_job; false stands for the errors about a known job and an unknown data set. */
    method StartJob(jobId: string, datasetId: string, lookahead: int) returns (started: bool)
      modifies this`jobs, this`jobOrder
      ensures started == (jobId !in old(jobs) && datasetId in datasets)
      ensures jobs == if started then old(jobs)[jobId := Job(datasetId, lookahead, 0, 0, Active, 0.0, [])] else old(jobs)
      ensures jobOrder == if started then old(jobOrder) + [jobId] else old(jobOrder)
    {
      if jobId in jobs {
        return false;
      }
      if datasetId !in datasets {
        return false;
      }
      jobs := jobs[jobId := Job(datasetId, lookahead, 0, 0, Active, 0.0, [])];
      jobOrder := jobOrder + [jobId];
      return true;
    }

    method SetPlannedWindow(jobId: string, batches: seq<Batch>)
      requires jobId in jobs
      modifies this`jobs
      ensures jobs == old(jobs)[jobId := old(jobs)[jobId].(planned := batches)]
    {
      jobs := jobs[jobId := jobs[jobId].(planned := batches)];
    }

    /** get_batch */
    method GetBatch(jobId: string, epoch: nat, index: nat) returns (batch: Option<Batch>)
      requires jobId in jobs
      ensures batch == FindBatch(jobs[jobId].planned, epoch, index)
    {
      var planned := jobs[jobId].planned;
      for i := 0 to |planned|
        invariant FindBatch(planned, epoch, index) == FindBatch(planned[i..], epoch, index)
      {
        assert planned[i..][1..] == planned[i + 1..];
        if planned[i].epoch == epoch && planned[i].index == index {
          return Some(planned[i]);
        }
      }
      return None;
    }

    // Estimates.

    method UpdatePreparationTime(datasetId: string, seconds: real, alpha: real)
      modifies this`preparationTime
      ensures preparationTime == Averaged(old(preparationTime), datasetId, seconds, alpha)
    {
      hide Blend;
      if seconds > 0.0 {
        var a := Clipped(alpha);
        if datasetId in preparationTime {
          preparationTime := preparationTime[datasetId := Blend(a, seconds, preparationTime[datasetId])];
        } else {
          preparationTime := preparationTime[datasetId := seconds];
        }
      }
    }

    method UpdatePayloadSizeEstimate(datasetId: string, size: int, alpha: real)
      modifies this`payloadSize
      ensures payloadSize == Averaged(old(payloadSize), datasetId, size as real, alpha)
    {
      hide Blend;
      if size > 0 {
        var a := Clipped(alpha);
        if datasetId in payloadSize {
          payloadSize := payloadSize[datasetId := Blend(a, size as real, payloadSize[datasetId])];
        } else {
          payloadSize := payloadSize[datasetId := size as real];
        }
      }
    }

    /** touch_payload */
    method TouchPayload(k: string, now: int)
      modifies this`payloadEntries
      ensures Tasks() == Touch(old(Tasks()), k, now)
    {
      if k in payloadEntries {
        payloadEntries := payloadEntries[k := payloadEntries[k].(lastAccessed := now)];
      }
    }

    // Pins.

    method PinPayload(k: string, jobId: string)
      modifies this`payloadPins, this`jobPayloadPins
      ensures PinMaps() == if k in payloadEntries then Pin(old(PinMaps()), k, jobId) else old(PinMaps())
    {
      if k in payloadEntries {
        payloadPins := payloadPins[k := (if k in payloadPins then payloadPins[k] else {}) + {jobId}];
        jobPayloadPins := jobPayloadPins[jobId := (if jobId in jobPayloadPins then jobPayloadPins[jobId] else {}) + {k}];
      }
    }

    method UnpinPayload(k: string, jobId: string)
      modifies this`payloadPins, this`jobPayloadPins
      ensures PinMaps() == Unpin(old(PinMaps()), k, jobId)
    {
      if k in payloadPins {
        payloadPins := payloadPins[k := payloadPins[k] - {jobId}];
        if payloadPins[k] == {} {
          payloadPins := payloadPins - {k};
        }
      }
      if jobId in jobPayloadPins {
        jobPayloadPins := jobPayloadPins[jobId := jobPayloadPins[jobId] - {k}];
        if jobPayloadPins[jobId] == {} {
          jobPayloadPins := jobPayloadPins - {jobId};
        }
      }
      assert payloadPins == Unpin(old(PinMaps()), k, jobId).byKey;
      assert jobPayloadPins == Unpin(old(PinMaps()), k, jobId).byJob;
    }

    /** release_job_payload_pins: visiting the job's own keys reaches every payload it holds. */
    method ReleaseJobPayloadPins(jobId: string)
      requires PinsAgree(PinMaps())
      modifies this`payloadPins, this`jobPayloadPins
      ensures PinMaps() == Release(old(PinMaps()), jobId)
    {
      hide PinsAgree;
      ghost var before := PinMaps();
      var keys := if jobId in jobPayloadPins then jobPayloadPins[jobId] else {};
      jobPayloadPins := jobPayloadPins - {jobId};
      ghost var all := keys;
      while keys != {}
        invariant keys <= all == KeysOf(before, jobId)
        invariant forall k :: k in payloadPins <==> k in before.byKey && (k in all - keys ==> before.byKey[k] - {jobId} != {})
        invariant forall k :: k in payloadPins ==>
                    payloadPins[k] == if k in all - keys then before.byKey[k] - {jobId} else before.byKey[k]
        decreases keys
        modifies this`payloadPins
      {
        var k :| k in keys;
        if k in payloadPins {
          payloadPins := payloadPins[k := payloadPins[k] - {jobId}];
          if payloadPins[k] == {} {
            payloadPins := payloadPins - {k};
          }
        }
        keys := keys - {k};
      }
      ReleasedKeys(before, jobId, payloadPins);
    }

    /** remove_payload: refuses a payload that is in use; otherwise nothing of it stays behind. */
    method RemovePayload(k: string) returns (removed: Option<Entry>)
      requires PinsAgree(PinMaps())
      modifies this`tasks, this`tasksByBatchId, this`payloadEntries, this`batchHandles, this`payloadPins, this`jobPayloadPins
      ensures PinMaps() == old(PinMaps())
      ensures removed == if InUse(old(PinMaps()), k) || k !in old(payloadEntries) then None else Some(old(payloadEntries)[k])
      ensures Tasks() == if removed.None? then old(Tasks()) else Remove(old(Tasks()), k)
    {
      if k in payloadPins && payloadPins[k] != {} {
        return None;
      }
      if k !in payloadEntries {
        return None;
      }
      var entry := payloadEntries[k];
      payloadEntries := payloadEntries - {k};
      batchHandles := batchHandles - {k};
      if k in tasksByBatchId {
        var t := tasksByBatchId[k];
        tasksByBatchId := tasksByBatchId - {k};
        tasks := tasks - {t};
      }
      payloadPins := payloadPins - {k};
      ghost var before := old(PinMaps());
      assert payloadPins == before.byKey;
      var todo := jobPayloadPins.Keys;
      while todo != {}
        invariant jobPayloadPins == before.byJob && todo <= before.byJob.Keys
        decreases todo
        modifies this`jobPayloadPins
      {
        var j :| j in todo;
        assert !Related(before.byKey, k, j) && !Related(before.byJob, j, k);
        assert jobPayloadPins[j] - {k} == jobPayloadPins[j];
        jobPayloadPins := Without(jobPayloadPins, j, k);
        todo := todo - {j};
      }
      assert tasksByBatchId == Remove(old(Tasks()), k).index;
      return Some(entry);
    }

    // Counting.

    /** reusable_cache_bytes */
    method ReusableCacheBytes() returns (bytes: nat)
      ensures bytes == CacheBytes(payloadEntries)
      ensures bytes == BytesIn(payloadEntries, set k | k in payloadEntries && payloadEntries[k].status.EntryAvailable?
                                                       && payloadEntries[k].storage.Reusable? && payloadEntries[k].location.Redis?)
    {
      bytes := 0;
      var todo := payloadEntries.Keys;
      ghost var seen: set<string> := {};
      while todo != {}
        invariant todo <= payloadEntries.Keys && seen == (CachedKeys(payloadEntries) - todo)
        invariant bytes == BytesIn(payloadEntries, seen)
        decreases todo
      {
        var k :| k in todo;
        if Cached(payloadEntries[k]) {
          bytes := bytes + Max(0, payloadEntries[k].size);
          BytesInPick(payloadEntries, seen + {k}, k);
          assert seen + {k} - {k} == seen;
          seen := seen + {k};
        }
        todo := todo - {k};
      }
      assert seen == CachedKeys(payloadEntries);
      assert seen == set k | k in payloadEntries && payloadEntries[k].status.EntryAvailable?
                             && payloadEntries[k].storage.Reusable? && payloadEntries[k].location.Redis?;
    }

    /** upcoming_batches */
    method UpcomingBatches(jobId: string) returns (batches: seq<Batch>)
      requires jobId in jobs
      ensures batches == Upcoming(jobs[jobId])
    {
      var job := jobs[jobId];
      batches := [];
      for i := 0 to |job.planned|
        invariant batches == Ahead(job.planned[..i], job.epoch, job.next)
      {
        assert job.planned[..i + 1][..i] == job.planned[..i];
        if job.planned[i].epoch == job.epoch && job.planned[i].index >= job.next {
          batches := batches + [job.planned[i]];
        }
      }
      assert job.planned[..|job.planned|] == job.planned;
    }

    /** count_ready_or_inflight_in_window, from the job's own position. */
    method CountReadyOrInflight(jobId: string, limit: nat) returns (count: nat)
      requires jobId in jobs
      ensures count == CoveredCount(Tasks(), First(limit, Upcoming(jobs[jobId])))
    {
      var job := jobs[jobId];
      count := 0;
      var considered, i := 0, 0;
      while i < |job.planned|
        invariant i <= |job.planned| && considered <= limit
        invariant considered == |Ahead(job.planned[..i], job.epoch, job.next)|
        invariant count == CoveredCount(Tasks(), Ahead(job.planned[..i], job.epoch, job.next))
      {
        var batch := job.planned[i];
        assert job.planned[..i + 1][..i] == job.planned[..i];
        if batch.epoch == job.epoch && batch.index >= job.next {
          if considered >= limit {
            break;
          }
          considered := considered + 1;
          if IsReady(Tasks(), batch.id) || InProgress(Tasks(), batch.id) {
            count := count + 1;
          }
        }
        i := i + 1;
      }
      AheadPrefix(job.planned, i, job.epoch, job.next);
      assert job.planned[..|job.planned|] == job.planned;
      assert Ahead(job.planned[..i], job.epoch, job.next) == First(limit, Upcoming(job));
    }

    /** count_pending_tasks */
    method CountPendingTasks() returns (count: nat)
      ensures count == |PendingTasks(Tasks())|
    {
      count := 0;
      var todo := tasks.Keys;
      ghost var seen: set<nat> := {};
      while todo != {}
        invariant todo <= tasks.Keys && seen == PendingTasks(Tasks()) - todo && count == |seen|
        decreases todo
      {
        var t :| t in todo;
        if tasks[t].status.Pending? {
          count := count + 1;
          seen := seen + {t};
        }
        todo := todo - {t};
      }
      assert seen == PendingTasks(Tasks());
    }

    /** count_idle_workers */
    method CountIdleWorkers() returns (count: nat)
      ensures count == CountWhere(workers)
    {
      count := 0;
      var all := workers;
      var todo := all.Keys;
      ghost var seen: set<string> := {};
      while todo != {}
        invariant todo <= all.Keys && count == |seen|
        invariant forall w :: w in seen <==> w in all && w !in todo && all[w] == {}
        decreases todo
      {
        var w :| w in todo;
        if all[w] == {} {
          count := count + 1;
          seen := seen + {w};
        }
        todo := todo - {w};
      }
      assert seen == set w | w in all && all[w] == {};
    }

    /** choose_next_task_for_worker: the first of the best waiting tasks, near-term demand first. */
    method ChooseNextTask() returns (choice: Option<nat>)
      ensures Chosen(Tasks(), choice)
    {
      choice := None;
      var todo := tasks.Keys;
      while todo != {}
        invariant todo <= tasks.Keys
        invariant choice.Some? ==> IsPending(Tasks(), choice.value) && choice.value !in todo
        invariant forall t :: t in tasks && t !in todo && tasks[t].status.Pending? ==>
                    choice.Some? && (t == choice.value || Behind(tasks[t], t, tasks[choice.value], choice.value))
        decreases todo
      {
        var t :| t in todo;
        if tasks[t].status.Pending? && (choice.None? || Behind(tasks[choice.value], choice.value, tasks[t], t)) {
          choice := Some(t);
        }
        todo := todo - {t};
      }
    }
  }

  /** Dropping a job from the payloads that it holds is dropping it everywhere. */
  lemma ReleasedKeys(p: Pins, j: string, rest: map<string, set<string>>)
    requires PinsAgree(p)
    requires forall k :: k in rest <==> k in p.byKey && (k in KeysOf(p, j) ==> p.byKey[k] - {j} != {})
    requires forall k :: k in rest ==> rest[k] == if k in KeysOf(p, j) then p.byKey[k] - {j} else p.byKey[k]
    ensures rest == Release(p, j).byKey
  {
    forall k | k in p.byKey
      ensures k !in KeysOf(p, j) ==> p.byKey[k] - {j} == p.byKey[k] != {}
    {
      assert Related(p.byKey, k, j) <==> Related(p.byJob, j, k);
    }
  }

  lemma {:induction false} AheadPrefix(planned: seq<Batch>, i: nat, epoch: nat, next: nat)
    requires i <= |planned|
    ensures Ahead(planned[..i], epoch, next) <= Ahead(planned, epoch, next)
    ensures i < |planned| && planned[i].epoch == epoch && planned[i].index >= next ==>
              |Ahead(planned[..i], epoch, next)| < |Ahead(planned, epoch, next)|
  {
    if i == |planned| {
      assert planned[..i] == planned;
    } else {
      var n := |planned| - 1;
      AheadPrefix(planned[..n], i, epoch, next);
      assert planned[..n][..i] == planned[..i];
    }
  }
}

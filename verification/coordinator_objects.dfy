/**
 * CoordinatorService with its cache manager and scheduler as an object over the store. Its methods
 * keep the original loops and are proved to be the steps of the coordinator model.
 */
module CoordinatorObjects {
  import opened Text
  import opened Sequences
  import opened CoordinatorPlan
  import opened CoordinatorBoard
  import opened CoordinatorPins
  import opened CoordinatorState
  import opened CoordinatorCache
  import opened CoordinatorService
  import opened CoordinatorInvariants
  import opened CoordinatorLinks
  import opened CoordinatorCompletion
  import CoordinatorAdmission
  import opened CoordinatorStoreObject

  class Coordinator {
    const c: Config
    const store: CoordinatorStore
    const planner: BatchCoordinator
    var redis: set<string>
    var nextTask: nat
    ghost var confirmed: set<nat>
    ghost var made: set<nat>
    ghost var keyHistory: KeyHistory
    ghost var jobHistory: JobHistory
    ghost var reported: map<string, int>

    ghost function Snapshot(): Sys
      reads this, store
    {
      Sys(store.datasets, store.jobs, store.jobOrder, store.Tasks(), store.PinMaps(), store.workers,
          Estimates(store.preparationTime, store.payloadSize), nextTask, redis, confirmed, made,
          keyHistory, jobHistory, reported)
    }

    /** Sound data sets and a truthful memo of plans. */
    ghost predicate PlansValid()
      reads this, store, planner
    {
      && planner.shuffle == c.shuffle && planner.defaultLookahead == c.defaultLookahead && planner.Valid(store.datasets)
      && DatasetsSound(store.datasets)
    }

    /** What every call needs and leaves behind. */
    ghost predicate Valid()
      reads this, store, planner
    {
      PlansValid() && Linked(Snapshot())
    }

    constructor (c: Config)
      ensures this.c == c && fresh(store) && fresh(planner) && Snapshot() == Init() && Valid()
    {
      this.c := c;
      store := new CoordinatorStore();
      planner := new BatchCoordinator(c.shuffle, c.defaultLookahead);
      redis, nextTask := {}, 0;
      confirmed, made, keyHistory, jobHistory, reported := {}, {}, map[], map[], map[];
    }

    // The value of a payload.

    method PositionOf(k: string, batches: seq<Batch>) returns (p: Option<nat>)
      ensures p == Position(batches, k)
    {
      for i := 0 to |batches|
        invariant Position(batches, k) == Shifted(Position(batches[i..], k), i)
      {
        assert batches[i..][1..] == batches[i + 1..];
        if batches[i].id == k {
          return Some(i);
        }
      }
      return None;
    }

    /** compute_cache_key_value */
    method ComputeCacheKeyValue(k: string, datasetId: string) returns (value: real)
      ensures value == Value(c, Snapshot(), k, datasetId)
    {
      hide CoveredCount, Position, Upcoming, TargetDepth, ExtendedDepth, PrepEstimate, Demand, Shortage, First;
      if !c.reuse {
        return 0.0;
      }
      var demand, shortage := 0.0, 0.0;
      ghost var s := Snapshot();
      var order := store.jobOrder;
      NobodyDemands(c, s, k, datasetId);
      for i := 0 to |order|
        invariant demand == Demand(c, s, order[..i], k, datasetId)
        invariant shortage == Shortage(c, s, order[..i], k, datasetId)
      {
        var j := order[i];
        DemandStep(c, s, order, i, k, datasetId);
        if j in store.jobs && store.jobs[j].status.Active? && store.jobs[j].datasetId == datasetId {
          var job := store.jobs[j];
          var est := Estimates(store.preparationTime, store.payloadSize);
          var depth := TargetDepth(c, est, job);
          var upcoming := store.UpcomingBatches(j);
          var position := PositionOf(k, First(ExtendedDepth(c, est, job), upcoming));
          if position.Some? {
            demand := demand + 1.0 / (position.value + 1) as real;
            var prepared := store.CountReadyOrInflight(j, depth);
            var ratio := prepared as real / depth as real;
            shortage := shortage + (1.0 - if ratio <= 1.0 then ratio else 1.0);
          }
        }
      }
      assert order[..|order|] == order;
      if demand <= 0.0 {
        return 0.0;
      }
      return demand * PrepEstimate(Estimates(store.preparationTime, store.payloadSize), datasetId, 1.0) * (1.0 + c.beta * shortage);
    }

    method ComputePayloadValue(k: string) returns (value: real)
      requires k in store.payloadEntries
      ensures value == PayloadValue(c, Snapshot(), k)
    {
      if store.payloadEntries[k].datasetId == "" {
        return 0.0;
      }
      value := ComputeCacheKeyValue(k, store.payloadEntries[k].datasetId);
    }

    // Eviction.

    method ComesBefore(a: string, b: string) returns (before: bool)
      requires a in store.payloadEntries && b in store.payloadEntries
      ensures before == Before(c, Snapshot(), a, b)
    {
      var va := ComputePayloadValue(a);
      var vb := ComputePayloadValue(b);
      var ta, tb := store.payloadEntries[a].lastAccessed, store.payloadEntries[b].lastAccessed;
      before := va < vb || (va == vb && (ta < tb || (ta == tb && Precedes(a, b))));
    }

    /** One step of the sort: puts k where it belongs among the ranked payloads. */
    method InsertRanked(ranked: seq<string>, k: string) returns (r: seq<string>)
      requires Ranked(c, Snapshot(), ranked) && k in store.payloadEntries && k !in ranked
      ensures Ranked(c, Snapshot(), r) && forall x :: x in r <==> x in ranked || x == k
    {
      ghost var s := Snapshot();
      var i := 0;
      while i < |ranked|
        invariant i <= |ranked|
        invariant forall m :: 0 <= m < i ==> Before(c, s, ranked[m], k)
      {
        var before := ComesBefore(k, ranked[i]);
        if before {
          break;
        }
        BeforeIsTotal(c, s, k, ranked[i]);
        i := i + 1;
      }
      r := ranked[..i] + [k] + ranked[i..];
      InsertedRanked(c, s, ranked, k, i);
    }

    /** The candidates in the order in which they would be given up. */
    method RankCandidates(incoming: real) returns (ranked: seq<string>)
      ensures Ranked(c, Snapshot(), ranked)
      ensures forall k :: k in ranked <==> k in Candidates(c, Snapshot(), incoming)
    {
      ghost var s := Snapshot();
      ranked := [];
      var todo := store.payloadEntries.Keys;
      while todo != {}
        invariant todo <= store.payloadEntries.Keys && Ranked(c, s, ranked)
        invariant forall k :: k in ranked <==> k in Candidates(c, s, incoming) - todo
        decreases todo
      {
        var k :| k in todo;
        if Cached(store.payloadEntries[k]) && !InUse(store.PinMaps(), k) {
          var value := ComputePayloadValue(k);
          if value < incoming {
            ranked := InsertRanked(ranked, k);
          }
        }
        todo := todo - {k};
      }
    }

    /** Takes ranked payloads one by one until enough bytes are freed. */
    method TakeUntilEnough(ranked: seq<string>, need: int, ghost incoming: real) returns (victims: Option<seq<string>>)
      requires Ranked(c, Snapshot(), ranked) && need > 0
      requires forall k :: k in ranked <==> k in Candidates(c, Snapshot(), incoming)
      ensures victims.Some? ==> GreedyPrefix(c, Snapshot(), Candidates(c, Snapshot(), incoming), need, victims.value)
      ensures victims.None? <==> Freed(store.payloadEntries, ranked) < need
    {
      hide PayloadValue, Before, Ranked, GreedyPrefix, CachedKeys, InUse;
      ghost var s := Snapshot();
      var freed, i := 0, 0;
      while i < |ranked|
        invariant i <= |ranked| && freed == Freed(s.board.entries, ranked[..i]) < need
      {
        assert ranked[..i + 1][..i] == ranked[..i];
        RankedKeysExist(c, s, ranked, i);
        freed := freed + Max(0, store.payloadEntries[ranked[i]].size);
        i := i + 1;
        if freed >= need {
          FreedGrows(s.board.entries, ranked, i);
          PrefixIsGreedy(c, s, Candidates(c, s, incoming), need, ranked, i);
          return Some(ranked[..i]);
        }
      }
      assert ranked[..i] == ranked;
      return None;
    }

    /** _choose_eviction_victims */
    method ChooseEvictionVictims(incoming: real, size: int) returns (victims: Option<seq<string>>)
      ensures Chooses(c, Snapshot(), incoming, size, victims)
    {
      hide PayloadValue, Before, Ranked, GreedyPrefix, CachedKeys, InUse, BytesIn, Freed, Candidates;
      if c.capacity <= 0 {
        return Some([]);
      }
      if Max(0, size) > c.capacity {
        return None;
      }
      var bytes := store.ReusableCacheBytes();
      var need := bytes + Max(0, size) - c.capacity;
      if need <= 0 {
        return Some([]);
      }
      var ranked := RankCandidates(incoming);
      RankedBytes(c, Snapshot(), ranked, Candidates(c, Snapshot(), incoming));
      victims := TakeUntilEnough(ranked, need, incoming);
    }

    /** _evict_reusable_payload */
    method EvictPayload(k: string)
      requires PinsAgree(store.PinMaps())
      modifies this`redis, this`keyHistory, store
      ensures Snapshot() == Evict(old(Snapshot()), k)
    {
      var removed := store.RemovePayload(k);
      if removed.Some? {
        if removed.value.fetchKey != "" {
          redis := redis - {removed.value.fetchKey};
        }
        keyHistory := NoteKey(keyHistory, k, Dropped);
      }
    }

    method EvictChosen(victims: seq<string>)
      requires PinsAgree(store.PinMaps())
      modifies this`redis, this`keyHistory, store
      ensures Snapshot() == EvictAll(old(Snapshot()), victims)
    {
      hide PinsAgree, Evict, EvictAll;
      CoordinatorAdmission.EvictNothing(Snapshot());
      for i := 0 to |victims|
        invariant Snapshot() == EvictAll(old(Snapshot()), victims[..i]) && PinsAgree(store.PinMaps())
      {
        EvictOneMore(old(Snapshot()), victims, i);
        EvictKeepsPinMaps(Snapshot(), victims[i]);
        EvictPayload(victims[i]);
      }
      assert victims[..|victims|] == victims;
    }

    /** admit_reusable_payload: makes room if the policy allows it, else falls back. */
    method AdmitReusablePayload(k: string, datasetId: string, size: int, fallback: Option<Fallback>)
        returns (p: Placement, ghost victims: Option<seq<string>>)
      requires Valid()
      modifies this`redis, this`keyHistory, store
      ensures Valid()
      ensures Chooses(c, old(Snapshot()), Value(c, old(Snapshot()), k, datasetId), size, victims)
      ensures Snapshot() == Decided(c, old(Snapshot()), k, size, victims)
      ensures p == if Fits(c, old(Snapshot()), size, victims) then Placement(Reusable, Redis, None, RedisKey(c, k), false)
                   else Rejected(RedisKey(c, k), fallback)
    {
      hide Value, Chooses, Evict, EvictAll, BytesIn, CachedKeys, PinsAgree, DatasetsSound, JobsRegistered;
      ghost var s := Snapshot();
      var incoming := ComputeCacheKeyValue(k, datasetId);
      var chosen := ChooseEvictionVictims(incoming, size);
      victims := chosen;
      DecisionKeepsLinks(c, s, k, size, victims);
      if chosen.Some? {
        EvictChosen(chosen.value);
        var bytes := store.ReusableCacheBytes();
        if c.capacity <= 0 || bytes + size <= c.capacity {
          return Placement(Reusable, Redis, None, RedisKey(c, k), false), victims;
        }
      }
      redis := redis - {RedisKey(c, k)};
      if fallback.None? || fallback.value.host == "" || fallback.value.port <= 0 || fallback.value.key == "" {
        return Placement(Reusable, Redis, None, RedisKey(c, k), true), victims;
      }
      var expires := if fallback.value.expires == 0 then None else Some(fallback.value.expires);
      return Placement(Transient, Worker(fallback.value.host, fallback.value.port), expires, fallback.value.key, false), victims;
    }

    // Worker calls.

    method LearnFrom(datasetId: string, o: Outcome)
      modifies store`preparationTime, store`payloadSize
      ensures Snapshot() == Learned(c, old(Snapshot()), datasetId, o)
    {
      hide Averaged;
      if o.seconds.Some? {
        store.UpdatePreparationTime(datasetId, o.seconds.value, c.alpha);
      }
      store.UpdatePayloadSizeEstimate(datasetId, o.size, c.alpha);
    }

    method Record(t: nat, entry: Entry)
      requires t in store.tasks
      modifies this`confirmed, this`made, this`keyHistory, store
      ensures Snapshot() == Recorded(old(Snapshot()), t, entry)
    {
      hide Complete, NoteKey;
      keyHistory := NoteKey(keyHistory, store.tasks[t].batch.id, Finished);
      confirmed, made := confirmed - {t}, made - {t};
      store.CompleteTask(t, entry);
    }

    /** complete_materialization */
    method CompleteMaterialization(t: nat, o: Outcome, now: int) returns (ghost victims: Option<seq<string>>)
      requires Valid() && t in store.tasks
      modifies this`redis, this`confirmed, this`made, this`keyHistory, this`reported, store
      ensures Valid()
      ensures Snapshot() == CompleteStep(c, old(Snapshot()), t, o, victims, now)
      ensures t in store.tasks ==>
                var task := old(store.tasks)[t];
                (task.batch.id in store.payloadEntries && AboutReport(store.payloadEntries[task.batch.id], task, o, now))
      ensures o.InRedis? ==>
                var s1 := Learned(c, old(Snapshot()), old(store.tasks)[t].batch.datasetId, o);
                Chooses(c, s1, Value(c, s1, old(store.tasks)[t].batch.id, old(store.tasks)[t].batch.datasetId), o.size, victims)
    {
      hide Value, Chooses, Fits, Decided, Learned, Recorded, Rejected, PinsAgree, DatasetsSound, JobsRegistered;
      victims := None;
      var task := store.tasks[t];
      LearnFrom(task.batch.datasetId, o);
      LearnedKeepsRest(c, old(Snapshot()), task.batch.datasetId, o);
      var p: Placement;
      match o {
        case InRedis(size, fallback, _) =>
          p, victims := AdmitReusablePayload(task.batch.id, task.batch.datasetId, size, fallback);
        case InWorker(host, port, _, expires, _) =>
          p := Placement(task.storage, Worker(host, port), expires, task.batch.id, false);
      }
      ghost var decided := Snapshot();
      if o.InRedis? {
        DecisionKeepsTask(c, Learned(c, old(Snapshot()), task.batch.datasetId, o), task.batch.id, o.size, victims, t);
      }
      if t in store.tasks {
        var entry := Entry(EntryAvailable, p.storage, p.location, o.size, p.expires, now, p.fetchKey, task.batch.datasetId, p.forced);
        RecordedEntry(decided, t, entry);
        Record(t, entry);
        reported := reported[task.batch.id := o.size];
      }
      CompleteKeepsLinks(c, old(Snapshot()), t, o, victims, now);
    }

    /** fail_materialization */
    method FailMaterialization(t: nat)
      requires Valid() && t in store.tasks
      modifies this`confirmed, this`made, this`keyHistory, store
      ensures Valid()
      ensures Snapshot() == FailStep(old(Snapshot()), t)
    {
      hide Fail, NoteKey;
      keyHistory := NoteKey(keyHistory, store.tasks[t].batch.id, Broke);
      confirmed, made := confirmed - {t}, made - {t};
      store.FailTask(t);
    }

    /** poll_materialization_task */
    method PollMaterializationTask(worker: string) returns (choice: Option<nat>)
      requires Valid() && worker in store.workers
      modifies this`keyHistory, store
      ensures Valid()
      ensures Chosen(old(store.Tasks()), choice)
      ensures Snapshot() == PollStep(old(Snapshot()), worker, choice)
    {
      hide Chosen, NoteKey;
      choice := store.ChooseNextTask();
      ChosenIsPending(store.Tasks(), choice);
      if choice.Some? {
        var k := store.tasks[choice.value].batch.id;
        var handed := store.AssignTaskToWorker(choice.value, worker);
        if handed {
          keyHistory := NoteKey(keyHistory, k, Started);
        }
      }
    }

    /** register_worker; a worker that registers again starts without tasks. */
    method RegisterWorker(worker: string)
      requires Valid()
      modifies store`workers
      ensures Valid() && Snapshot() == RegisterWorkerStep(old(Snapshot()), worker)
    {
      store.RegisterWorker(worker);
    }

    // Trainer calls.

    /** register_dataset; no plan of a data set that was not registered can be remembered. */
    method RegisterDataset(d: Dataset)
      requires Valid() && d.id !in store.datasets && d.batchSize > 0
      modifies store`datasets
      ensures Valid() && Snapshot() == RegisterDatasetStep(old(Snapshot()), d)
    {
      hide PinsAgree, EpochGroups;
      store.RegisterDataset(d);
    }

    /** _refresh_job_window */
    method RefreshJobWindow(j: string, force: bool)
      requires PlansValid() && j in store.jobs && store.jobs[j].datasetId in store.datasets
      modifies store`jobs, planner
      ensures PlansValid() && Snapshot() == if force then Refreshed(c, old(Snapshot()), j) else Replenished(c, old(Snapshot()), j)
    {
      hide Window, EpochGroups, PinsAgree, Upcoming, Permutes;
      var job := store.jobs[j];
      if !job.status.Active? {
        store.SetPlannedWindow(j, []);
        return;
      }
      var lookahead := Max(1, if job.lookahead != 0 then job.lookahead else c.defaultLookahead);
      var future := store.UpcomingBatches(j);
      if !force && |future| >= lookahead {
        return;
      }
      var d := store.datasets[job.datasetId];
      var batches := planner.GetBatchesForJob(store.datasets, d, job.epoch, job.next, job.lookahead, j, c.reuse);
      store.SetPlannedWindow(j, batches);
    }

    /** Advances the job past a batch, into the next epoch if that was the epoch's last. */
    method IssueAndAdvance(j: string, batch: Batch)
      requires DatasetsSound(store.datasets) && j in store.jobs && store.jobs[j].datasetId in store.datasets
      modifies store`jobs
      ensures store.jobs == old(store.jobs)[j := Advanced(old(Snapshot()), old(store.jobs)[j], batch)]
    {
      hide BatchesPerEpoch;
      store.IssueBatchToJob(j, batch);
      var d := store.datasets[store.jobs[j].datasetId];
      if store.jobs[j].next >= BatchesPerEpoch(d) {
        store.AdvanceToNextEpoch(j);
        store.SetPlannedWindow(j, []);
      }
      assert store.jobs[j] == Advanced(old(Snapshot()), old(store.jobs)[j], batch);
    }

    /** Hands a READY batch to the job: touch, pin, issue, plan again. */
    method ServeBatch(j: string, batch: Batch, now: int)
      requires PlansValid() && j in store.jobs && store.jobs[j].datasetId in store.datasets
      modifies this`jobHistory, store, planner
      ensures PlansValid()
      ensures Snapshot() == Served(c, old(Snapshot()), j, batch, now)
    {
      hide Pin, Touch, NoteJob, PlanFor, DatasetsSound, Advanced;
      AdvancedStays(Snapshot(), store.jobs[j], batch);
      TouchKeepsKeys(store.Tasks(), batch.id, now);
      store.TouchPayload(batch.id, now);
      store.PinPayload(batch.id, j);
      jobHistory := NoteJob(jobHistory, j, Issued(batch));
      AdvancedSame(old(Snapshot()), Snapshot(), store.jobs[j], batch);
      IssueAndAdvance(j, batch);
      RefreshJobWindow(j, true);
    }

    /** get_next_batch for an active job: plans again if need be, and serves the next batch if it is READY. */
    method AnswerActive(j: string, now: int) returns (reply: Reply)
      requires PlansValid() && IsActive(Snapshot(), j) && store.jobs[j].datasetId in store.datasets
      modifies this`jobHistory, store, planner
      ensures PlansValid()
      ensures reply == NextBatchReply(c, old(Snapshot()), j, None)
      ensures Snapshot() == NextBatchStep(c, old(Snapshot()), j, None, now)
    {
      hide Served, Refreshed, DatasetsSound, FindBatch, BatchCoordinator.Valid;
      var batch := store.GetBatch(j, store.jobs[j].epoch, store.jobs[j].next);
      if batch.None? {
        RefreshJobWindow(j, true);
        RefreshKeepsJob(c, old(Snapshot()), j);
        batch := store.GetBatch(j, store.jobs[j].epoch, store.jobs[j].next);
      }
      if batch.None? {
        return Done;
      }
      reply := Resolve(store.Tasks(), batch.value);
      if reply.Ready? {
        ServeBatch(j, batch.value, now);
      }
    }

    /** get_next_batch */
    method GetNextBatch(j: string, feedback: Option<real>, now: int) returns (reply: Reply)
      requires Valid()
      modifies this`jobHistory, store, planner
      ensures Valid()
      ensures reply == NextBatchReply(c, old(Snapshot()), j, feedback)
      ensures Snapshot() == NextBatchStep(c, old(Snapshot()), j, feedback, now)
    {
      hide Served, Prepared, DatasetsSound, NextPlanned, PinsAgree, BatchCoordinator.Valid, Resolve;
      NextBatchKeepsLinks(c, Snapshot(), j, feedback, now);
      if j !in store.jobs {
        return UnknownJob;
      }
      if feedback.Some? {
        store.UpdateRuntimeMetrics(j, feedback.value);
      }
      if !store.jobs[j].status.Active? {
        return Done;
      }
      reply := AnswerActive(j, now);
    }

    /** acknowledge_batch; false stands for the errors about an unknown job and an epoch ahead of it. */
    method AcknowledgeBatch(j: string, batchId: string, epoch: nat) returns (accepted: bool)
      requires Valid()
      modifies this`jobHistory, store
      ensures Valid()
      ensures accepted == (j in store.jobs && epoch <= store.jobs[j].epoch)
      ensures Snapshot() == AcknowledgeStep(old(Snapshot()), j, batchId, epoch)
    {
      hide PinsAgree, Unpin, NoteJob, DatasetsSound;
      AcknowledgeKeepsLinks(Snapshot(), j, batchId, epoch);
      if j !in store.jobs || epoch > store.jobs[j].epoch {
        return false;
      }
      store.UnpinPayload(batchId, j);
      jobHistory := NoteJob(jobHistory, j, Acked(batchId));
      return true;
    }

    /** Closes the job, cancels its waiting tasks and drops its window. */
    method CloseJob(j: string, status: JobStatus)
      requires j in store.jobs
      modifies store`jobs, store`tasks
      ensures var job := old(store.jobs)[j];
              store.jobs == old(store.jobs)[j := job.(status := if job.status.Active? then status else job.status, planned := [])]
      ensures store.Tasks() == if old(store.jobs)[j].status.Active? then CancelTasksOf(old(store.Tasks()), j) else old(store.Tasks())
    {
      hide CancelTasksOf;
      store.FinishJob(j, status);
      store.SetPlannedWindow(j, []);
    }

    /** finish_job; false stands for the error about an unknown job. */
    method FinishJob(j: string, status: JobStatus) returns (known: bool)
      requires Valid()
      modifies this`jobHistory, store
      ensures Valid()
      ensures known == (j in old(store.jobs))
      ensures Snapshot() == FinishJobStep(old(Snapshot()), j, status)
    {
      hide PinsAgree, Release, NoteJob, CancelTasksOf, DatasetsSound, JobsRegistered;
      FinishKeepsLinks(Snapshot(), j, status);
      if j !in store.jobs {
        return false;
      }
      CloseJob(j, status);
      store.ReleaseJobPayloadPins(j);
      jobHistory := NoteJob(jobHistory, j, Closed);
      return true;
    }

    /** start_job; false stands for the errors about a known job and an unknown data set. */
    method StartJob(j: string, datasetId: string, lookahead: int, how: Scheduling) returns (started: bool)
      requires Valid()
      modifies this`nextTask, store, planner
      ensures Valid()
      ensures started == (j !in old(store.jobs) && datasetId in old(store.datasets))
      ensures Snapshot() == StartJobStep(c, old(Snapshot()), j, datasetId, lookahead, how)
    {
      hide Refreshed, ScheduleJobStep, DatasetsSound, PinsAgree, Permutes;
      StartKeepsLinks(c, Snapshot(), j, datasetId, lookahead, how);
      started := store.StartJob(j, datasetId, lookahead);
      if started {
        RefreshKeepsJob(c, Snapshot(), j);
        assert Linked(Snapshot());
        RefreshKeepsLinks(c, Snapshot(), j);
        RefreshJobWindow(j, true);
        ScheduleJobBatches(j, how);
      }
    }

    // Maintenance.

    /** _cleanup_expired_payload_metadata; visited lists the entries in the order in which they came up. */
    method CleanupExpired(now: int) returns (ghost visited: seq<string>)
      requires Valid()
      modifies this`keyHistory, store
      ensures Valid()
      ensures forall k :: k in visited <==> k in old(store.payloadEntries)
      ensures forall i, m :: 0 <= i < m < |visited| ==> visited[i] != visited[m]
      ensures Snapshot() == ExpireAll(old(Snapshot()), visited, now)
    {
      hide PinsAgree, ExpireStep, DatasetsSound, JobsRegistered;
      visited := [];
      var todo := store.payloadEntries.Keys;
      while todo != {}
        invariant todo <= old(store.payloadEntries).Keys
        invariant forall k :: k in visited <==> k in old(store.payloadEntries).Keys - todo
        invariant forall i, m :: 0 <= i < m < |visited| ==> visited[i] != visited[m]
        invariant Snapshot() == ExpireAll(old(Snapshot()), visited, now) && PinsAgree(store.PinMaps())
        decreases todo
      {
        var k :| k in todo;
        assert k !in visited && (visited + [k])[..|visited|] == visited;
        ExpireEntry(k, now);
        visited := visited + [k];
        todo := todo - {k};
      }
      ExpireAllKeepsLinks(old(Snapshot()), visited, now);
    }

    method ExpireEntry(k: string, now: int)
      requires PinsAgree(store.PinMaps())
      modifies this`keyHistory, store
      ensures PinsAgree(store.PinMaps()) && Snapshot() == ExpireStep(old(Snapshot()), k, now)
    {
      hide PinsAgree, Remove, NoteKey;
      if k in store.payloadEntries && Expired(store.payloadEntries[k], now) {
        if !InUse(store.PinMaps(), k) {
          var removed := store.RemovePayload(k);
          keyHistory := NoteKey(keyHistory, k, Dropped);
        }
      }
    }

    /** _schedule_job_batches */
    method ScheduleJobBatches(j: string, how: Scheduling)
      requires Valid() && j in store.jobs
      modifies this`nextTask, store, planner
      ensures Valid()
      ensures Snapshot() == ScheduleJobStep(c, old(Snapshot()), j, how)
    {
      hide PinsAgree, DatasetsSound, TargetDepth, Replenished, Upcoming, ScheduleAll, BatchCoordinator.Valid, JobsRegistered;
      ScheduleKeepsLinks(c, Snapshot(), j, how);
      if !store.jobs[j].status.Active? {
        store.SetPlannedWindow(j, []);
        return;
      }
      WindowsAreRegistered(j);
      RefreshJobWindow(j, false);
      RefreshKeepsStatus(c, old(Snapshot()), j);
      ScheduleWindow(j, TargetDepth(c, Estimates(store.preparationTime, store.payloadSize), store.jobs[j]), how);
    }

    lemma WindowsAreRegistered(j: string)
      requires Valid() && j in store.jobs
      ensures store.jobs[j].datasetId in store.datasets
    {
    }

    /** The scheduling loop over the first depth upcoming batches. */
    method ScheduleWindow(j: string, depth: nat, how: Scheduling)
      requires j in store.jobs && store.jobs[j].status.Active?
      modifies this`nextTask, store`tasks, store`tasksByBatchId, store`payloadEntries
      ensures Snapshot() == ScheduleAll(c, old(Snapshot()), j, First(depth, Upcoming(store.jobs[j])), how)
    {
      hide Ahead, ScheduleAll, ScheduleOne;
      ghost var s1 := Snapshot();
      AheadOfNone(c, s1, j, how);
      var job := store.jobs[j];
      var considered, i := 0, 0;
      while i < |job.planned|
        invariant i <= |job.planned| && considered <= depth
        invariant considered == |Ahead(job.planned[..i], job.epoch, job.next)|
        invariant Snapshot() == ScheduleAll(c, s1, j, Ahead(job.planned[..i], job.epoch, job.next), how)
        invariant Snapshot() == s1.(board := Snapshot().board, nextTask := nextTask)
      {
        var batch := job.planned[i];
        AheadStep(job.planned, i, job.epoch, job.next);
        if batch.epoch == job.epoch && batch.index >= job.next {
          if considered >= depth {
            break;
          }
          considered := considered + 1;
          ScheduleAllStep(c, s1, j, Ahead(job.planned[..i], job.epoch, job.next), batch, how);
          ScheduleBatch(j, batch, how);
        }
        i := i + 1;
      }
      AheadPrefix(job.planned, i, job.epoch, job.next);
      assert job.planned[..|job.planned|] == job.planned;
      assert Ahead(job.planned[..i], job.epoch, job.next) == First(depth, Upcoming(job));
    }

    /** The body of the scheduling loop. */
    method ScheduleBatch(j: string, batch: Batch, how: Scheduling)
      requires j in store.jobs && store.jobs[j].status.Active?
      modifies this`nextTask, store`tasks, store`tasksByBatchId, store`payloadEntries
      ensures Snapshot() == ScheduleOne(c, old(Snapshot()), j, batch, how)
    {
      hide CoordinatorBoard.CreateTask;
      if IsReady(store.Tasks(), batch.id) || InProgress(store.Tasks(), batch.id) {
        return;
      }
      var storage := if c.reuse then how.storage(batch.id) else Transient;
      var task := Task(batch, j, how.priority(batch.id), storage, TaskStatus.Pending, "");
      var live := Indexed(store.Tasks(), batch.id) && Live(StatusOf(store.Tasks(), batch.id));
      LiveStays(store.Tasks(), nextTask, task, how.now);
      var current := store.CreateTask(nextTask, task, how.now);
      if !live {
        nextTask := nextTask + 1;
      }
    }
  }

  lemma NobodyDemands(c: Config, s: Sys, k: string, datasetId: string)
    ensures Demand(c, s, [], k, datasetId) == 0.0 && Shortage(c, s, [], k, datasetId) == 0.0
  {
  }

  lemma DemandStep(c: Config, s: Sys, ids: seq<string>, i: nat, k: string, datasetId: string)
    requires i < |ids|
    ensures var p := DemandPosition(c, s, ids[i], k, datasetId);
            && Demand(c, s, ids[..i + 1], k, datasetId)
               == Demand(c, s, ids[..i], k, datasetId) + (if p.Some? then 1.0 / (p.value + 1) as real else 0.0)
            && Shortage(c, s, ids[..i + 1], k, datasetId)
               == Shortage(c, s, ids[..i], k, datasetId)
                  + (if p.Some? && IsActive(s, ids[i]) then 1.0 - Coverage(c, s, s.jobs[ids[i]]) else 0.0)
  {
    hide DemandPosition, Coverage;
    assert ids[..i + 1][..i] == ids[..i];
  }

  lemma EvictOneMore(s: Sys, victims: seq<string>, i: nat)
    requires i < |victims|
    ensures EvictAll(s, victims[..i + 1]) == Evict(EvictAll(s, victims[..i]), victims[i])
  {
    assert victims[..i + 1][..i] == victims[..i];
  }

  lemma EvictKeepsPinMaps(s: Sys, k: string)
    ensures Evict(s, k).pins == s.pins
  {
  }

  lemma LearnedKeepsRest(c: Config, s: Sys, datasetId: string, o: Outcome)
    ensures Learned(c, s, datasetId, o) == s.(est := Learned(c, s, datasetId, o).est)
  {
  }

  lemma AdvancedStays(s: Sys, job: Job, batch: Batch)
    ensures Advanced(s, job, batch).datasetId == job.datasetId
  {
  }

  lemma AdvancedSame(s: Sys, s': Sys, job: Job, batch: Batch)
    requires s'.datasets == s.datasets
    ensures Advanced(s', job, batch) == Advanced(s, job, batch)
  {
  }

  lemma TouchKeepsKeys(b: Board, k: string, now: int)
    ensures Touch(b, k, now).entries.Keys == b.entries.Keys
  {
  }

  /** Windows do not depend on anything that planning again changes. */
  lemma RefreshKeepsJob(c: Config, s: Sys, j: string)
    requires j in s.jobs
    ensures var r := Refreshed(c, s, j);
            && j in r.jobs && r.jobs[j] == s.jobs[j].(planned := r.jobs[j].planned) && r == s.(jobs := r.jobs)
  {
  }

  lemma RefreshKeepsStatus(c: Config, s: Sys, j: string)
    requires j in s.jobs && s.jobs[j].status.Active?
    ensures j in Replenished(c, s, j).jobs && Replenished(c, s, j).jobs[j].status.Active?
  {
  }

  lemma AheadStep(planned: seq<Batch>, i: nat, epoch: nat, next: nat)
    requires i < |planned|
    ensures Ahead(planned[..i + 1], epoch, next)
         == if planned[i].epoch == epoch && planned[i].index >= next then Ahead(planned[..i], epoch, next) + [planned[i]]
            else Ahead(planned[..i], epoch, next)
  {
    assert planned[..i + 1][..i] == planned[..i];
  }

  lemma ScheduleAllStep(c: Config, s: Sys, j: string, batches: seq<Batch>, batch: Batch, how: Scheduling)
    ensures ScheduleAll(c, s, j, batches + [batch], how) == ScheduleOne(c, ScheduleAll(c, s, j, batches, how), j, batch, how)
  {
    assert (batches + [batch])[..|batches|] == batches;
  }

  lemma AheadOfNone(c: Config, s: Sys, j: string, how: Scheduling)
    ensures forall epoch: nat, next: nat :: Ahead([], epoch, next) == []
    ensures forall s1: Sys :: ScheduleAll(c, s1, j, [], how) == s1
  {
  }

  lemma LiveStays(b: Board, t: nat, task: Task, now: int)
    ensures Indexed(b, task.batch.id) && Live(StatusOf(b, task.batch.id)) ==> CoordinatorBoard.CreateTask(b, t, task, now) == b
  {
  }

  function Shifted(p: Option<nat>, n: nat): Option<nat> {
    if p.Some? then Some(p.value + n) else None
  }

  lemma InsertedRanked(c: Config, s: Sys, ranked: seq<string>, k: string, i: nat)
    requires Ranked(c, s, ranked) && k in s.board.entries && i <= |ranked|
    requires forall m :: 0 <= m < i ==> Before(c, s, ranked[m], k)
    requires i < |ranked| ==> Before(c, s, k, ranked[i])
    ensures Ranked(c, s, ranked[..i] + [k] + ranked[i..])
  {
    var r := ranked[..i] + [k] + ranked[i..];
    forall m, n | 0 <= m < n < |r|
      ensures Before(c, s, r[m], r[n])
    {
      hide Before;
      if m == i && n > i + 1 {
        assert Before(c, s, ranked[i], ranked[n - 1]);
        BeforeIsTransitive(c, s, k, ranked[i], ranked[n - 1]);
      }
    }
  }

  lemma RankedKeysExist(c: Config, s: Sys, ranked: seq<string>, i: nat)
    requires Ranked(c, s, ranked) && i < |ranked|
    ensures ranked[i] in s.board.entries
  {
  }

  lemma RankedBytes(c: Config, s: Sys, ranked: seq<string>, keys: set<string>)
    requires Ranked(c, s, ranked) && forall k :: k in ranked <==> k in keys
    ensures Freed(s.board.entries, ranked) == BytesIn(s.board.entries, keys)
  {
    hide Before, Freed, BytesIn;
    RankedDistinct(c, s, ranked);
    FreedIsBytes(s.board.entries, ranked);
    assert (set k | k in ranked) == keys;
  }

  lemma PrefixIsGreedy(c: Config, s: Sys, candidates: set<string>, need: int, ranked: seq<string>, i: nat)
    requires candidates <= s.board.entries.Keys && Ranked(c, s, ranked) && forall k :: k in ranked <==> k in candidates
    requires 0 < i <= |ranked| && Freed(s.board.entries, ranked[..i - 1]) < need <= Freed(s.board.entries, ranked[..i])
    ensures GreedyPrefix(c, s, candidates, need, ranked[..i])
  {
    hide Before, Freed;
    var victims := ranked[..i];
    assert victims[..i - 1] == ranked[..i - 1];
    forall k, m | k in candidates && 0 <= m < |victims| && Before(c, s, k, victims[m])
      ensures k in victims
    {
      assert ranked[m] == victims[m] && forall n :: m < n < |ranked| ==> Before(c, s, ranked[m], ranked[n]);
      var n :| 0 <= n < |ranked| && ranked[n] == k;
      BeforeIsTotal(c, s, k, victims[m]);
      assert n < i;
      assert victims[n] == k;
    }
  }
}

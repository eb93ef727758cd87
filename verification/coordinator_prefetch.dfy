/** The opportunistic prefetch pass with the original loops. */
module CoordinatorPrefetch {
  import opened Text
  import opened Sequences
  import opened CoordinatorPlan
  import opened CoordinatorBoard
  import opened CoordinatorPins
  import opened CoordinatorState
  import opened CoordinatorCache
  import opened CoordinatorService
  import opened CoordinatorAdmission
  import opened CoordinatorStoreObject
  import opened CoordinatorObjects

  /** can_admit_estimated_payload */
  method CanAdmitEstimatedPayload(coordinator: Coordinator, batch: Batch) returns (ok: bool)
    ensures ok == CanAdmit(coordinator.c, coordinator.Snapshot(), batch)
  {
    hide Value, Chooses, RoomCanBeMade, CachedKeys, BytesIn;
    var c, store := coordinator.c, coordinator.store;
    if c.capacity <= 0 {
      return true;
    }
    var estimated := RoundHalfEven(if batch.datasetId in store.payloadSize then store.payloadSize[batch.datasetId] else 0.0);
    if estimated <= 0 {
      var bytes := store.ReusableCacheBytes();
      return bytes < c.capacity;
    }
    var value := coordinator.ComputeCacheKeyValue(batch.id, batch.datasetId);
    var victims := coordinator.ChooseEvictionVictims(value, estimated);
    AdmittedIffRoom(c, coordinator.Snapshot(), value, estimated, victims);
    ok := victims.Some?;
  }

  /** can_opportunistically_prefetch */
  method CanOpportunisticallyPrefetch(coordinator: Coordinator, batch: Batch) returns (ok: bool)
    ensures ok == CanPrefetch(coordinator.c, coordinator.Snapshot(), batch)
  {
    hide Value;
    var c, store := coordinator.c, coordinator.store;
    if !c.reuse || !c.opportunistic || ReadyOrInFlight(store.Tasks(), batch.id) {
      return false;
    }
    var value := coordinator.ComputeCacheKeyValue(batch.id, batch.datasetId);
    ok := value > 0.0;
  }

  predicate Descending(c: Config, s: Sys, ranking: seq<Batch>) {
    forall i, j :: 0 <= i < j < |ranking| ==> ranking[i].id != ranking[j].id && MoreValuable(c, s, ranking[i], ranking[j])
  }

  predicate Lists(ranking: seq<Batch>, k: string) {
    exists i :: 0 <= i < |ranking| && ranking[i].id == k
  }

  lemma ValueOrderIsTotal(c: Config, s: Sys, a: Batch, b: Batch)
    ensures a.id == b.id || MoreValuable(c, s, a, b) || MoreValuable(c, s, b, a)
  {
    hide Value, Precedes;
    PrecedesTotal(a.id, b.id);
  }

  lemma ValueOrderIsTransitive(c: Config, s: Sys, a: Batch, b: Batch, d: Batch)
    requires MoreValuable(c, s, a, b) && MoreValuable(c, s, b, d)
    ensures MoreValuable(c, s, a, d)
  {
    hide Value, Precedes;
    if Precedes(b.id, a.id) && Precedes(d.id, b.id) {
      PrecedesTransitive(d.id, b.id, a.id);
    }
  }

  lemma InsertedDescending(c: Config, s: Sys, ranking: seq<Batch>, batch: Batch, i: nat)
    requires Descending(c, s, ranking) && !Lists(ranking, batch.id) && i <= |ranking|
    requires forall m :: 0 <= m < i ==> MoreValuable(c, s, ranking[m], batch)
    requires i < |ranking| ==> MoreValuable(c, s, batch, ranking[i])
    ensures Descending(c, s, ranking[..i] + [batch] + ranking[i..])
  {
    hide MoreValuable;
    var r := ranking[..i] + [batch] + ranking[i..];
    forall m, n | 0 <= m < n < |r|
      ensures r[m].id != r[n].id && MoreValuable(c, s, r[m], r[n])
    {
      if m == i && n > i + 1 {
        assert MoreValuable(c, s, ranking[i], ranking[n - 1]);
        ValueOrderIsTransitive(c, s, batch, ranking[i], ranking[n - 1]);
      }
    }
  }

  /** One step of the sort by value. */
  method InsertByValue(coordinator: Coordinator, ranking: seq<Batch>, batch: Batch) returns (r: seq<Batch>)
    requires Descending(coordinator.c, coordinator.Snapshot(), ranking) && !Lists(ranking, batch.id)
    ensures Descending(coordinator.c, coordinator.Snapshot(), r)
    ensures forall x :: x in r <==> x in ranking || x == batch
  {
    hide Value, Precedes, Lists, Descending;
    ghost var s := coordinator.Snapshot();
    var value := coordinator.ComputeCacheKeyValue(batch.id, batch.datasetId);
    var i := 0;
    while i < |ranking|
      invariant i <= |ranking|
      invariant forall m :: 0 <= m < i ==> MoreValuable(coordinator.c, s, ranking[m], batch)
    {
      var other := coordinator.ComputeCacheKeyValue(ranking[i].id, ranking[i].datasetId);
      if value > other || (value == other && Precedes(ranking[i].id, batch.id)) {
        break;
      }
      NotListed(ranking, batch.id, i);
      ValueOrderIsTotal(coordinator.c, s, ranking[i], batch);
      i := i + 1;
    }
    r := ranking[..i] + [batch] + ranking[i..];
    InsertedDescending(coordinator.c, s, ranking, batch, i);
  }

  lemma NotListed(ranking: seq<Batch>, k: string, i: nat)
    requires !Lists(ranking, k) && i < |ranking|
    ensures ranking[i].id != k
  {
  }

  /** Which ids a list of batches has, for each of them a batch worth fetching early. */
  ghost predicate Collected(c: Config, s: Sys, seen: seq<Batch>, ranking: seq<Batch>) {
    && Descending(c, s, ranking)
    && (forall x :: x in ranking ==> PrefetchCandidate(c, s, x))
    && (forall x :: x in seen && CanPrefetch(c, s, x) && CanAdmit(c, s, x) ==> Lists(ranking, x.id))
  }

  /** Adds one job's batches beyond its target depth to the candidates. */
  method CollectFrom(coordinator: Coordinator, j: string, ranking: seq<Batch>, ghost seen: seq<Batch>) returns (r: seq<Batch>)
    requires j in coordinator.store.jobs && coordinator.store.jobs[j].status.Active?
    requires Collected(coordinator.c, coordinator.Snapshot(), seen, ranking)
    ensures Collected(coordinator.c, coordinator.Snapshot(),
                      seen + Beyond(coordinator.c, coordinator.Snapshot().est, coordinator.store.jobs[j]), r)
  {
    hide CanPrefetch, CanAdmit, Descending, Lists, ExtendedDepth, TargetDepth, Upcoming, Beyond, Collected, PrefetchCandidate;
    var c, store := coordinator.c, coordinator.store;
    ghost var s := coordinator.Snapshot();
    var batches := Beyond(c, Estimates(store.preparationTime, store.payloadSize), store.jobs[j]);
    r := ranking;
    var i := 0;
    assert seen + batches[..0] == seen;
    while i < |batches|
      invariant i <= |batches| && Collected(c, s, seen + batches[..i], r)
    {
      var batch := batches[i];
      assert seen + batches[..i + 1] == seen + batches[..i] + [batch];
      var useful := CanOpportunisticallyPrefetch(coordinator, batch);
      var fits := false;
      if useful {
        fits := CanAdmitEstimatedPayload(coordinator, batch);
      }
      ghost var before := r;
      CollectedDescends(c, s, seen + batches[..i], r);
      if useful && fits && !Lists(r, batch.id) {
        BeyondIsCandidate(c, s, j, batch);
        r := InsertByValue(coordinator, r, batch);
      }
      AllConsidered(c, s, before, batch, r);
      CollectedGrows(c, s, seen + batches[..i], before, batch, r);
      i := i + 1;
    }
    assert batches[..i] == batches;
  }

  lemma AllConsidered(c: Config, s: Sys, before: seq<Batch>, batch: Batch, after: seq<Batch>)
    requires (CanPrefetch(c, s, batch) && CanAdmit(c, s, batch) && !Lists(before, batch.id)
              && PrefetchCandidate(c, s, batch) && (forall x :: x in after <==> x in before || x == batch))
             || (after == before && !(CanPrefetch(c, s, batch) && CanAdmit(c, s, batch) && !Lists(before, batch.id)))
    ensures Considered(c, s, before, batch, after)
  {
    hide CanPrefetch, CanAdmit, Lists, PrefetchCandidate;
  }

  lemma CollectedDescends(c: Config, s: Sys, seen: seq<Batch>, ranking: seq<Batch>)
    requires Collected(c, s, seen, ranking)
    ensures Descending(c, s, ranking)
  {
  }

  lemma BeyondIsCandidate(c: Config, s: Sys, j: string, batch: Batch)
    requires IsActive(s, j) && batch in Beyond(c, s.est, s.jobs[j]) && CanPrefetch(c, s, batch) && CanAdmit(c, s, batch)
    ensures PrefetchCandidate(c, s, batch)
  {
    hide CanPrefetch, CanAdmit, Beyond;
  }

  /** The batch just looked at was added, was no candidate, or has its key listed already. */
  ghost predicate Considered(c: Config, s: Sys, before: seq<Batch>, batch: Batch, after: seq<Batch>) {
    || ((forall x :: x in after <==> x in before || x == batch) && PrefetchCandidate(c, s, batch))
    || (after == before && (CanPrefetch(c, s, batch) && CanAdmit(c, s, batch) ==> Lists(before, batch.id)))
  }

  lemma CollectedGrows(c: Config, s: Sys, seen: seq<Batch>, before: seq<Batch>, batch: Batch, after: seq<Batch>)
    requires Collected(c, s, seen, before) && Descending(c, s, after) && Considered(c, s, before, batch, after)
    ensures Collected(c, s, seen + [batch], after)
  {
    hide CanPrefetch, CanAdmit, Descending, PrefetchCandidate;
    forall x | x in seen + [batch] && CanPrefetch(c, s, x) && CanAdmit(c, s, x)
      ensures Lists(after, x.id)
    {
      if x in seen {
        var n :| 0 <= n < |before| && before[n].id == x.id;
        assert before[n] in after;
        InMeansListed(after, before[n]);
      } else if batch in after {
        InMeansListed(after, batch);
      }
    }
  }

  lemma InMeansListed(ranking: seq<Batch>, batch: Batch)
    requires batch in ranking
    ensures Lists(ranking, batch.id)
  {
    var m :| 0 <= m < |ranking| && ranking[m] == batch;
  }

  /** Everything beyond the target depths of the given jobs has been looked at. */
  ghost predicate CollectedFrom(c: Config, s: Sys, jobs: set<string>, ranking: seq<Batch>) {
    && Descending(c, s, ranking)
    && (forall x :: x in ranking ==> PrefetchCandidate(c, s, x))
    && (forall j, x :: j in jobs && IsActive(s, j) && x in Beyond(c, s.est, s.jobs[j]) && CanPrefetch(c, s, x) && CanAdmit(c, s, x) ==>
          Lists(ranking, x.id))
  }

  lemma CollectedFromMore(c: Config, s: Sys, jobs: set<string>, j: string, before: seq<Batch>, after: seq<Batch>)
    requires CollectedFrom(c, s, jobs, before) && IsActive(s, j)
    requires Collected(c, s, before + Beyond(c, s.est, s.jobs[j]), after)
    ensures CollectedFrom(c, s, jobs + {j}, after)
  {
    hide CanPrefetch, CanAdmit, Descending, Beyond;
    forall i, x | i in jobs + {j} && IsActive(s, i) && x in Beyond(c, s.est, s.jobs[i]) && CanPrefetch(c, s, x) && CanAdmit(c, s, x)
      ensures Lists(after, x.id)
    {
      if i != j {
        var n :| 0 <= n < |before| && before[n].id == x.id;
        assert before[n] in before + Beyond(c, s.est, s.jobs[j]) && PrefetchCandidate(c, s, before[n]);
        assert Lists(after, before[n].id);
      }
    }
  }

  lemma AllCollectedIsRanking(c: Config, s: Sys, jobs: set<string>, ranking: seq<Batch>)
    requires CollectedFrom(c, s, jobs, ranking) && s.jobs.Keys <= jobs
    ensures Ranking(c, s, ranking)
  {
    hide CanPrefetch, CanAdmit, Beyond, MoreValuable;
    forall x: Batch | PrefetchCandidate(c, s, x)
      ensures exists i :: 0 <= i < |ranking| && ranking[i].id == x.id
    {
      assert Lists(ranking, x.id);
    }
  }

  /** The candidates of all active jobs, most valuable first. */
  method RankPrefetches(coordinator: Coordinator) returns (ranking: seq<Batch>)
    ensures Ranking(coordinator.c, coordinator.Snapshot(), ranking)
  {
    hide CanPrefetch, CanAdmit, Beyond, Collected, CollectedFrom, Ranking, Descending, PrefetchCandidate;
    ghost var c, s := coordinator.c, coordinator.Snapshot();
    ranking := [];
    var todo := coordinator.store.jobs.Keys;
    NothingCollected(c, s, todo);
    while todo != {}
      invariant todo <= s.jobs.Keys && CollectedFrom(c, s, s.jobs.Keys - todo, ranking)
      decreases todo
    {
      var j :| j in todo;
      ghost var seenJobs := s.jobs.Keys - todo;
      ghost var before := ranking;
      if coordinator.store.jobs[j].status.Active? {
        CollectedSoFar(c, s, seenJobs, ranking);
        ranking := CollectFrom(coordinator, j, ranking, ranking);
        CollectedFromMore(c, s, seenJobs, j, before, ranking);
      } else {
        InactiveAddsNothing(c, s, seenJobs, j, ranking);
      }
      assert s.jobs.Keys - (todo - {j}) == seenJobs + {j};
      todo := todo - {j};
    }
    AllCollectedIsRanking(c, s, s.jobs.Keys - todo, ranking);
  }

  lemma NothingCollected(c: Config, s: Sys, jobs: set<string>)
    ensures CollectedFrom(c, s, jobs - jobs, [])
  {
    hide CanPrefetch, CanAdmit, Beyond;
  }

  lemma CollectedSoFar(c: Config, s: Sys, jobs: set<string>, ranking: seq<Batch>)
    requires CollectedFrom(c, s, jobs, ranking)
    ensures Collected(c, s, ranking, ranking)
  {
    hide CanPrefetch, CanAdmit, Beyond, Descending, PrefetchCandidate;
    forall x | x in ranking
      ensures Lists(ranking, x.id)
    {
      InMeansListed(ranking, x);
    }
  }

  lemma InactiveAddsNothing(c: Config, s: Sys, jobs: set<string>, j: string, ranking: seq<Batch>)
    requires CollectedFrom(c, s, jobs, ranking) && !IsActive(s, j)
    ensures CollectedFrom(c, s, jobs + {j}, ranking)
  {
    hide CanPrefetch, CanAdmit, Beyond, Descending, PrefetchCandidate;
  }

  /** Immediate demand first: every active job must be covered to its target depth. */
  method DemandIsCovered(coordinator: Coordinator) returns (someone: bool, covered: bool)
    ensures someone <==> exists j :: j in coordinator.store.jobs && IsActive(coordinator.Snapshot(), j)
    ensures covered <==> forall j :: j in coordinator.store.jobs ==> CoveredToTarget(coordinator.c, coordinator.Snapshot(), j)
  {
    hide TargetDepth, Upcoming, CoveredCount, First;
    var c, store := coordinator.c, coordinator.store;
    ghost var s := coordinator.Snapshot();
    someone, covered := false, true;
    var jobs := store.jobs;
    var todo := jobs.Keys;
    while todo != {}
      invariant todo <= jobs.Keys
      invariant someone <==> exists j :: j in jobs && j !in todo && IsActive(s, j)
      invariant covered <==> forall j :: j in jobs && j !in todo ==> CoveredToTarget(c, s, j)
      decreases todo
    {
      var j :| j in todo;
      if jobs[j].status.Active? {
        someone := true;
        var depth := TargetDepth(c, Estimates(store.preparationTime, store.payloadSize), jobs[j]);
        var ready := store.CountReadyOrInflight(j, depth);
        if ready < depth {
          covered := false;
        }
      }
      todo := todo - {j};
    }
  }

  /** One turn of the scheduling loop. */
  method PrefetchBatch(coordinator: Coordinator, batch: Batch, now: int)
    modifies coordinator`nextTask, coordinator.store`tasks, coordinator.store`tasksByBatchId, coordinator.store`payloadEntries
    ensures coordinator.Snapshot() == PrefetchOne(coordinator.c, old(coordinator.Snapshot()), batch, now)
  {
    hide CanPrefetch, CanAdmit, Value, CoordinatorBoard.CreateTask;
    var store := coordinator.store;
    var useful := CanOpportunisticallyPrefetch(coordinator, batch);
    if !useful {
      return;
    }
    var fits := CanAdmitEstimatedPayload(coordinator, batch);
    if !fits {
      return;
    }
    var value := coordinator.ComputeCacheKeyValue(batch.id, batch.datasetId);
    var task := Task(batch, "", value, Reusable, TaskStatus.Pending, "");
    var live := Indexed(store.Tasks(), batch.id) && Live(StatusOf(store.Tasks(), batch.id));
    LiveStays(store.Tasks(), coordinator.nextTask, task, now);
    var current := store.CreateTask(coordinator.nextTask, task, now);
    if !live {
      coordinator.nextTask := coordinator.nextTask + 1;
    }
  }

  /** _schedule_opportunistic_prefetch */
  method SchedulePrefetch(coordinator: Coordinator, now: int) returns (ranking: seq<Batch>)
    modifies coordinator`nextTask, coordinator.store`tasks, coordinator.store`tasksByBatchId, coordinator.store`payloadEntries
    ensures Ranking(coordinator.c, old(coordinator.Snapshot()), ranking)
    ensures coordinator.Snapshot() == PrefetchStep(coordinator.c, old(coordinator.Snapshot()), ranking, now)
  {
    hide Ranking, CoveredToTarget, PrefetchOne, CountWhere, PendingTasks, PrefetchAll;
    var c, store := coordinator.c, coordinator.store;
    ghost var s := coordinator.Snapshot();
    ranking := RankPrefetches(coordinator);
    if !c.reuse || !c.opportunistic || !c.redis {
      return;
    }
    var someone, covered := DemandIsCovered(coordinator);
    var idle := store.CountIdleWorkers();
    var pending := store.CountPendingTasks();
    if !someone || !covered || idle <= pending {
      return;
    }
    var slots, first, i := idle - pending, coordinator.nextTask, 0;
    NothingPrefetched(c, s, slots, now);
    while i < |ranking|
      invariant i <= |ranking| && coordinator.Snapshot() == PrefetchAll(c, s, ranking[..i], slots, now)
    {
      PrefetchAllStep(c, s, ranking, i, slots, now);
      if coordinator.nextTask < first + slots {
        PrefetchBatch(coordinator, ranking[i], now);
      }
      i := i + 1;
    }
    assert ranking[..i] == ranking;
  }

  lemma NothingPrefetched(c: Config, s: Sys, slots: nat, now: int)
    ensures PrefetchAll(c, s, [], slots, now) == s
  {
  }

  lemma PrefetchAllStep(c: Config, s: Sys, ranking: seq<Batch>, i: nat, slots: nat, now: int)
    requires i < |ranking|
    ensures var before := PrefetchAll(c, s, ranking[..i], slots, now);
            PrefetchAll(c, s, ranking[..i + 1], slots, now)
            == if before.nextTask >= s.nextTask + slots then before else PrefetchOne(c, before, ranking[i], now)
  {
    hide PrefetchOne;
    assert ranking[..i + 1][..i] == ranking[..i];
  }
}

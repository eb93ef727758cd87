/** What holds of the coordinator between any two steps, and why each operation keeps it. */
module CoordinatorInvariants {
  import opened Text
  import opened Sequences
  import opened CoordinatorPlan
  import opened CoordinatorBoard
  import opened CoordinatorPins
  import opened CoordinatorState
  import opened CoordinatorCache
  import opened CoordinatorService

  type Datasets = map<string, Dataset>
  type Jobs = map<string, Job>
  type Tasks = map<nat, Task>

  predicate DatasetsSound(datasets: Datasets) {
    forall id :: id in datasets ==> datasets[id].id == id && datasets[id].batchSize > 0
  }

  /**
   * A task is known by a used id, its data set is registered, it waits only while its job is active,
   * and it has been cancelled only if its job has finished.
   */
  predicate TaskKnown(datasets: Datasets, jobs: Jobs, nextTask: nat, t: nat, task: Task) {
    && t < nextTask && task.batch.datasetId in datasets
    && (task.jobId != "" ==> task.jobId in jobs && (task.status.Pending? ==> jobs[task.jobId].status.Active?))
    && (task.status.Cancelled? ==> task.jobId in jobs && !jobs[task.jobId].status.Active?)
  }

  predicate TasksKnown(datasets: Datasets, jobs: Jobs, tasks: Tasks, nextTask: nat) {
    forall t :: t in tasks ==> TaskKnown(datasets, jobs, nextTask, t, tasks[t])
  }

  /** A worker is charged only with running tasks that were given to it. */
  predicate WorkersTruthful(workers: map<string, set<nat>>, tasks: Tasks) {
    forall w, t :: w in workers && t in workers[w] ==> t in tasks && tasks[t].status.Running? && tasks[t].worker == w
  }

  /** Whatever a job has pinned can be fetched. */
  ghost predicate PinnedStored(pins: Pins, handles: map<string, Handle>) {
    forall j: string :: KeysOf(pins, j) <= handles.Keys
  }

  predicate ActiveIn(jobs: Jobs, j: string) {
    j in jobs && jobs[j].status.Active?
  }

  /** A job's pins are what has been issued to it and not acknowledged; a finished job has none. */
  ghost predicate PinsTold(pins: Pins, jobs: Jobs, history: JobHistory) {
    forall j: string :: PinTold(pins, jobs, history, j)
  }

  predicate PinTold(pins: Pins, jobs: Jobs, history: JobHistory, j: string) {
    && KeysOf(pins, j) == Outstanding(JobLog(history, j))
    && (!ActiveIn(jobs, j) ==> KeysOf(pins, j) == {})
  }

  /** A batch as the job gets it, if the epoch has one at that index. */
  function BatchAt(c: Config, d: Dataset, j: string, epoch: nat, index: nat): Option<Batch>
    requires d.batchSize > 0
  {
    if index < |EpochGroups(c.shuffle, d, epoch)| then Some(MakeBatch(c.shuffle, d, epoch, index, OwnerIn(c, j))) else None
  }

  /** The m-th batch of a job's course over all epochs. */
  function NthBatch(c: Config, d: Dataset, j: string, m: nat): Option<Batch>
    requires d.batchSize > 0
  {
    var b := BatchesPerEpoch(d);
    if b == 0 then None else BatchAt(c, d, j, m / b, m % b)
  }

  /** The first n batches of a job's course: (0,0), (0,1), ... with no gap across epochs. */
  ghost predicate IsCourse(c: Config, d: Dataset, j: string, batches: seq<Batch>, n: nat)
    requires d.batchSize > 0
  {
    && |batches| == n
    && forall m :: 0 <= m < n ==> NthBatch(c, d, j, m) == Some(batches[m])
  }

  predicate InRange(job: Job, perEpoch: nat) {
    if perEpoch == 0 then job.epoch == 0 && job.next == 0 else job.next < perEpoch
  }

  ghost predicate JobSound(c: Config, datasets: Datasets, j: string, job: Job, log: seq<JobEvent>) {
    && job.datasetId in datasets && datasets[job.datasetId].batchSize > 0
    && var d := datasets[job.datasetId];
       && InRange(job, BatchesPerEpoch(d))
       && job.planned == (if job.status.Active? then WindowOf(c, d, j, job) else [])
       && IsCourse(c, d, j, IssuedBatches(log), job.epoch * BatchesPerEpoch(d) + job.next)
  }

  ghost predicate JobsSound(c: Config, datasets: Datasets, jobs: Jobs, history: JobHistory) {
    && (forall j :: j in jobs ==> JobSound(c, datasets, j, jobs[j], JobLog(history, j)))
    && (forall j :: j in history ==> j in jobs)
  }

  predicate ListsAll(jobs: Jobs, order: seq<string>) {
    forall j :: j in jobs ==> j in order
  }

  /** A payload located in Redis is reusable, does not expire and is there under its own key exactly if it was not forced. */
  predicate EntryTruthful(c: Config, redis: set<string>, k: string, e: Entry) {
    && (!e.status.EntryAvailable? ==> e.location.Nowhere?)
    && (e.location.Redis? ==> e.storage.Reusable? && e.expires.None? && e.fetchKey == RedisKey(c, k)
                              && (e.forced <==> RedisKey(c, k) !in redis))
  }

  predicate RedisTruthful(c: Config, entries: Entries, tasks: Tasks, redis: set<string>, confirmed: set<nat>) {
    && (forall k :: k in entries ==> EntryTruthful(c, redis, k, entries[k]))
    && (forall t :: t in confirmed ==> t in tasks && tasks[t].status.Running? && RedisKey(c, tasks[t].batch.id) in redis)
  }

  ghost predicate BudgetKept(c: Config, entries: Entries) {
    c.capacity > 0 ==> AdmittedBytes(entries) <= c.capacity
  }

  ghost predicate PhasesTold(b: Board, history: KeyHistory) {
    forall k: string :: PhaseAfter(KeyLog(history, k)) == PhaseOf(b, k)
  }

  ghost predicate BoardInv(c: Config, s: Sys) {
    && Coherent(s.board) && TasksKnown(s.datasets, s.jobs, s.board.tasks, s.nextTask)
    && WorkersTruthful(s.workers, s.board.tasks)
    && RedisTruthful(c, s.board.entries, s.board.tasks, s.redis, s.confirmed)
    && BudgetKept(c, s.board.entries) && PhasesTold(s.board, s.keyHistory)
  }

  ghost predicate JobInv(c: Config, s: Sys) {
    && Permutes(c.shuffle) && DatasetsSound(s.datasets) && JobsSound(c, s.datasets, s.jobs, s.jobHistory)
    && ListsAll(s.jobs, s.order) && EstimatesPositive(s.est)
  }

  ghost predicate PinInv(s: Sys) {
    PinsAgree(s.pins) && PinnedStored(s.pins, s.board.handles) && PinsTold(s.pins, s.jobs, s.jobHistory)
  }

  ghost predicate Inv(c: Config, s: Sys) {
    BoardInv(c, s) && JobInv(c, s) && PinInv(s)
  }

  lemma InitInv(c: Config)
    requires Permutes(c.shuffle)
    ensures Inv(c, Init())
  {
    assert AdmittedKeys(map[]) == {};
    forall k: string
      ensures KeyCoherent(Init().board, k)
    {
    }
    forall t: nat
      ensures TaskCoherent(Init().board, t)
    {
    }
  }

  // Small facts.

  lemma InvHasJobs(c: Config, s: Sys)
    requires Inv(c, s)
    ensures JobInv(c, s)
  {
  }

  lemma RedisKeyInjective(c: Config, a: string, b: string)
    requires RedisKey(c, a) == RedisKey(c, b)
    ensures a == b
  {
    assert a == RedisKey(c, a)[|c.keyPrefix| + 1..] && b == RedisKey(c, b)[|c.keyPrefix| + 1..];
  }

  lemma AdmittedSame(e1: Entries, e2: Entries)
    requires forall k :: k in e1 && Cached(e1[k]) && !e1[k].forced <==> k in e2 && Cached(e2[k]) && !e2[k].forced
    requires forall k :: k in e1 && k in e2 && Cached(e1[k]) ==> e1[k].size == e2[k].size
    ensures AdmittedBytes(e1) == AdmittedBytes(e2)
  {
    assert AdmittedKeys(e1) == AdmittedKeys(e2);
    BytesInSame(e1, e2, AdmittedKeys(e1));
  }

  lemma AdmittedShrinks(entries: Entries, k: string)
    ensures AdmittedBytes(entries - {k}) <= AdmittedBytes(entries)
  {
    var rest := AdmittedKeys(entries) - {k};
    assert AdmittedKeys(entries - {k}) == rest;
    BytesInSame(entries - {k}, entries, rest);
    BytesInSubset(entries, rest, AdmittedKeys(entries));
  }

  lemma PhaseNoted(b: Board, b2: Board, h: KeyHistory, k: string, e: KeyEvent)
    requires PhasesTold(b, h)
    requires forall k2: string :: k2 != k ==> PhaseOf(b2, k2) == PhaseOf(b, k2)
    requires PhaseOf(b2, k) == NextPhase(PhaseOf(b, k), e)
    ensures PhasesTold(b2, NoteKey(h, k, e))
  {
    var log := KeyLog(h, k);
    assert (log + [e])[..|log|] == log;
    forall k2: string
      ensures PhaseAfter(KeyLog(NoteKey(h, k, e), k2)) == PhaseOf(b2, k2)
    {
      assert PhaseAfter(KeyLog(h, k2)) == PhaseOf(b, k2);
    }
  }
}

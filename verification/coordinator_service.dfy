/**
 * The coordinator's remote calls and maintainer passes as atomic steps over its state:
 * batchflow/coordinator/service.py and the admission path of batchflow/coordinator/cache_manager.py.
 * A call that raises an error leaves the state as it was.
 */
module CoordinatorService {
  import opened Text
  import opened Sequences
  import opened CoordinatorPlan
  import opened CoordinatorBoard
  import opened CoordinatorPins
  import opened CoordinatorState
  import opened CoordinatorCache

  /** A worker's temporary copy of a payload that it has put into Redis. */
  datatype Fallback = Fallback(host: string, port: int, key: string, expires: int)

  /** What a worker reports about a materialised payload; seconds is the time it took, if it made one. */
  datatype Outcome =
    | InRedis(size: int, fallback: Option<Fallback>, seconds: Option<real>)
    | InWorker(host: string, port: nat, size: int, expires: Option<int>, seconds: Option<real>)

  /** The clock and the parts of scheduling that only rank or classify tasks. */
  datatype Scheduling = Scheduling(now: int, priority: string -> real, storage: string -> StorageClass)

  datatype Action =
    | RegisterDataset(dataset: Dataset)
    | StartJob(id: string, datasetId: string, lookahead: int, how: Scheduling)
    | NextBatch(id: string, feedback: Option<real>, now: int)
    | Acknowledge(id: string, batchId: string, epoch: nat)
    | FinishJob(id: string, status: JobStatus)
    | RegisterWorker(worker: string)
    | Poll(worker: string, choice: Option<nat>)
    | WorkerFinds(task: nat)
    | WorkerPuts(task: nat)
    | CompleteTask(task: nat, outcome: Outcome, victims: Option<seq<string>>, now: int)
    | FailTask(task: nat)
    | ExpireEntry(key: string, now: int)
    | ScheduleJob(id: string, how: Scheduling)
    | PrefetchPass(ranking: seq<Batch>, now: int)

  function Init(): Sys {
    Sys(map[], map[], [], Board(map[], map[], map[], map[]), Pins(map[], map[]), map[], Estimates(map[], map[]), 0, {}, {}, {}, map[], map[], map[])
  }

  // Windows and progress.

  predicate Usable(s: Sys, datasetId: string) {
    datasetId in s.datasets && s.datasets[datasetId].batchSize > 0
  }

  function PlanFor(c: Config, s: Sys, j: string, job: Job): seq<Batch> {
    if Usable(s, job.datasetId) then WindowOf(c, s.datasets[job.datasetId], j, job) else []
  }

  /** batches_per_epoch of a data set */
  function PerEpoch(s: Sys, datasetId: string): nat {
    if Usable(s, datasetId) then BatchesPerEpoch(s.datasets[datasetId]) else 0
  }

  function WithJob(s: Sys, j: string, job: Job): Sys {
    s.(jobs := s.jobs[j := job])
  }

  /** _refresh_job_window with force */
  function Refreshed(c: Config, s: Sys, j: string): Sys
    requires j in s.jobs
  {
    var job := s.jobs[j];
    WithJob(s, j, job.(planned := if job.status.Active? then PlanFor(c, s, j, job) else []))
  }

  /** _refresh_job_window without force: only a window that has become too short is planned again. */
  function Replenished(c: Config, s: Sys, j: string): Sys
    requires j in s.jobs
  {
    var job := s.jobs[j];
    if job.status.Active? && |Upcoming(job)| >= Lookahead(job.lookahead, c.defaultLookahead) then s else Refreshed(c, s, j)
  }

  /** issue_batch_to_job */
  function Issue(job: Job, batch: Batch): Job {
    if !job.status.Active? || job.epoch != batch.epoch || job.next != batch.index then job else job.(next := batch.index + 1)
  }

  /** Issue, and the wrap to the next epoch. */
  function Advanced(s: Sys, job: Job, batch: Batch): Job {
    var issued := Issue(job, batch);
    if issued.next >= PerEpoch(s, issued.datasetId) then issued.(epoch := issued.epoch + 1, next := 0, planned := []) else issued
  }

  // Trainer calls.

  function RegisterDatasetStep(s: Sys, d: Dataset): Sys {
    s.(datasets := s.datasets[d.id := d])
  }

  function AddJob(c: Config, s: Sys, id: string, datasetId: string, lookahead: int): Sys {
    Refreshed(c, s.(jobs := s.jobs[id := Job(datasetId, lookahead, 0, 0, Active, 0.0, [])], order := s.order + [id]), id)
  }

  ghost function StartJobStep(c: Config, s: Sys, id: string, datasetId: string, lookahead: int, how: Scheduling): Sys {
    if id in s.jobs || datasetId !in s.datasets then s else ScheduleJobStep(c, AddJob(c, s, id, datasetId, lookahead), id, how)
  }

  function WithFeedback(s: Sys, j: string, feedback: Option<real>): Sys
    requires j in s.jobs
  {
    if feedback.Some? then WithJob(s, j, s.jobs[j].(compute := feedback.value)) else s
  }

  function NextPlanned(s: Sys, j: string): Option<Batch>
    requires j in s.jobs
  {
    FindBatch(s.jobs[j].planned, s.jobs[j].epoch, s.jobs[j].next)
  }

  /** Plans again if the next batch is not in the window. */
  function Prepared(c: Config, s: Sys, j: string): Sys
    requires j in s.jobs
  {
    if NextPlanned(s, j).None? then Refreshed(c, s, j) else s
  }

  /** Hands a READY batch to the job: touch, pin, advance, plan again. */
  function Served(c: Config, s: Sys, j: string, batch: Batch, now: int): Sys
    requires j in s.jobs
  {
    var pins := if batch.id in s.board.entries then Pin(s.pins, batch.id, j) else s.pins;
    Refreshed(c, s.(board := Touch(s.board, batch.id, now), pins := pins, jobs := s.jobs[j := Advanced(s, s.jobs[j], batch)],
                    jobHistory := NoteJob(s.jobHistory, j, Issued(batch))), j)
  }

  function NextBatchStep(c: Config, s: Sys, j: string, feedback: Option<real>, now: int): Sys {
    if j !in s.jobs then s
    else
      var s1 := WithFeedback(s, j, feedback);
      if !s1.jobs[j].status.Active? then s1
      else
        var s2 := Prepared(c, s1, j);
        var batch := NextPlanned(s2, j);
        if batch.Some? && IsReady(s2.board, batch.value.id) then Served(c, s2, j, batch.value, now) else s2
  }

  datatype Reply = UnknownJob | Done | Ready(batch: Batch, handle: Handle) | Pending(batch: Batch) | Broken(batch: Batch)

  /** resolve_batch_handle */
  function Resolve(b: Board, batch: Batch): Reply {
    var k := batch.id;
    if k in b.handles then Reply.Ready(batch, b.handles[k])
    else if Indexed(b, k) && (StatusOf(b, k).Pending? || StatusOf(b, k).Running?) then Reply.Pending(batch)
    else if Indexed(b, k) && (StatusOf(b, k).Failed? || StatusOf(b, k).Cancelled?) then Broken(batch)
    else if k in b.entries && b.entries[k].status.EntryFailed? then Broken(batch)
    else Reply.Pending(batch)
  }

  /** What get_next_batch answers. */
  function NextBatchReply(c: Config, s: Sys, j: string, feedback: Option<real>): Reply {
    if j !in s.jobs then UnknownJob
    else
      var s1 := WithFeedback(s, j, feedback);
      if !s1.jobs[j].status.Active? then Done
      else
        var s2 := Prepared(c, s1, j);
        var batch := NextPlanned(s2, j);
        if batch.None? then Done else Resolve(s2.board, batch.value)
  }

  function AcknowledgeStep(s: Sys, j: string, batchId: string, epoch: nat): Sys {
    if j !in s.jobs || epoch > s.jobs[j].epoch then s
    else s.(pins := Unpin(s.pins, batchId, j), jobHistory := NoteJob(s.jobHistory, j, Acked(batchId)))
  }

  function FinishJobStep(s: Sys, j: string, status: JobStatus): Sys {
    if j !in s.jobs then s
    else
      var job := s.jobs[j];
      s.(jobs := s.jobs[j := job.(status := if job.status.Active? then status else job.status, planned := [])],
         board := if job.status.Active? then CancelTasksOf(s.board, j) else s.board,
         pins := Release(s.pins, j), jobHistory := NoteJob(s.jobHistory, j, Closed))
  }

  // Worker calls.

  function RegisterWorkerStep(s: Sys, w: string): Sys {
    s.(workers := s.workers[w := {}])
  }

  predicate IsPending(b: Board, t: nat) {
    t in b.tasks && b.tasks[t].status.Pending?
  }

  /** Task a with id t is taken later than task b with id u: opportunistic tasks last, then by priority, then by age. */
  predicate Behind(a: Task, t: nat, b: Task, u: nat) {
    || (a.jobId == "" && b.jobId != "")
    || ((a.jobId == "" <==> b.jobId == "") && (a.priority < b.priority || (a.priority == b.priority && u < t)))
  }

  /** choose_next_task_for_worker: near-term demand first, then priority, then age. */
  predicate Chosen(b: Board, choice: Option<nat>) {
    match choice
    case None => forall t :: t in b.tasks ==> !IsPending(b, t)
    case Some(best) =>
      && IsPending(b, best)
      && forall t :: t in b.tasks && IsPending(b, t) && t != best ==> Behind(b.tasks[t], t, b.tasks[best], best)
  }

  lemma ChosenIsPending(b: Board, choice: Option<nat>)
    requires Chosen(b, choice)
    ensures choice.Some? ==> IsPending(b, choice.value)
  {
  }

  function OwnerActive(s: Sys, t: nat): bool
    requires t in s.board.tasks
  {
    s.board.tasks[t].jobId == "" || IsActive(s, s.board.tasks[t].jobId)
  }

  function PollStep(s: Sys, w: string, choice: Option<nat>): Sys {
    if w !in s.workers || choice.None? || !IsPending(s.board, choice.value) then s
    else
      var t := choice.value;
      var board := Assign(s.board, t, w, OwnerActive(s, t));
      if OwnerActive(s, t) then
        s.(board := board, workers := s.workers[w := s.workers[w] + {t}],
           keyHistory := NoteKey(s.keyHistory, s.board.tasks[t].batch.id, Started))
      else s.(board := board)
  }

  /** The worker finds the payload in Redis. */
  function WorkerFindsStep(s: Sys, t: nat): Sys {
    s.(confirmed := s.confirmed + {t})
  }

  /** The worker makes the payload and puts it into Redis. */
  function WorkerPutsStep(c: Config, s: Sys, t: nat): Sys
    requires t in s.board.tasks
  {
    s.(redis := s.redis + {RedisKey(c, s.board.tasks[t].batch.id)}, confirmed := s.confirmed + {t}, made := s.made + {t})
  }

  function Unassigned(s: Sys, t: nat): map<string, set<nat>>
    requires t in s.board.tasks
  {
    var w := s.board.tasks[t].worker;
    if w in s.workers then s.workers[w := s.workers[w] - {t}] else s.workers
  }

  // Admission.

  /** _evict_reusable_payload */
  function Evict(s: Sys, k: string): Sys {
    if InUse(s.pins, k) || k !in s.board.entries then s
    else
      var fetchKey := s.board.entries[k].fetchKey;
      s.(board := Remove(s.board, k), redis := if fetchKey == "" then s.redis else s.redis - {fetchKey},
         keyHistory := NoteKey(s.keyHistory, k, Dropped))
  }

  function EvictAll(s: Sys, victims: seq<string>): Sys {
    if victims == [] then s else Evict(EvictAll(s, victims[..|victims| - 1]), victims[|victims| - 1])
  }

  datatype Placement = Placement(storage: StorageClass, location: Location, expires: Option<int>, fetchKey: string, forced: bool)

  predicate FallbackGiven(f: Option<Fallback>) {
    f.Some? && f.value.host != "" && f.value.port > 0 && f.value.key != ""
  }

  /** _use_transient_fallback: without a usable fallback the payload is kept where it no longer is. */
  function Rejected(redisKey: string, f: Option<Fallback>): Placement {
    if !FallbackGiven(f) then Placement(Reusable, Redis, None, redisKey, true)
    else Placement(Transient, Worker(f.value.host, f.value.port), if f.value.expires == 0 then None else Some(f.value.expires), f.value.key, false)
  }

  /** Whether admit_reusable_payload keeps the payload, once the victims are gone. */
  ghost predicate Fits(c: Config, s: Sys, size: int, victims: Option<seq<string>>) {
    victims.Some? && (c.capacity <= 0 || CacheBytes(EvictAll(s, victims.value).board.entries) + size <= c.capacity)
  }

  /** The state after the cache has decided about the payload of key k, before it is recorded. */
  ghost function Decided(c: Config, s: Sys, k: string, size: int, victims: Option<seq<string>>): Sys {
    var after := if victims.Some? then EvictAll(s, victims.value) else s;
    if Fits(c, s, size, victims) then after else after.(redis := after.redis - {RedisKey(c, k)})
  }

  ghost function Placed(c: Config, s: Sys, k: string, o: Outcome, storage: StorageClass, victims: Option<seq<string>>): Placement {
    match o
    case InWorker(host, port, _, expires, _) => Placement(storage, Worker(host, port), expires, k, false)
    case InRedis(size, fallback, _) =>
      if Fits(c, s, size, victims) then Placement(Reusable, Redis, None, RedisKey(c, k), false)
      else Rejected(RedisKey(c, k), fallback)
  }

  function Learned(c: Config, s: Sys, datasetId: string, o: Outcome): Sys {
    s.(est := Estimates(if o.seconds.Some? then Averaged(s.est.prep, datasetId, o.seconds.value, c.alpha) else s.est.prep,
                        Averaged(s.est.size, datasetId, o.size as real, c.alpha)))
  }

  function EntryFor(batch: Batch, p: Placement, size: int, now: int): Entry {
    Entry(EntryAvailable, p.storage, p.location, size, p.expires, now, p.fetchKey, batch.datasetId, p.forced)
  }

  /** complete_task with the entry and its READY handle. */
  function Recorded(s: Sys, t: nat, entry: Entry): Sys
    requires t in s.board.tasks
  {
    s.(board := Complete(s.board, t, entry), workers := Unassigned(s, t), confirmed := s.confirmed - {t}, made := s.made - {t},
       keyHistory := NoteKey(s.keyHistory, s.board.tasks[t].batch.id, Finished))
  }

  ghost function CompleteStep(c: Config, s: Sys, t: nat, o: Outcome, victims: Option<seq<string>>, now: int): Sys {
    if t !in s.board.tasks then s
    else
      var task := s.board.tasks[t];
      var k := task.batch.id;
      var s1 := Learned(c, s, task.batch.datasetId, o);
      var s2 := if o.InRedis? then Decided(c, s1, k, o.size, victims) else s1;
      if t !in s2.board.tasks then s2
      else
        Recorded(s2, t, EntryFor(task.batch, Placed(c, s1, k, o, task.storage, victims), o.size, now))
          .(reported := s.reported[k := o.size])
  }

  function FailStep(s: Sys, t: nat): Sys {
    if t !in s.board.tasks then s
    else
      s.(board := Fail(s.board, t), workers := Unassigned(s, t), confirmed := s.confirmed - {t}, made := s.made - {t},
         keyHistory := NoteKey(s.keyHistory, s.board.tasks[t].batch.id, Broke))
  }

  // Maintainer passes.

  predicate Expired(e: Entry, now: int) {
    e.expires.Some? && now >= e.expires.value
  }

  /** One entry of _cleanup_expired_payload_metadata. */
  function ExpireStep(s: Sys, k: string, now: int): Sys {
    if k !in s.board.entries || !Expired(s.board.entries[k], now) || InUse(s.pins, k) then s
    else s.(board := Remove(s.board, k), keyHistory := NoteKey(s.keyHistory, k, Dropped))
  }

  /** create_task with a fresh id; an existing live task is kept. */
  function AddTask(s: Sys, batch: Batch, jobId: string, priority: real, storage: StorageClass, now: int): Sys {
    if Indexed(s.board, batch.id) && Live(StatusOf(s.board, batch.id)) then s
    else
      s.(board := CreateTask(s.board, s.nextTask, Task(batch, jobId, priority, storage, TaskStatus.Pending, ""), now),
         nextTask := s.nextTask + 1)
  }

  /** The body of the scheduling loop: a batch that is neither ready nor in progress gets a task. */
  function ScheduleOne(c: Config, s: Sys, j: string, batch: Batch, how: Scheduling): Sys {
    if ReadyOrInFlight(s.board, batch.id) then s
    else AddTask(s, batch, j, how.priority(batch.id), if c.reuse then how.storage(batch.id) else Transient, how.now)
  }

  function ScheduleAll(c: Config, s: Sys, j: string, batches: seq<Batch>, how: Scheduling): Sys {
    if batches == [] then s
    else ScheduleOne(c, ScheduleAll(c, s, j, batches[..|batches| - 1], how), j, batches[|batches| - 1], how)
  }

  /** _schedule_job_batches */
  function ScheduleJobStep(c: Config, s: Sys, j: string, how: Scheduling): Sys {
    if j !in s.jobs then s
    else if !s.jobs[j].status.Active? then WithJob(s, j, s.jobs[j].(planned := []))
    else
      var s1 := Replenished(c, s, j);
      ScheduleAll(c, s1, j, First(TargetDepth(c, s1.est, s1.jobs[j]), Upcoming(s1.jobs[j])), how)
  }

  // The opportunistic pass.

  function RoundHalfEven(x: real): int {
    var low := x.Floor;
    var rest := x - low as real;
    if rest < 0.5 || (rest == 0.5 && low % 2 == 0) then low else low + 1
  }

  /** Whether some choice of victims makes room for a payload of that value and size. */
  ghost predicate RoomCanBeMade(c: Config, s: Sys, incoming: real, size: int) {
    || c.capacity <= 0
    || (Max(0, size) <= c.capacity
        && (NeededBytes(c, s, size) <= 0 || BytesIn(s.board.entries, Candidates(c, s, incoming)) >= NeededBytes(c, s, size)))
  }

  /** can_admit_estimated_payload */
  ghost predicate CanAdmit(c: Config, s: Sys, batch: Batch) {
    var estimated := RoundHalfEven(if batch.datasetId in s.est.size then s.est.size[batch.datasetId] else 0.0);
    || c.capacity <= 0
    || (if estimated <= 0 then CacheBytes(s.board.entries) < c.capacity
        else RoomCanBeMade(c, s, Value(c, s, batch.id, batch.datasetId), estimated))
  }

  /** can_opportunistically_prefetch */
  predicate CanPrefetch(c: Config, s: Sys, batch: Batch) {
    c.reuse && c.opportunistic && !ReadyOrInFlight(s.board, batch.id) && Value(c, s, batch.id, batch.datasetId) > 0.0
  }

  function CountWhere(workers: map<string, set<nat>>): nat {
    |set w | w in workers && workers[w] == {}|
  }

  /** count_idle_workers */
  function IdleWorkers(s: Sys): nat {
    CountWhere(s.workers)
  }

  function PendingTasks(b: Board): set<nat> {
    set t | t in b.tasks && b.tasks[t].status.Pending?
  }

  predicate CoveredToTarget(c: Config, s: Sys, j: string) {
    IsActive(s, j) ==> CoveredWithin(s, s.jobs[j], TargetDepth(c, s.est, s.jobs[j])) >= TargetDepth(c, s.est, s.jobs[j])
  }

  predicate MayPrefetch(c: Config, s: Sys) {
    && c.reuse && c.opportunistic && c.redis
    && (exists j :: j in s.jobs && IsActive(s, j))
    && (forall j :: j in s.jobs ==> CoveredToTarget(c, s, j))
    && IdleWorkers(s) > |PendingTasks(s.board)|
  }

  /** The job's batches beyond its target depth, within its extended lookahead. */
  function Beyond(c: Config, est: Estimates, job: Job): seq<Batch> {
    var extended := First(ExtendedDepth(c, est, job), Upcoming(job));
    extended[Min(TargetDepth(c, est, job), |extended|)..]
  }

  /** A batch beyond some job's target depth that is worth fetching early. */
  ghost predicate PrefetchCandidate(c: Config, s: Sys, batch: Batch) {
    && CanPrefetch(c, s, batch) && CanAdmit(c, s, batch)
    && (exists j :: j in s.jobs && IsActive(s, j) && batch in Beyond(c, s.est, s.jobs[j]))
  }

  /** The candidates, one per key, most valuable first. */
  ghost predicate Ranking(c: Config, s: Sys, ranking: seq<Batch>) {
    && (forall i :: 0 <= i < |ranking| ==> PrefetchCandidate(c, s, ranking[i]))
    && (forall batch: Batch :: PrefetchCandidate(c, s, batch) ==> exists i :: 0 <= i < |ranking| && ranking[i].id == batch.id)
    && (forall i, j :: 0 <= i < j < |ranking| ==> ranking[i].id != ranking[j].id && MoreValuable(c, s, ranking[i], ranking[j]))
  }

  predicate MoreValuable(c: Config, s: Sys, a: Batch, b: Batch) {
    var va, vb := Value(c, s, a.id, a.datasetId), Value(c, s, b.id, b.datasetId);
    va > vb || (va == vb && Precedes(b.id, a.id))
  }

  ghost function PrefetchOne(c: Config, s: Sys, batch: Batch, now: int): Sys {
    if !CanPrefetch(c, s, batch) || !CanAdmit(c, s, batch) then s
    else AddTask(s, batch, "", Value(c, s, batch.id, batch.datasetId), Reusable, now)
  }

  /** The scheduling loop of the pass: at most slots new tasks. */
  ghost function PrefetchAll(c: Config, s: Sys, ranking: seq<Batch>, slots: nat, now: int): Sys {
    if ranking == [] then s
    else
      var before := PrefetchAll(c, s, ranking[..|ranking| - 1], slots, now);
      if before.nextTask >= s.nextTask + slots then before else PrefetchOne(c, before, ranking[|ranking| - 1], now)
  }

  /** _schedule_opportunistic_prefetch */
  ghost function PrefetchStep(c: Config, s: Sys, ranking: seq<Batch>, now: int): Sys {
    if !MayPrefetch(c, s) then s else PrefetchAll(c, s, ranking, IdleWorkers(s) - |PendingTasks(s.board)|, now)
  }

  // Steps and runs.

  predicate IsRunning(s: Sys, t: nat) {
    t in s.board.tasks && s.board.tasks[t].status.Running?
  }

  /** Task t is being worked on for Redis, and its worker has not yet seen the payload there. */
  predicate UsesRedis(c: Config, s: Sys, t: nat) {
    c.redis && IsRunning(s, t) && s.board.tasks[t].storage.Reusable? && t !in s.confirmed
  }

  /**
   * What the surroundings are trusted with: a data set is registered once and has a positive batch
   * size, job ids are not empty, a finished job is not reported as active, and a worker reports
   * exactly one outcome for a task it was given: a Redis one only after it has found the payload
   * there or put it there, and only in the second case with its own copy as a fallback and a duration.
   */
  ghost predicate Allowed(c: Config, s: Sys, a: Action) {
    match a
    case RegisterDataset(d) => d.id !in s.datasets && d.batchSize > 0
    case StartJob(id, _, _, _) => id != ""
    case FinishJob(_, status) => !status.Active?
    case Poll(_, choice) => Chosen(s.board, choice)
    case WorkerFinds(t) => UsesRedis(c, s, t) && RedisKey(c, s.board.tasks[t].batch.id) in s.redis
    case WorkerPuts(t) => UsesRedis(c, s, t)
    case CompleteTask(t, o, victims, _) =>
      && IsRunning(s, t)
      && (o.InRedis? ==>
            && c.redis && s.board.tasks[t].storage.Reusable? && t in s.confirmed
            && (o.fallback.Some? <==> t in s.made) && (o.seconds.Some? <==> t in s.made)
            && var s1 := Learned(c, s, s.board.tasks[t].batch.datasetId, o);
               Chooses(c, s1, Value(c, s1, s.board.tasks[t].batch.id, s.board.tasks[t].batch.datasetId), o.size, victims))
    case FailTask(t) => IsRunning(s, t)
    case PrefetchPass(ranking, _) => Ranking(c, s, ranking)
    case _ => true
  }

  ghost function Apply(c: Config, s: Sys, a: Action): Sys
    requires Allowed(c, s, a)
  {
    match a
    case RegisterDataset(d) => RegisterDatasetStep(s, d)
    case StartJob(id, datasetId, lookahead, how) => StartJobStep(c, s, id, datasetId, lookahead, how)
    case NextBatch(id, feedback, now) => NextBatchStep(c, s, id, feedback, now)
    case Acknowledge(id, batchId, epoch) => AcknowledgeStep(s, id, batchId, epoch)
    case FinishJob(id, status) => FinishJobStep(s, id, status)
    case RegisterWorker(w) => RegisterWorkerStep(s, w)
    case Poll(w, choice) => PollStep(s, w, choice)
    case WorkerFinds(t) => WorkerFindsStep(s, t)
    case WorkerPuts(t) => WorkerPutsStep(c, s, t)
    case CompleteTask(t, o, victims, now) => CompleteStep(c, s, t, o, victims, now)
    case FailTask(t) => FailStep(s, t)
    case ExpireEntry(k, now) => ExpireStep(s, k, now)
    case ScheduleJob(id, how) => ScheduleJobStep(c, s, id, how)
    case PrefetchPass(ranking, now) => PrefetchStep(c, s, ranking, now)
  }

  ghost predicate ValidRun(c: Config, s: Sys, run: seq<Action>)
    decreases |run|
  {
    run == [] || (Allowed(c, s, run[0]) && ValidRun(c, Apply(c, s, run[0]), run[1..]))
  }

  ghost function After(c: Config, s: Sys, run: seq<Action>): Sys
    requires ValidRun(c, s, run)
    decreases |run|
  {
    if run == [] then s else After(c, Apply(c, s, run[0]), run[1..])
  }
}

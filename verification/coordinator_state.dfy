/**
 * The coordinator's state and the questions its policies ask about it:
 * batchflow/coordinator/store.py and batchflow/coordinator/scheduler.py.
 */
module CoordinatorState {
  import opened Text
  import opened Sequences
  import opened CoordinatorPlan
  import opened CoordinatorBoard
  import opened CoordinatorPins

  datatype Config = Config(shuffle: Shuffle, defaultLookahead: int, reuse: bool, opportunistic: bool, targetReady: int,
                           multiplier: int, capacity: int, beta: real, alpha: real, redis: bool, keyPrefix: string)

  datatype JobStatus = Active | JobCompleted | JobCancelled | JobFailed

  /** compute is the reported average compute time; planned is the job's window. */
  datatype Job = Job(datasetId: string, lookahead: int, epoch: nat, next: nat, status: JobStatus, compute: real, planned: seq<Batch>)

  /** Moving averages per data set: preparation time and payload size. */
  datatype Estimates = Estimates(prep: map<string, real>, size: map<string, real>)

  /**
   * order lists the jobs as they were started. confirmed are the running tasks whose worker has
   * seen its payload in Redis, made those of them whose worker has put it there itself. What
   * follows only records what happened: the histories, and per payload the size last reported for it.
   */
  datatype Sys = Sys(
    datasets: map<string, Dataset>,
    jobs: map<string, Job>,
    order: seq<string>,
    board: Board,
    pins: Pins,
    workers: map<string, set<nat>>,
    est: Estimates,
    nextTask: nat,
    redis: set<string>,
    confirmed: set<nat>,
    made: set<nat>,
    keyHistory: KeyHistory,
    jobHistory: JobHistory,
    reported: map<string, int>)

  type KeyHistory = map<string, seq<KeyEvent>>
  type JobHistory = map<string, seq<JobEvent>>

  function KeyLog(h: KeyHistory, k: string): seq<KeyEvent> {
    if k in h then h[k] else []
  }

  function JobLog(h: JobHistory, j: string): seq<JobEvent> {
    if j in h then h[j] else []
  }

  function NoteKey(h: KeyHistory, k: string, e: KeyEvent): KeyHistory {
    h[k := KeyLog(h, k) + [e]]
  }

  function NoteJob(h: JobHistory, j: string, e: JobEvent): JobHistory {
    h[j := JobLog(h, j) + [e]]
  }

  predicate IsActive(s: Sys, j: string) {
    j in s.jobs && s.jobs[j].status.Active?
  }

  /** RedisPayloadStore.make_key */
  function RedisKey(c: Config, k: string): string {
    c.keyPrefix + ":" + k
  }

  // Windows.

  function OwnerIn(c: Config, j: string): string {
    if c.reuse then "" else j
  }

  function WindowOf(c: Config, d: Dataset, j: string, job: Job): seq<Batch>
    requires d.batchSize > 0
  {
    Window(c.shuffle, d, job.epoch, job.next, Lookahead(job.lookahead, c.defaultLookahead), OwnerIn(c, j))
  }

  /** The planned batches that are still to come. */
  function Ahead(planned: seq<Batch>, epoch: nat, next: nat): seq<Batch> {
    if planned == [] then []
    else
      var before := Ahead(planned[..|planned| - 1], epoch, next);
      var last := planned[|planned| - 1];
      if last.epoch == epoch && last.index >= next then before + [last] else before
  }

  /** upcoming_batches */
  function Upcoming(job: Job): seq<Batch> {
    Ahead(job.planned, job.epoch, job.next)
  }

  function First<T>(n: int, xs: seq<T>): seq<T> {
    xs[..Min(Max(0, n), |xs|)]
  }

  /** get_batch: the first planned batch with this epoch and index. */
  function FindBatch(planned: seq<Batch>, epoch: nat, index: nat): Option<Batch> {
    if planned == [] then None
    else if planned[0].epoch == epoch && planned[0].index == index then Some(planned[0])
    else FindBatch(planned[1..], epoch, index)
  }

  // Target depth and coverage.

  function CeilDiv(a: real, b: real): int
    requires b > 0.0
  {
    -((-(a / b)).Floor)
  }

  function PrepEstimate(est: Estimates, datasetId: string, default: real): real {
    if datasetId in est.prep then est.prep[datasetId] else default
  }

  /** target_lookahead_depth */
  function TargetDepth(c: Config, est: Estimates, job: Job): (depth: nat)
    ensures depth >= 1
  {
    var prep := PrepEstimate(est, job.datasetId, 0.0);
    var wish := if job.compute > 0.0 && prep > 0.0 then CeilDiv(prep, job.compute) else c.targetReady;
    var depth := Max(1, wish);
    if job.lookahead > 0 then Min(depth, job.lookahead) else depth
  }

  /** extended_lookahead_multiplier times the target depth */
  function ExtendedDepth(c: Config, est: Estimates, job: Job): (depth: nat)
    ensures depth >= TargetDepth(c, est, job)
  {
    MulMonotone(1, Max(1, c.multiplier), TargetDepth(c, est, job));
    Max(1, c.multiplier) * TargetDepth(c, est, job)
  }

  predicate ReadyOrInFlight(b: Board, k: string) {
    IsReady(b, k) || InProgress(b, k)
  }

  function CoveredCount(b: Board, batches: seq<Batch>): (n: nat)
    ensures n <= |batches|
  {
    if batches == [] then 0
    else CoveredCount(b, batches[..|batches| - 1]) + if ReadyOrInFlight(b, batches[|batches| - 1].id) then 1 else 0
  }

  /** count_ready_or_inflight_in_window, for the job's own position. */
  function CoveredWithin(s: Sys, job: Job, limit: nat): nat {
    CoveredCount(s.board, First(limit, Upcoming(job)))
  }

  // The value of keeping a payload.

  function Position(batches: seq<Batch>, k: string): Option<nat> {
    if batches == [] then None
    else if batches[0].id == k then Some(0)
    else
      var p := Position(batches[1..], k);
      if p.Some? then Some(p.value + 1) else None
  }

  /** How soon the job will ask for the payload; None if not within its extended lookahead. */
  function DemandPosition(c: Config, s: Sys, j: string, k: string, datasetId: string): Option<nat> {
    if IsActive(s, j) && s.jobs[j].datasetId == datasetId
    then Position(First(ExtendedDepth(c, s.est, s.jobs[j]), Upcoming(s.jobs[j])), k)
    else None
  }

  function Demand(c: Config, s: Sys, ids: seq<string>, k: string, datasetId: string): real {
    if ids == [] then 0.0
    else
      var p := DemandPosition(c, s, ids[|ids| - 1], k, datasetId);
      Demand(c, s, ids[..|ids| - 1], k, datasetId) + if p.Some? then 1.0 / (p.value + 1) as real else 0.0
  }

  function Coverage(c: Config, s: Sys, job: Job): real {
    var depth := TargetDepth(c, s.est, job);
    var ratio := CoveredWithin(s, job, depth) as real / depth as real;
    if ratio <= 1.0 then ratio else 1.0
  }

  function Shortage(c: Config, s: Sys, ids: seq<string>, k: string, datasetId: string): real {
    if ids == [] then 0.0
    else
      var j := ids[|ids| - 1];
      Shortage(c, s, ids[..|ids| - 1], k, datasetId)
      + if DemandPosition(c, s, j, k, datasetId).Some? && IsActive(s, j) then 1.0 - Coverage(c, s, s.jobs[j]) else 0.0
  }

  /** compute_cache_key_value */
  function Value(c: Config, s: Sys, k: string, datasetId: string): real {
    if !c.reuse then 0.0
    else
      var demand := Demand(c, s, s.order, k, datasetId);
      if demand <= 0.0 then 0.0
      else demand * PrepEstimate(s.est, datasetId, 1.0) * (1.0 + c.beta * Shortage(c, s, s.order, k, datasetId))
  }

  /** Job j is active on the data set and has the payload within its extended lookahead. */
  predicate WantedBy(c: Config, s: Sys, j: string, k: string, datasetId: string) {
    && IsActive(s, j) && s.jobs[j].datasetId == datasetId
    && exists b :: b in First(ExtendedDepth(c, s.est, s.jobs[j]), Upcoming(s.jobs[j])) && b.id == k
  }

  ghost predicate Wanted(c: Config, s: Sys, k: string, datasetId: string) {
    exists j: string :: WantedBy(c, s, j, k, datasetId)
  }

  predicate EstimatesPositive(est: Estimates) {
    forall d :: d in est.prep ==> est.prep[d] > 0.0
  }

  predicate JobsListed(s: Sys) {
    forall j :: j in s.jobs ==> j in s.order
  }

  lemma {:induction false} PositionFinds(batches: seq<Batch>, k: string)
    ensures Position(batches, k).Some? <==> exists b :: b in batches && b.id == k
  {
    if batches != [] {
      PositionFinds(batches[1..], k);
      assert batches == [batches[0]] + batches[1..];
    }
  }

  lemma {:induction false} DemandCounts(c: Config, s: Sys, ids: seq<string>, k: string, datasetId: string)
    ensures Demand(c, s, ids, k, datasetId) >= 0.0
    ensures Demand(c, s, ids, k, datasetId) > 0.0 <==> exists j :: j in ids && DemandPosition(c, s, j, k, datasetId).Some?
  {
    hide DemandPosition;
    if ids != [] {
      DemandCounts(c, s, ids[..|ids| - 1], k, datasetId);
      assert ids == ids[..|ids| - 1] + [ids[|ids| - 1]];
    }
  }

  lemma {:induction false} ShortageNotNegative(c: Config, s: Sys, ids: seq<string>, k: string, datasetId: string)
    ensures Shortage(c, s, ids, k, datasetId) >= 0.0
  {
    hide DemandPosition, CoveredWithin, TargetDepth;
    if ids != [] {
      ShortageNotNegative(c, s, ids[..|ids| - 1], k, datasetId);
    }
  }

  lemma ProductPositive(a: real, b: real, c: real)
    requires a > 0.0 && b > 0.0 && c > 0.0
    ensures a * b * c > 0.0
  {
    assert a * b > 0.0;
  }

  lemma WorthPositive(beta: real, shortage: real)
    requires beta >= 0.0 && shortage >= 0.0
    ensures 1.0 + beta * shortage > 0.0
  {
    assert beta * shortage >= 0.0;
  }

  lemma WantedPosition(c: Config, s: Sys, j: string, k: string, datasetId: string)
    ensures DemandPosition(c, s, j, k, datasetId).Some? <==> WantedBy(c, s, j, k, datasetId)
  {
    if IsActive(s, j) {
      PositionFinds(First(ExtendedDepth(c, s.est, s.jobs[j]), Upcoming(s.jobs[j])), k);
      hide First, Upcoming, ExtendedDepth, Position;
    }
  }

  /** A payload has a positive value exactly when some active job wants it. */
  lemma ValuePositiveIffWanted(c: Config, s: Sys, k: string, datasetId: string)
    requires c.reuse && c.beta >= 0.0 && EstimatesPositive(s.est) && JobsListed(s)
    ensures Value(c, s, k, datasetId) >= 0.0
    ensures Value(c, s, k, datasetId) > 0.0 <==> Wanted(c, s, k, datasetId)
  {
    var demand, shortage := Demand(c, s, s.order, k, datasetId), Shortage(c, s, s.order, k, datasetId);
    DemandCounts(c, s, s.order, k, datasetId);
    ShortageNotNegative(c, s, s.order, k, datasetId);
    WorthPositive(c.beta, shortage);
    var prep, worth := PrepEstimate(s.est, datasetId, 1.0), 1.0 + c.beta * shortage;
    assert prep > 0.0;
    if demand > 0.0 {
      ProductPositive(demand, prep, worth);
    }
    assert Value(c, s, k, datasetId) == if demand <= 0.0 then 0.0 else demand * prep * worth;
    forall j: string
      ensures DemandPosition(c, s, j, k, datasetId).Some? <==> WantedBy(c, s, j, k, datasetId)
      ensures WantedBy(c, s, j, k, datasetId) ==> j in s.order
    {
      WantedPosition(c, s, j, k, datasetId);
    }
    hide DemandPosition, WantedBy, Value, Demand, Shortage, PrepEstimate;
  }

  // Estimates stay positive.

  function Clipped(alpha: real): real {
    if alpha < 0.0 then 0.0 else if alpha > 1.0 then 1.0 else alpha
  }

  function Blend(a: real, sample: real, previous: real): real {
    a * sample + (1.0 - a) * previous
  }

  /** update_preparation_time and update_payload_size_estimate */
  function Averaged(m: map<string, real>, id: string, sample: real, alpha: real): map<string, real> {
    if sample <= 0.0 then m
    else m[id := if id in m then Blend(Clipped(alpha), sample, m[id]) else sample]
  }

  lemma AveragePositive(a: real, x: real, y: real)
    requires 0.0 <= a <= 1.0 && x > 0.0 && y > 0.0
    ensures Blend(a, x, y) > 0.0
  {
    if a > 0.0 {
      assert a * x > 0.0 && (1.0 - a) * y >= 0.0;
    }
  }

  lemma AveragesStayPositive(m: map<string, real>, id: string, sample: real, alpha: real)
    requires forall d :: d in m ==> m[d] > 0.0
    ensures forall d :: d in Averaged(m, id, sample, alpha) ==> Averaged(m, id, sample, alpha)[d] > 0.0
  {
    if sample > 0.0 && id in m {
      AveragePositive(Clipped(alpha), sample, m[id]);
    }
  }
}

/**
 * No reachable state of the coordinator is a dead end for a trainer: maintainer and workers alone
 * can always bring an active job's next batch to READY, whatever has failed or been cancelled.
 */
module CoordinatorProgress {
  import opened Text
  import opened Sequences
  import opened CoordinatorPlan
  import opened CoordinatorBoard
  import opened CoordinatorPins
  import opened CoordinatorState
  import opened CoordinatorService
  import opened CoordinatorInvariants
  import opened CoordinatorBoardSteps
  import opened CoordinatorJobSteps
  import opened CoordinatorRuns
  import opened CoordinatorScheduling
  import opened CoordinatorTiny

  predicate BestOf(tasks: map<nat, Task>, among: set<nat>, best: nat) {
    && best in among && best in tasks
    && forall t :: t in among && t in tasks && t != best ==> Behind(tasks[t], t, tasks[best], best)
  }

  lemma {:induction false} BestExists(tasks: map<nat, Task>, among: set<nat>) returns (best: nat)
    requires among != {} && among <= tasks.Keys
    ensures BestOf(tasks, among, best)
    decreases among
  {
    var t :| t in among;
    if among == {t} {
      best := t;
    } else {
      var rest := BestExists(tasks, among - {t});
      best := if Behind(tasks[rest], rest, tasks[t], t) then t else rest;
    }
  }

  /** There is always a task to choose, unless none is waiting. */
  lemma ChoiceExists(b: Board) returns (choice: Option<nat>)
    ensures Chosen(b, choice)
    ensures choice.Some? <==> PendingTasks(b) != {}
  {
    if PendingTasks(b) == {} {
      choice := None;
      forall t | t in b.tasks
        ensures !IsPending(b, t)
      {
        assert t !in PendingTasks(b);
      }
    } else {
      var best := BestExists(b.tasks, PendingTasks(b));
      choice := Some(best);
    }
  }

  /** Job j is active and waits for batch k. */
  predicate Awaits(s: Sys, j: string, k: string) {
    IsActive(s, j) && NextPlanned(s, j).Some? && NextPlanned(s, j).value.id == k
  }

  /** Asking for its next batch, job j is given it with handle h. */
  predicate Answered(c: Config, s: Sys, j: string, h: Handle) {
    var reply := NextBatchReply(c, s, j, None);
    reply.Ready? && reply.handle == h
  }

  /** _validate_ready_handle: what a trainer asks of a READY handle. */
  predicate Accepted(h: Handle) {
    h.fetchKey != "" && (h.location.Redis? || (h.location.Worker? && h.location.host != "" && h.location.port > 0))
  }

  /** The handle of a payload that its worker keeps and serves at host and port. */
  function KeptBy(k: string, host: string, port: nat): Handle {
    Handle(k, Worker(host, port), k, None, false)
  }

  /** Only the maintainer and workers act, and no trainer is needed. */
  predicate Backstage(a: Action) {
    a.RegisterWorker? || a.Poll? || a.CompleteTask? || a.ScheduleJob?
  }

  predicate BackstageRun(run: seq<Action>) {
    forall i :: 0 <= i < |run| ==> Backstage(run[i])
  }

  lemma ReadyIsAnswered(c: Config, s: Sys, j: string, k: string)
    requires Inv(c, s) && Awaits(s, j, k) && IsReady(s.board, k)
    ensures Answered(c, s, j, s.board.handles[k])
  {
    hide Inv, JobInv, FindBatch;
    InvHasJobs(c, s);
    PreparedIsIdle(c, s, j);
  }

  /** The report of a worker that keeps the payload itself and serves it at host and port. */
  function Report(t: nat, host: string, port: nat): Action {
    CompleteTask(t, InWorker(host, port, 0, None, None), None, 0)
  }

  lemma ReportServes(c: Config, s: Sys, j: string, k: string, t: nat, host: string, port: nat)
    requires Inv(c, s) && Awaits(s, j, k) && IsRunning(s, t) && s.board.tasks[t].batch.id == k
    ensures Allowed(c, s, Report(t, host, port)) && Answered(c, Apply(c, s, Report(t, host, port)), j, KeptBy(k, host, port))
  {
    hide Inv, Answered, Averaged;
    var s' := Apply(c, s, Report(t, host, port));
    StepPreserves(c, s, Report(t, host, port));
    ReadyIsAnswered(c, s', j, k);
  }

  /** One poll takes one waiting task and leaves the others. */
  lemma PollTakesOne(c: Config, s: Sys, w: string, choice: Option<nat>)
    requires Inv(c, s) && w in s.workers && choice.Some? && Chosen(s.board, choice)
    ensures var s' := PollStep(s, w, choice);
            && s'.jobs == s.jobs && w in s'.workers && s'.board.index == s.board.index
            && IsRunning(s', choice.value) && s'.board.tasks.Keys == s.board.tasks.Keys
            && PendingTasks(s'.board) == PendingTasks(s.board) - {choice.value}
            && (forall t :: t in s.board.tasks ==> s'.board.tasks[t].batch == s.board.tasks[t].batch)
  {
    hide Coherent, JobInv, PinInv, BudgetKept, PhasesTold, NoteKey, Chosen;
    ChosenIsPending(s.board, choice);
    AssignKeepsTasks(c, s, choice.value, w);
  }

  /** Polling on, a waiting task's turn comes. */
  lemma {:induction false} WaitingIsServed(c: Config, s: Sys, j: string, k: string, t: nat, w: string, host: string, port: nat)
    returns (run: seq<Action>)
    requires Inv(c, s) && Awaits(s, j, k) && w in s.workers && IsPending(s.board, t) && s.board.tasks[t].batch.id == k
    ensures ValidRun(c, s, run) && BackstageRun(run) && Answered(c, After(c, s, run), j, KeptBy(k, host, port))
    decreases |PendingTasks(s.board)|
  {
    hide Inv, Answered, Chosen, PollStep, FindBatch, CompleteStep;
    var choice := ChoiceExists(s.board);
    assert t in PendingTasks(s.board);
    var a := Poll(w, choice);
    var s' := Apply(c, s, a);
    StepPreserves(c, s, a);
    PollTakesOne(c, s, w, choice);
    var more: seq<Action>;
    if choice.value == t {
      ReportServes(c, s', j, k, t, host, port);
      more := [Report(t, host, port)];
      assert more[1..] == [] && ValidRun(c, s', more);
      assert After(c, s', more) == Apply(c, s', Report(t, host, port));
    } else {
      assert choice.value in PendingTasks(s.board) by {
        ChosenIsPending(s.board, choice);
      }
      assert t in PendingTasks(s'.board);
      more := WaitingIsServed(c, s', j, k, t, w, host, port);
    }
    run := [a] + more;
    assert run[1..] == more;
  }

  /** The handle the batch has, or else the one that a worker at host and port gets for it. */
  function HandleFor(s: Sys, k: string, host: string, port: nat): Handle {
    if IsReady(s.board, k) then s.board.handles[k] else KeptBy(k, host, port)
  }

  /** Once a batch is ready or in flight, workers alone can bring it to READY. */
  lemma CoveredIsServed(c: Config, s: Sys, j: string, k: string, w: string, host: string, port: nat) returns (run: seq<Action>)
    requires Inv(c, s) && Awaits(s, j, k) && w in s.workers && ReadyOrInFlight(s.board, k)
    ensures ValidRun(c, s, run) && BackstageRun(run) && Answered(c, After(c, s, run), j, HandleFor(s, k, host, port))
  {
    hide Inv, Answered, Awaits, CompleteStep;
    FreshIdIsFree(c, s);
    CoherentAt(s.board, k);
    if IsReady(s.board, k) {
      ReadyIsAnswered(c, s, j, k);
      run := [];
    } else if IsRunning(s, s.board.index[k]) {
      ReportServes(c, s, j, k, s.board.index[k], host, port);
      run := [Report(s.board.index[k], host, port)];
      assert run[1..] == [];
    } else {
      run := WaitingIsServed(c, s, j, k, s.board.index[k], w, host, port);
    }
  }

  lemma SchedulingCoversNext(c: Config, s: Sys, j: string, k: string, how: Scheduling)
    requires Inv(c, s) && Awaits(s, j, k)
    ensures var s' := ScheduleJobStep(c, s, j, how);
            && Inv(c, s') && s'.jobs == s.jobs && s'.workers == s.workers && s'.board.handles == s.board.handles
            && ReadyOrInFlight(s'.board, k)
  {
    hide Inv, JobInv, ScheduleJobStep, ReadyOrInFlight, TargetDepth, WindowOf, EpochGroups;
    InvHasJobs(c, s);
    SchedulingMeetsTheTarget(c, s, j, how);
    ScheduleJobKeeps(c, s, j, how);
    ScheduleKeepsWorkers(c, s, j, how);
    UpcomingIsTheWindow(c, s, j);
    FirstIsNext(c, s, j);
  }

  /** The first batch of an active job's window is the one it asks for next. */
  lemma FirstIsNext(c: Config, s: Sys, j: string)
    requires JobInv(c, s) && IsActive(s, j) && NextPlanned(s, j).Some?
    ensures Upcoming(s.jobs[j]) != [] && Upcoming(s.jobs[j])[0] == NextPlanned(s, j).value
  {
    hide JobsSound, Upcoming, Permutes, BatchId, EpochGroups;
    UpcomingIsTheWindow(c, s, j);
    NextPlannedIsNext(c, s, j);
    var d := s.datasets[s.jobs[j].datasetId];
    assert WindowOf(c, d, j, s.jobs[j])[0] == MakeBatch(c.shuffle, d, s.jobs[j].epoch, s.jobs[j].next, OwnerIn(c, j));
  }

  lemma {:induction false} ScheduleAllKeepsWorkers(c: Config, s: Sys, j: string, batches: seq<Batch>, how: Scheduling)
    ensures ScheduleAll(c, s, j, batches, how).workers == s.workers
    ensures ScheduleAll(c, s, j, batches, how).board.handles == s.board.handles
  {
    if batches != [] {
      ScheduleAllKeepsWorkers(c, s, j, batches[..|batches| - 1], how);
    }
  }

  lemma ScheduleKeepsWorkers(c: Config, s: Sys, j: string, how: Scheduling)
    ensures ScheduleJobStep(c, s, j, how).workers == s.workers
    ensures ScheduleJobStep(c, s, j, how).board.handles == s.board.handles
  {
    hide ScheduleAll, TargetDepth, Upcoming, PlanFor;
    if IsActive(s, j) {
      var s1 := Replenished(c, s, j);
      ScheduleAllKeepsWorkers(c, s1, j, First(TargetDepth(c, s1.est, s1.jobs[j]), Upcoming(s1.jobs[j])), how);
    }
  }

  lemma ServedFromHere(c: Config, s: Sys, j: string, w: string, how: Scheduling, host: string, port: nat)
    returns (rest: seq<Action>)
    requires Inv(c, s) && IsActive(s, j) && PerEpoch(s, s.jobs[j].datasetId) > 0
    ensures ValidRun(c, s, rest) && BackstageRun(rest) && NextPlanned(s, j).Some?
    ensures Answered(c, After(c, s, rest), j, HandleFor(s, NextPlanned(s, j).value.id, host, port))
    ensures host != "" && port > 0 ==> Accepted(KeptBy(NextPlanned(s, j).value.id, host, port))
  {
    hide Inv, JobInv, Answered, ScheduleJobStep, PerEpoch, FindBatch, ReadyOrInFlight, ValidRun, After, EpochGroups;
    InvHasJobs(c, s);
    NextPlannedIsNext(c, s, j);
    var k := NextPlanned(s, j).value.id;
    BatchIdNotEmpty(s.jobs[j].datasetId, s.jobs[j].epoch, s.jobs[j].next, OwnerIn(c, j));
    var s1 := RegisterWorkerStep(s, w);
    RegisterWorkerKeeps(c, s, w);
    var s2 := ScheduleJobStep(c, s1, j, how);
    SchedulingCoversNext(c, s1, j, k, how);
    var more := CoveredIsServed(c, s2, j, k, w, host, port);
    Prepend(c, s1, ScheduleJob(j, how), more);
    rest := [RegisterWorker(w)] + ([ScheduleJob(j, how)] + more);
    Prepend(c, s, RegisterWorker(w), [ScheduleJob(j, how)] + more);
  }

  lemma BatchIdNotEmpty(datasetId: string, epoch: nat, index: nat, owner: string)
    ensures BatchId(datasetId, epoch, index, owner) != ""
  {
  }

  /**
   * From every reachable state, and without any trainer's help, an active job over a data set with
   * batches can be given its next batch: a failed or cancelled attempt is taken up again, and a
   * waiting task's turn comes. A batch that was READY keeps its handle; any other gets one that the
   * trainer accepts.
   */
  lemma EveryActiveJobCanBeServed(c: Config, run: seq<Action>, j: string, w: string, how: Scheduling, host: string, port: nat)
    returns (rest: seq<Action>)
    requires Permutes(c.shuffle) && ValidRun(c, Init(), run) && host != "" && port > 0
    requires IsActive(After(c, Init(), run), j)
    requires PerEpoch(After(c, Init(), run), After(c, Init(), run).jobs[j].datasetId) > 0
    ensures ValidRun(c, After(c, Init(), run), rest) && BackstageRun(rest) && NextPlanned(After(c, Init(), run), j).Some?
    ensures var s := After(c, Init(), run);
            var k := NextPlanned(s, j).value.id;
            Answered(c, After(c, s, rest), j, HandleFor(s, k, host, port)) && Accepted(KeptBy(k, host, port))
  {
    hide *;
    RunFromStart(c, run);
    rest := ServedFromHere(c, After(c, Init(), run), j, w, how, host, port);
  }
}

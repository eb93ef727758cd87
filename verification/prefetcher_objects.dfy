/**
 * The prefetcher as an object with the original queues, counters and flags, and the original loops of
 * its threads. Each loop is proved to be a run of the interleaving model, whatever the other threads,
 * the trainer and the servers do between any two of its steps.
 */
module PrefetcherObjects {
  import opened Text
  import opened Sequences
  import opened Prefetcher
  import opened PrefetcherSafety
  import opened PrefetcherDelivery
  import opened PrefetcherThreads
  import opened PrefetcherProgress
  import opened PrefetcherFailures

  /** The answer of a remote call: a usable one, not yet, no more batches, or a failure. */
  datatype Answer = Good | NotYet | Over | Bad

  /** What goes on during one wait or call of a thread: steps of others, and the answer of the call. */
  datatype Event = Event(others: seq<Action>, answer: Answer)

  /**
   * How the calls of the threads have been answered: how many batches the coordinator thread was given
   * and whether it was told that there are no more, how many fetches and acknowledgements succeeded and
   * how many calls failed; and how many steps of failing the threads have made.
   */
  datatype Tally = Tally(batches: nat, over: bool, fetches: nat, acks: nat, bad: nat, fails: nat)

  function Answered(t: Tally, me: Thread, answer: Answer): Tally {
    if answer.Bad? then t.(bad := t.bad + 1)
    else
      match me
      case CoordinatorThread =>
        if answer.Good? then t.(batches := t.batches + 1) else if answer.Over? then t.(over := true) else t
      case FetchThread(_) => t.(fetches := t.fetches + 1)
      case PublishThread => t.(acks := t.acks + 1)
  }

  /** How a loop or a put ended; Unseen if the schedule ends while it is still waiting. */
  datatype Ending = Finished | Stopped | Raised | Unseen

  /**
   * The fields down to stopEvent are the prefetcher's own. The schedule says what happens around the
   * thread that is being run. The model's state is kept beside the fields to tell what the other
   * threads can do and whether there is a step to record; no decision of the original code depends
   * on it. The trace lists all steps so far; due says that the thread's last wait has left it with a
   * step to make. No thread may begin to wait while a step is due.
   */
  class BatchPrefetcher {
    const config: Config
    var taskQueue: seq<TaskItem>
    var fetchedQueue: seq<nat>
    var readyQueue: seq<ReadyItem>
    var received: seq<ReadyItem>
    var scheduledBatches: nat
    var publishedBatches: nat
    var coordinatorDone: bool
    var endSent: bool
    var stopEvent: bool
    var schedule: seq<Event>
    var model: State
    ghost var trace: seq<Action>
    ghost var tally: Tally
    ghost var due: bool

    /** The fields show the state s of the model. */
    predicate Shows(s: State)
      reads this
    {
      && taskQueue == s.q.tasks && fetchedQueue == s.q.fetched && readyQueue == s.q.ready && received == s.q.taken
      && scheduledBatches == s.co.scheduled && coordinatorDone == s.co.done && publishedBatches == s.pub.published
      && endSent == s.endSent && stopEvent == s.stop
    }

    /** The fields show where the steps so far lead in the model. */
    ghost predicate Valid()
      reads this
    {
      && Shows(model) && Reached(config, trace, model) && |model.fetchers| == config.fetchers
      && (tally.fails > 0 ==> HasFailure(trace))
    }

    /** The schedule only gets shorter, the trace longer, and what has happened stays so. */
    twostate predicate Onward()
      reads this
    {
      |schedule| <= |old(schedule)| && old(trace) <= trace && Later(old(model), model)
    }

    predicate IsThread(me: Thread) {
      me.FetchThread? ==> me.index < config.fetchers
    }

    constructor (maxBatches: nat, maxReadyBatches: int, parallelFetchWorkers: int, schedule: seq<Event>)
      ensures config == Config(maxBatches, Max(1, parallelFetchWorkers), Max(1, maxReadyBatches))
      ensures Valid() && model == Init(config) && trace == [] && this.schedule == schedule
      ensures tally == Tally(0, false, 0, 0, 0, 0) && !due
    {
      config := Config(maxBatches, Max(1, parallelFetchWorkers), Max(1, maxReadyBatches));
      taskQueue, fetchedQueue, readyQueue, received := [], [], [], [];
      scheduledBatches, publishedBatches := 0, 0;
      coordinatorDone, endSent, stopEvent := false, false, false;
      this.schedule := schedule;
      model := Init(Config(maxBatches, Max(1, parallelFetchWorkers), Max(1, maxReadyBatches)));
      trace, tally, due := [], Tally(0, false, 0, 0, 0, 0), false;
      new;
      StartIsReached(config);
    }

    // The surroundings of a thread.

    /** One step of somebody else. */
    method Happen(a: Action)
      requires Valid() && Enabled(config, model, a)
      modifies this
      ensures Valid() && model == Apply(config, old(model), a) && trace == old(trace) + [a] && schedule == old(schedule)
      ensures tally == old(tally) && due == old(due)
    {
      hide Enabled, Apply, Reached, HasFailure, IsFailure, Shows;
      FailuresStay(trace, a);
      StepIsLater(config, model, a);
      NextIsReached(config, trace, model, a);
      var s := Apply(config, model, a);
      trace := trace + [a];
      model := s;
      Show(s);
    }

    method Show(s: State)
      modifies this`taskQueue, this`fetchedQueue, this`readyQueue, this`received, this`scheduledBatches,
               this`publishedBatches, this`coordinatorDone, this`endSent, this`stopEvent
      ensures Shows(s)
    {
      taskQueue, fetchedQueue, readyQueue, received := s.q.tasks, s.q.fetched, s.q.ready, s.q.taken;
      scheduledBatches, coordinatorDone, publishedBatches := s.co.scheduled, s.co.done, s.pub.published;
      endSent, stopEvent := s.endSent, s.stop;
    }

    /** The others do whatever they can of the next event. */
    method Meanwhile(me: Thread) returns (answer: Answer)
      requires Valid() && IsThread(me) && schedule != []
      modifies this
      ensures Valid() && schedule == old(schedule)[1..] && old(trace) <= trace && tally == old(tally) && due == old(due)
      ensures LocalOf(model, me) == LocalOf(old(model), me) && Later(old(model), model)
    {
      hide Reached, Enabled, Apply, LocalOf, Shows, HasFailure;
      answer := schedule[0].answer;
      var others := schedule[0].others;
      schedule := schedule[1..];
      ShowsOn();
      for n := 0 to |others|
        invariant Valid() && schedule == old(schedule)[1..] && old(trace) <= trace && tally == old(tally) && due == old(due)
        invariant LocalOf(model, me) == LocalOf(old(model), me) && Later(old(model), model)
      {
        if !IsBy(me, others[n]) && Enabled(config, model, others[n]) {
          StepIsLater(config, model, others[n]);
          OthersLeaveAlone(config, model, me, others[n]);
          Happen(others[n]);
        }
      }
    }

    /** A wait of thread me for something that may then have come about. */
    method Wait(me: Thread)
      requires Valid() && !due && IsThread(me) && schedule != []
      modifies this
      ensures Valid() && schedule == old(schedule)[1..] && old(trace) <= trace && tally == old(tally)
      ensures LocalOf(model, me) == LocalOf(old(model), me) && Later(old(model), model)
      ensures due == Enabled(config, model, By(me, Go))
    {
      hide Reached, Enabled, LocalOf, Shows, HasFailure;
      var answer := Meanwhile(me);
      label Met:
      due := Enabled(config, model, By(me, Go));
      ShowsOn@Met();
    }

    /** A remote call of thread me; only to the coordinator thread can it be answered that there is nothing yet. */
    method Call(me: Thread) returns (answer: Answer)
      requires Valid() && !due && IsThread(me) && schedule != []
      modifies this
      ensures Valid() && schedule == old(schedule)[1..] && old(trace) <= trace
      ensures LocalOf(model, me) == LocalOf(old(model), me) && Later(old(model), model)
      ensures tally == Answered(old(tally), me, answer)
      ensures due == (Enabled(config, model, By(me, Go)) && !(me.CoordinatorThread? && answer.NotYet?))
    {
      hide Reached, Enabled, LocalOf, Shows, HasFailure;
      answer := Meanwhile(me);
      label Met:
      due := Enabled(config, model, By(me, Go)) && !(me.CoordinatorThread? && answer.NotYet?);
      tally := Answered(tally, me, answer);
      ShowsOn@Met();
    }

    twostate lemma ShowsOn()
      requires old(Valid()) && model == old(model) && trace == old(trace) && tally.fails == old(tally).fails
      requires unchanged(this`taskQueue, this`fetchedQueue, this`readyQueue, this`received, this`scheduledBatches,
                         this`publishedBatches, this`coordinatorDone, this`endSent, this`stopEvent)
      ensures Valid()
    {
    }

    /**
     * Thread me has just made its step m on the fields: it is an enabled step of the model and the
     * fields show its outcome. Then others may act.
     */
    method Turn(me: Thread, m: Move)
      requires Reached(config, trace, model) && |model.fetchers| == config.fetchers && IsThread(me)
      requires tally.fails > 0 ==> HasFailure(trace)
      requires Enabled(config, model, By(me, m)) && Shows(Apply(config, model, By(me, m)))
      modifies this
      ensures Valid() && |schedule| <= |old(schedule)| && old(trace) + [By(me, m)] <= trace && !due
      ensures tally == if m.Fail? then old(tally).(fails := old(tally).fails + 1) else old(tally)
      ensures var s := Apply(config, old(model), By(me, m));
              Exists(s, me) && LocalOf(model, me) == LocalOf(s, me) && Later(s, model) && Later(old(model), model)
    {
      hide Enabled, Apply, Reached, LocalOf, HasFailure;
      FailuresStay(trace, By(me, m));
      StepIsLater(config, model, By(me, m));
      NextIsReached(config, trace, model, By(me, m));
      trace := trace + [By(me, m)];
      model := Apply(config, model, By(me, m));
      due := false;
      if m.Fail? {
        tally := tally.(fails := tally.fails + 1);
      }
      if schedule != [] {
        var answer := Meanwhile(me);
      }
    }

    // Puts and the end of the run, for any thread.

    /** _put_ready_item; a publisher that has dropped a batch before finds the stop event set at once. */
    method PutReadyItem(me: Thread, item: ReadyItem) returns (how: Ending)
      requires Valid() && !due && IsThread(me)
      requires Offered(LocalOf(model, me)) == Some(item) || (HasHalted(LocalOf(model, me)) && stopEvent)
      modifies this
      ensures Valid() && Onward() && !due && tally == old(tally)
      ensures how.Finished? || how.Stopped? || how.Unseen?
      ensures how.Unseen? ==> schedule == [] && LocalOf(model, me) == LocalOf(old(model), me)
      ensures how.Stopped? ==> stopEvent
      ensures !how.Unseen? && !HasHalted(LocalOf(old(model), me)) ==>
                LocalOf(model, me) == Offering(config, LocalOf(old(model), me), how.Finished?)
      ensures HasHalted(LocalOf(old(model), me)) ==> how.Stopped? && LocalOf(model, me) == LocalOf(old(model), me)
      ensures how.Stopped? && item.BatchItem? && !HasHalted(LocalOf(old(model), me)) ==> item.sequence in model.lost
    {
      hide Reached, Enabled, Apply, LocalOf, Offering, Offered, HasHalted, HasFailure;
      HaltedOffersNothing(LocalOf(model, me));
      while !stopEvent
        invariant Valid() && Onward() && !due && tally == old(tally)
        invariant LocalOf(model, me) == LocalOf(old(model), me)
        decreases |schedule|
      {
        if schedule == [] {
          return Unseen;
        }
        Wait(me);
        if |readyQueue| < config.capacity {
          OfferIsAccepted(config, model, me);
          readyQueue := readyQueue + [item];
          Turn(me, Go);
          return Finished;
        }
        OfferNeedsRoom(config, model, me);
      }
      if HasHalted(LocalOf(model, me)) {
        return Stopped;
      }
      OfferIsDropped(config, model, me);
      OnlyPublisherOffersBatches(me, model);
      Turn(me, Quit);
      return Stopped;
    }

    lemma OnlyPublisherOffersBatches(me: Thread, s: State)
      requires Exists(s, me)
      ensures Offered(LocalOf(s, me)).Some? && Offered(LocalOf(s, me)).value.BatchItem? ==>
                me.PublishThread? && s.pub.pc == PPut(Offered(LocalOf(s, me)).value.sequence)
    {
    }

    /** _maybe_send_end: the winner of the checks under the lock puts the end marker. */
    method MaybeSendEnd(me: Thread, idle: bool) returns (seen: bool)
      requires Valid() && IsThread(me) && (due ==> EndDue(model))
      requires Checking(LocalOf(model, me), idle) || (idle && !EndDue(model))
      modifies this
      ensures Valid() && Onward() && !due && tally == old(tally)
      ensures !seen ==> schedule == [] && LocalOf(model, me) == Winning(LocalOf(old(model), me))
      ensures seen && EndDue(old(model)) ==>
                endSent && exists accepted :: LocalOf(model, me) == Offering(config, Winning(LocalOf(old(model), me)), accepted)
      ensures !EndDue(old(model)) ==>
                seen && LocalOf(model, me) == if idle then LocalOf(old(model), me) else Passing(config, LocalOf(old(model), me))
    {
      hide Reached, Enabled, Apply, LocalOf, Offering, Winning, Passing, Checking, Offered, HasHalted;
      if !endSent && coordinatorDone && taskQueue == [] && fetchedQueue == [] && publishedBatches >= scheduledBatches {
        CheckWins(config, model, me, idle);
        endSent := true;
        Turn(me, Go);
        HaltedOffersNothing(LocalOf(model, me));
        var how := PutReadyItem(me, EndItem);
        assert how != Unseen ==> LocalOf(model, me) == Offering(config, Winning(LocalOf(old(model), me)), how.Finished?);
        return how != Unseen;
      }
      if !idle {
        CheckPasses(config, model, me);
        Turn(me, Go);
      }
      return true;
    }

    /** _signal_error, for a thread that is about to offer the error. */
    method SignalError(me: Thread) returns (seen: bool)
      requires Valid() && !due && IsThread(me) && Offered(LocalOf(model, me)) == Some(ErrorItem)
      modifies this
      ensures Valid() && Onward() && !due && tally == old(tally)
      ensures !seen ==> schedule == [] && LocalOf(model, me) == LocalOf(old(model), me)
      ensures seen ==> stopEvent && LocalOf(model, me) == Resigned(config, LocalOf(old(model), me))
    {
      hide Reached;
      var how := PutReadyItem(me, ErrorItem);
      if how == Unseen {
        return false;
      }
      stopEvent := true;
      Turn(me, Go);
      return true;
    }

    /** Since before, every failed call has been followed by a step of failing, or the run has been stopped. */
    ghost predicate Heard(before: Tally)
      reads this
    {
      tally.bad - before.bad == tally.fails - before.fails || stopEvent
    }

    // The coordinator thread.

    /** _get_next_fetch_task: asks until there is a batch; no task if there are no more, or on a stop. */
    method GetNextFetchTask() returns (how: Ending, task: Option<nat>)
      requires Valid() && !due && model.co.pc.CLoop? && scheduledBatches < config.maxBatches
      modifies this
      ensures Valid() && Onward()
      ensures due ==> how.Raised? || (how.Finished? && task.None?)
      ensures tally == old(tally).(batches := old(tally).batches + (if how.Finished? && task.Some? then 1 else 0),
                                   bad := old(tally).bad + (if how.Raised? then 1 else 0), over := tally.over)
      ensures how.Finished? && task.None? ==> stopEvent || tally.over
      ensures how.Finished? || how.Raised? || how.Unseen?
      ensures how.Unseen? ==> schedule == []
      ensures how.Finished? && task.Some? ==> task.value == scheduledBatches && |schedule| < |old(schedule)|
      ensures how.Finished? && task.Some? ==> model.co == old(model).co.(pc := CPut(scheduledBatches), handed := old(model).co.handed + 1)
      ensures !(how.Finished? && task.Some?) ==> model.co == old(model).co
    {
      hide Reached, EndDue, FetcherStep, PublisherStep, Prefetcher.PutTask, PutReady, HasFailure;
      while !stopEvent
        invariant Valid() && Onward() && !due && tally == old(tally) && model.co == old(model).co
        decreases |schedule|
      {
        if schedule == [] {
          return Unseen, None;
        }
        var answer := Call(CoordinatorThread);
        match answer {
          case Over => return Finished, None;
          case Bad => return Raised, None;
          case NotYet =>
          case Good =>
            Turn(CoordinatorThread, Go);
            return Finished, Some(scheduledBatches);
        }
      }
      return Finished, None;
    }

    /** _put_task */
    method PutTask(k: nat) returns (how: Ending)
      requires Valid() && !due && model.co.pc == CPut(k)
      modifies this
      ensures Valid() && Onward() && !due && tally == old(tally)
      ensures how.Finished? || how.Stopped? || how.Unseen?
      ensures how.Unseen? ==> schedule == []
      ensures how.Finished? ==> model.co == old(model).co.(pc := CBump)
      ensures how.Stopped? ==> model.co == old(model).co.(pc := CSentinels(config.fetchers))
      ensures how.Unseen? ==> model.co == old(model).co
    {
      hide Reached, EndDue, FetcherStep, PublisherStep, PutReady, HasFailure;
      while !stopEvent
        invariant Valid() && Onward() && !due && tally == old(tally) && model.co == old(model).co
        decreases |schedule|
      {
        if schedule == [] {
          return Unseen;
        }
        Wait(CoordinatorThread);
        if |taskQueue| < config.capacity {
          taskQueue := taskQueue + [Task(k)];
          Turn(CoordinatorThread, Go);
          return Finished;
        }
      }
      Turn(CoordinatorThread, Quit);
      return Stopped;
    }

    /** _mark_coordinator_done */
    method MarkCoordinatorDone() returns (seen: bool)
      requires Valid() && model.co.pc.CLoop?
      modifies this
      ensures Valid() && Onward() && !due && tally == old(tally)
      ensures !seen ==> schedule == []
      ensures seen ==> model.co.pc == CSentinels(config.fetchers)
      ensures model.co.handed == old(model).co.handed && model.co.scheduled == old(model).co.scheduled
    {
      hide Reached, EndDue, FetcherStep, PublisherStep;
      coordinatorDone := true;
      Turn(CoordinatorThread, NoMore);
      seen := MaybeSendEnd(CoordinatorThread, false);
    }

    /** Since before, the coordinator thread has handed out one number for each batch it was given, and made no step of failing. */
    ghost predicate Scheduled(before: State, was: Tally, raised: bool)
      reads this
    {
      && model.co.handed - before.co.handed == tally.batches - was.batches
      && tally == was.(batches := tally.batches, over := tally.over, bad := was.bad + if raised then 1 else 0)
    }

    /** What the coordinator thread may take for the end of its work. */
    ghost predicate AllScheduled()
      reads this
    {
      scheduledBatches >= config.maxBatches || tally.over || stopEvent
    }

    /** The loop of _coordinator_loop. */
    method ScheduleTasks() returns (how: Ending)
      requires Valid() && !due && model.co.pc.CLoop? && !coordinatorDone
      modifies this
      ensures Valid() && Onward()
      ensures due ==> how.Raised?
      ensures Scheduled(old(model), old(tally), how.Raised?)
      ensures coordinatorDone ==> AllScheduled()
      ensures how.Finished? || how.Raised? || how.Unseen?
      ensures how.Unseen? ==> schedule == []
      ensures how.Finished? ==> model.co.pc == CSentinels(config.fetchers)
      ensures how.Raised? ==> model.co.pc.CLoop?
    {
      hide Reached, EndDue, FetcherStep, PublisherStep, PutReady, HasFailure;
      while !stopEvent
        invariant Valid() && Onward() && !due && model.co.pc.CLoop?
        invariant Scheduled(old(model), old(tally), false) && !coordinatorDone
        decreases |schedule|
      {
        if scheduledBatches >= config.maxBatches {
          var seen := MarkCoordinatorDone();
          return if seen then Finished else Unseen;
        }
        var asked, task := GetNextFetchTask();
        if asked != Finished {
          return asked;
        }
        if task.None? {
          var seen := MarkCoordinatorDone();
          return if seen then Finished else Unseen;
        }
        var put := PutTask(task.value);
        if put != Finished {
          return if put == Stopped then Finished else Unseen;
        }
        CountScheduled();
      }
      Turn(CoordinatorThread, Quit);
      return Finished;
    }

    method CountScheduled()
      requires Valid() && !due && model.co.pc.CBump?
      modifies this
      ensures Valid() && Onward() && !due && tally == old(tally)
      ensures model.co == old(model).co.(pc := CLoop, scheduled := old(model).co.scheduled + 1)
    {
      hide Reached, EndDue, FetcherStep, PublisherStep, PutReady, HasFailure;
      scheduledBatches := scheduledBatches + 1;
      Turn(CoordinatorThread, Go);
    }

    /** _put_task_sentinel */
    method PutTaskSentinel(ghost left: nat) returns (seen: bool)
      requires Valid() && !due && model.co.pc == CSentinels(left) && left > 0
      modifies this
      ensures Valid() && Onward() && !due && tally == old(tally)
      ensures !seen ==> schedule == []
      ensures seen ==> model.co == old(model).co.(pc := CSentinels(left - 1))
      ensures !seen ==> model.co == old(model).co
    {
      hide Reached, EndDue, FetcherStep, PublisherStep, PutReady, HasFailure;
      while !stopEvent
        invariant Valid() && Onward() && !due && tally == old(tally) && model.co == old(model).co
        decreases |schedule|
      {
        if schedule == [] {
          return false;
        }
        Wait(CoordinatorThread);
        if |taskQueue| < config.capacity {
          taskQueue := taskQueue + [Sentinel];
          Turn(CoordinatorThread, Go);
          return true;
        }
      }
      Turn(CoordinatorThread, Quit);
      return true;
    }

    /** The except clause of _coordinator_loop. */
    method CoordinatorFails() returns (seen: bool)
      requires Valid() && model.co.pc.CLoop?
      modifies this
      ensures Valid() && Onward() && !due
      ensures !seen ==> schedule == []
      ensures seen ==> model.co.pc == CSentinels(config.fetchers)
      ensures model.co == old(model).co.(pc := model.co.pc)
      ensures tally == old(tally).(fails := tally.fails)
      ensures tally.fails == old(tally).fails + 1 || (stopEvent && tally.fails == old(tally).fails)
    {
      hide Reached, EndDue, FetcherStep, PublisherStep, PutReady, HasFailure;
      if !stopEvent {
        Turn(CoordinatorThread, Fail);
        seen := SignalError(CoordinatorThread);
      } else {
        Turn(CoordinatorThread, Quit);
        seen := true;
      }
    }

    /** The finally clause of _coordinator_loop: one sentinel for each fetch thread. */
    method PutSentinels()
      requires Valid() && !due && model.co.pc == CSentinels(config.fetchers)
      modifies this
      ensures Valid() && Onward() && !due && tally == old(tally)
      ensures model.co == old(model).co.(pc := model.co.pc)
      ensures model.co.pc.CExit? || schedule == []
    {
      hide Reached, EndDue, FetcherStep, PublisherStep, PutReady, HasFailure;
      for n := 0 to config.fetchers
        invariant Valid() && !due && Onward() && tally == old(tally)
        invariant model.co == old(model).co.(pc := CSentinels(config.fetchers - n))
      {
        var seen := PutTaskSentinel(config.fetchers - n);
        if !seen {
          return;
        }
      }
      Turn(CoordinatorThread, Go);
    }

    /** _coordinator_loop, from the start of its loop to the end of the thread. */
    method CoordinatorLoop()
      requires Valid() && !due && model.co.pc.CLoop? && !coordinatorDone
      modifies this
      ensures Valid() && Onward()
      ensures model.co.pc.CExit? || schedule == []
      ensures coordinatorDone ==> AllScheduled()
      ensures model.co.handed - old(model).co.handed == tally.batches - old(tally).batches
      ensures Heard(old(tally)) && tally.fetches == old(tally).fetches && tally.acks == old(tally).acks
    {
      hide Reached, Enabled, Apply, HasFailure;
      var how := ScheduleTasks();
      var seen := how != Unseen;
      if how == Raised {
        seen := CoordinatorFails();
      }
      if seen {
        PutSentinels();
      }
    }

    // A fetch thread.

    /** _put_fetched_result */
    method PutFetchedResult(i: nat, k: nat) returns (how: Ending)
      requires Valid() && !due && i < config.fetchers && model.fetchers[i] == FPut(k)
      modifies this
      ensures Valid() && Onward() && !due && tally == old(tally)
      ensures how.Finished? || how.Stopped? || how.Unseen?
      ensures how.Unseen? ==> schedule == []
      ensures !how.Unseen? ==> model.fetchers[i] == FCheck(how.Stopped?)
    {
      hide Reached, EndDue, CoordinatorStep, PublisherStep, PutReady, HasFailure;
      while !stopEvent
        invariant Valid() && Onward() && !due && tally == old(tally) && model.fetchers[i] == FPut(k)
        decreases |schedule|
      {
        if schedule == [] {
          return Unseen;
        }
        Wait(FetchThread(i));
        if |fetchedQueue| < config.capacity {
          fetchedQueue := fetchedQueue + [k];
          Turn(FetchThread(i), Go);
          return Finished;
        }
      }
      Turn(FetchThread(i), Quit);
      return Stopped;
    }

    /** Fetching one task, with the except clause; leaving says whether the thread returns afterwards. */
    method FetchTask(i: nat, k: nat) returns (seen: bool, leaving: bool)
      requires Valid() && !due && i < config.fetchers && model.fetchers[i] == FWork(k)
      modifies this
      ensures Valid() && Onward() && !due
      ensures !seen ==> schedule == []
      ensures || (!seen && tally == old(tally))
              || tally == old(tally).(fetches := old(tally).fetches + 1)
              || tally == old(tally).(bad := old(tally).bad + 1, fails := old(tally).fails + 1)
      ensures seen ==> model.fetchers[i] == FCheck(leaving)
    {
      hide Reached, EndDue, CoordinatorStep, PublisherStep, PutReady, HasFailure;
      if schedule == [] {
        return false, false;
      }
      var answer := Call(FetchThread(i));
      if answer == Bad {
        if !stopEvent {
          Turn(FetchThread(i), Fail);
          seen := SignalError(FetchThread(i));
          return seen, true;
        }
        Turn(FetchThread(i), Fail);
        return true, false;
      }
      Turn(FetchThread(i), Go);
      var put := PutFetchedResult(i, k);
      return put != Unseen, put == Stopped;
    }

    /** Since before, tasks have been fetched, and every failed fetch has been followed by a step of failing. */
    ghost predicate OnlyFetches(before: Tally)
      reads this
    {
      && tally == before.(fetches := tally.fetches, bad := tally.bad, fails := tally.fails)
      && tally.bad - before.bad == tally.fails - before.fails
    }

    /** One item of the task queue, with the finally clause. */
    method HandleTask(i: nat, task: TaskItem) returns (seen: bool, leaving: bool)
      requires Valid() && !due && i < config.fetchers
      requires model.fetchers[i] == if task.Task? then FWork(task.sequence) else FSentinel
      modifies this
      ensures Valid() && Onward() && !due
      ensures OnlyFetches(old(tally))
      ensures !seen ==> schedule == []
      ensures seen ==> model.fetchers[i] == Leave(leaving)
    {
      hide Reached, EndDue, Enabled, Apply;
      if task == Sentinel {
        leaving := true;
        seen := MaybeSendEnd(FetchThread(i), false);
      } else {
        seen, leaving := FetchTask(i, task.sequence);
      }
      if !seen {
        return;
      }
      assert model.fetchers[i].FExit? ==> !EndDue(model) by {
        EndSentIsNotDue(model);
      }
      seen := MaybeSendEnd(FetchThread(i), model.fetchers[i].FExit?);
    }

    /** What the thread does once its wait for a task is over. */
    method FetchNext(i: nat) returns (goOn: bool)
      requires Valid() && i < config.fetchers && model.fetchers[i].FTop?
      requires due == FetcherEnabled(config, model, i, Go)
      modifies this
      ensures Valid() && Onward() && !due && OnlyFetches(old(tally))
      ensures if goOn then model.fetchers[i].FTop? else model.fetchers[i].FExit? || schedule == []
    {
      hide Reached, EndDue, CoordinatorStep, PublisherStep, PutReady, HasFailure, FetcherStep;
      if taskQueue == [] {
        EmptyMeansEndDue(i);
        goOn := MaybeSendEnd(FetchThread(i), true);
      } else {
        var task := taskQueue[0];
        TakeTask(i);
        var seen, leaving := HandleTask(i, task);
        goOn := seen && !leaving;
      }
    }

    lemma EmptyMeansEndDue(i: nat)
      requires Valid() && i < |model.fetchers| && model.fetchers[i].FTop? && taskQueue == []
      ensures FetcherEnabled(config, model, i, Go) ==> EndDue(model)
    {
    }

    method TakeTask(i: nat)
      requires Valid() && i < config.fetchers && model.fetchers[i].FTop? && taskQueue != []
      modifies this
      ensures Valid() && Onward() && !due && tally == old(tally)
      ensures model.fetchers[i] == if old(taskQueue)[0].Task? then FWork(old(taskQueue)[0].sequence) else FSentinel
    {
      hide Reached, EndDue, CoordinatorStep, PublisherStep, PutReady, HasFailure;
      taskQueue := taskQueue[1..];
      Turn(FetchThread(i), Go);
    }

    /** _fetch_worker_loop */
    method FetchLoop(i: nat)
      requires Valid() && !due && i < config.fetchers && model.fetchers[i].FTop?
      modifies this
      ensures Valid() && Onward()
      ensures model.fetchers[i].FExit? || schedule == []
      ensures OnlyFetches(old(tally))
    {
      hide Reached, EndDue, CoordinatorStep, PublisherStep, PutReady, HasFailure;
      while !stopEvent
        invariant Valid() && !due && Onward() && model.fetchers[i].FTop? && OnlyFetches(old(tally))
        decreases |schedule|
      {
        if schedule == [] {
          return;
        }
        Wait(FetchThread(i));
        var goOn := FetchNext(i);
        if !goOn {
          return;
        }
      }
      Turn(FetchThread(i), Quit);
    }

    lemma EndSentIsNotDue(s: State)
      ensures s.endSent ==> !EndDue(s)
    {
    }

    // The publisher.

    /** The publisher stands at pc with these local variables, or it has dropped a batch because of a stop. */
    predicate At(pc: PublisherPc, nextSequence: nat, buffered: set<nat>)
      reads this
    {
      HasDropped(model) || model.pub == PublisherState(pc, buffered, nextSequence, publishedBatches)
    }

    /** Records the publisher's next step, unless it has dropped a batch. */
    method PublisherTurn()
      requires HasDropped(model) ==> Valid() && !due
      requires tally.fails > 0 ==> HasFailure(trace)
      requires Reached(config, trace, model) && |model.fetchers| == config.fetchers
      requires !HasDropped(model) ==> Enabled(config, model, Publisher(Go)) && Shows(Apply(config, model, Publisher(Go)))
      modifies this
      ensures Valid() && Onward() && !due && tally == old(tally)
      ensures HasDropped(old(model)) ==> HasDropped(model)
      ensures !HasDropped(old(model)) ==> model.pub == PublisherGo(old(model)).pub
    {
      hide Reached, EndDue, HasFailure, CoordinatorStep, FetcherStep, PublisherGo;
      if !HasDropped(model) {
        Turn(PublishThread, Go);
      }
    }

    /** _acknowledge_and_publish */
    method AcknowledgeAndPublish(k: nat, ghost buffered: set<nat>) returns (how: Ending)
      requires Valid() && !due && At(PAck(k), k, buffered)
      modifies this
      ensures Valid() && Onward() && (due ==> how.Raised? && !HasDropped(model))
      ensures how.Finished? ==> tally == old(tally).(acks := old(tally).acks + 1)
      ensures how.Raised? ==> tally == old(tally).(bad := old(tally).bad + 1)
      ensures how.Unseen? ==> tally == old(tally) || tally == old(tally).(acks := old(tally).acks + 1)
      ensures how.Finished? || how.Raised? || how.Unseen?
      ensures how.Unseen? ==> schedule == []
      ensures how.Finished? ==> At(PHold, k + 1, buffered)
      ensures how.Raised? ==> At(PAck(k), k, buffered)
    {
      hide Reached, EndDue, HasFailure, CoordinatorStep, FetcherStep, PutReady, PopNext, TakeFetched;
      if schedule == [] {
        return Unseen;
      }
      ghost var before := model;
      var answer := Call(PublishThread);
      DroppedStays(before, model);
      if answer == Bad {
        return Raised;
      }
      PublisherTurn();
      var put := PutReadyItem(PublishThread, BatchItem(k));
      if put != Finished {
        return if put == Stopped then Finished else Unseen;
      }
      CountPublished(k, buffered);
      return Finished;
    }

    method CountPublished(k: nat, ghost buffered: set<nat>)
      requires Valid() && !due && model.pub == PublisherState(PBump, buffered, k, publishedBatches)
      modifies this
      ensures Valid() && Onward() && !due && tally == old(tally)
      ensures model.pub == PublisherState(PHold, buffered, k + 1, publishedBatches)
    {
      hide Reached, EndDue, HasFailure, CoordinatorStep, FetcherStep, PutReady, PopNext, TakeFetched;
      publishedBatches := publishedBatches + 1;
      Turn(PublishThread, Go);
    }

    /** Since before, batches have been acknowledged, and at most the last call failed. */
    ghost predicate OnlyAcks(before: Tally, raised: bool)
      reads this
    {
      tally == before.(acks := tally.acks, bad := before.bad + if raised then 1 else 0)
    }

    /** The inner loop of _ordered_publish_loop: everything that is next in order goes to the trainer. */
    method PublishReady(next: nat, waiting: set<nat>) returns (how: Ending, nextSequence: nat, buffered: set<nat>)
      requires Valid() && !due && At(PHold, next, waiting)
      modifies this
      ensures Valid() && Onward() && (due ==> how.Raised? && !HasDropped(model))
      ensures OnlyAcks(old(tally), how.Raised?)
      ensures !how.Unseen? ==> tally.acks - old(tally).acks == nextSequence - next
      ensures how.Finished? || how.Raised? || how.Unseen?
      ensures how.Unseen? ==> schedule == []
      ensures how.Finished? ==> At(PCheck, nextSequence, buffered) && nextSequence !in buffered
      ensures how.Raised? ==> At(PAck(nextSequence), nextSequence, buffered)
    {
      hide Reached, EndDue, HasFailure, CoordinatorStep, FetcherStep;
      nextSequence, buffered := next, waiting;
      while nextSequence in buffered
        invariant Valid() && Onward() && !due
        invariant OnlyAcks(old(tally), false) && tally.acks - old(tally).acks == nextSequence - next
        invariant At(PHold, nextSequence, buffered)
        decreases |buffered|
      {
        buffered := buffered - {nextSequence};
        PublisherTurn();
        how := AcknowledgeAndPublish(nextSequence, buffered);
        if how != Finished {
          return;
        }
        nextSequence := nextSequence + 1;
      }
      PublisherTurn();
      return Finished, nextSequence, buffered;
    }

    /** The except clause of _ordered_publish_loop. */
    method PublisherFails(next: nat, ghost buffered: set<nat>)
      requires Valid() && (due ==> !HasDropped(model)) && At(PAck(next), next, buffered)
      modifies this
      ensures Valid() && Onward() && !due
      ensures tally == old(tally).(fails := tally.fails)
      ensures tally.fails == old(tally).fails + 1 || (stopEvent && tally.fails == old(tally).fails)
      ensures model.pub.pc.PExit? || model.pub.pc.PHalt? || schedule == []
    {
      hide Reached, EndDue, HasFailure, CoordinatorStep, FetcherStep, PutReady;
      if !stopEvent {
        Turn(PublishThread, Fail);
        var seen := SignalError(PublishThread);
      } else if !HasDropped(model) {
        Turn(PublishThread, Fail);
      }
    }

    /** _maybe_send_end behind the inner loop; having dropped a batch, the publisher never finds the end due. */
    method CheckEnd(next: nat, ghost buffered: set<nat>) returns (seen: bool)
      requires Valid() && !due && At(PCheck, next, buffered)
      modifies this
      ensures Valid() && Onward() && !due && tally == old(tally)
      ensures !seen ==> schedule == []
      ensures seen ==> At(PTop, next, buffered)
    {
      hide Reached, EndDue, Enabled, Apply;
      ghost var before := model;
      if HasDropped(model) {
        ReachedIsSafe(config, trace, model);
        HaltedIsNotDue(config, model);
      }
      seen := MaybeSendEnd(PublishThread, HasDropped(model));
      if HasDropped(before) {
        DroppedStays(before, model);
      }
    }

    /** Since before, batches have been acknowledged, and a failed call has been followed by a step of failing or by a stop. */
    ghost predicate OnlyPublishes(before: Tally)
      reads this
    {
      Heard(before) && tally == before.(acks := tally.acks, bad := tally.bad, fails := tally.fails)
    }

    /** One result out of the fetched queue, and whatever can be published with it. */
    method PublishFetched(next: nat, waiting: set<nat>) returns (goOn: bool, nextSequence: nat, buffered: set<nat>)
      requires Valid() && fetchedQueue != [] && model.pub == PublisherState(PTop, waiting, next, publishedBatches)
      modifies this
      ensures Valid() && Onward() && !due
      ensures OnlyPublishes(old(tally))
      ensures goOn ==> At(PTop, nextSequence, buffered)
      ensures !goOn ==> model.pub.pc.PExit? || model.pub.pc.PHalt? || schedule == []
    {
      hide Reached, EndDue, HasFailure, CoordinatorStep, FetcherStep, PutReady, PopNext;
      buffered := waiting + {fetchedQueue[0]};
      fetchedQueue := fetchedQueue[1..];
      Turn(PublishThread, Go);
      var how;
      how, nextSequence, buffered := PublishReady(next, buffered);
      if how == Raised {
        PublisherFails(nextSequence, buffered);
      }
      if how != Finished {
        return false, nextSequence, buffered;
      }
      goOn := CheckEnd(nextSequence, buffered);
    }

    /** _ordered_publish_loop */
    method PublishLoop()
      requires Valid() && !due && At(PTop, 0, {})
      modifies this
      ensures Valid() && Onward()
      ensures model.pub.pc.PExit? || model.pub.pc.PHalt? || schedule == []
      ensures OnlyPublishes(old(tally))
    {
      hide Reached, EndDue, HasFailure, CoordinatorStep, FetcherStep, PutReady;
      var nextSequence, buffered := 0, {};
      while !stopEvent
        invariant Valid() && !due && Onward() && OnlyPublishes(old(tally))
        invariant At(PTop, nextSequence, buffered)
        decreases |schedule|
      {
        if schedule == [] {
          return;
        }
        Wait(PublishThread);
        if fetchedQueue == [] {
          var seen := MaybeSendEnd(PublishThread, true);
          if !seen {
            return;
          }
        } else {
          var goOn;
          goOn, nextSequence, buffered := PublishFetched(nextSequence, buffered);
          if !goOn {
            return;
          }
        }
      }
      if !HasDropped(model) {
        Turn(PublishThread, Quit);
      }
    }

    // The trainer.

    /** get_item, when there is one */
    method GetItem() returns (item: ReadyItem)
      requires Valid() && !due && readyQueue != []
      modifies this
      ensures Valid() && trace == old(trace) + [TrainerTake] && tally == old(tally)
      ensures item == old(readyQueue)[0] && readyQueue == old(readyQueue)[1..] && received == old(received) + [item]
    {
      item := readyQueue[0];
      Happen(TrainerTake);
    }

    /** The part of stop that all threads see. */
    method Stop()
      requires Valid()
      modifies this
      ensures Valid() && stopEvent && old(trace) <= trace && tally == old(tally)
      ensures readyQueue == old(readyQueue) && received == old(received)
    {
      if !stopEvent {
        Happen(StopEvent);
      }
    }

    /**
     * What the trainer has got and still finds in the queue, at any time: batches 0, 1, 2, ... in
     * order; and once the end marker is there, exactly the scheduled batches and then the marker.
     */
    lemma TrainerSees()
      requires Valid()
      ensures exists n: nat :: BatchNumbers(received + readyQueue) == Upto(n)
      ensures EndItem in received + readyQueue ==>
                received + readyQueue == Batches(scheduledBatches) + [EndItem] && publishedBatches == scheduledBatches && coordinatorDone
      ensures |taskQueue| <= config.capacity && |fetchedQueue| <= config.capacity && |readyQueue| <= config.capacity
    {
      hide ValidRun, After, Init, BatchNumbers, Upto;
      DeliveryIsInOrder(config, trace);
      if EndItem in Log(model.q) {
        EndIsSound(config, trace);
      }
    }

    /**
     * When a call of any thread has failed, and that thread has gone on from it, the trainer has an
     * error, finds it in its queue or is being offered it, unless somebody stopped the run from outside.
     */
    lemma FailedCallsReachTheTrainer()
      requires Valid() && StopEvent !in trace
      requires tally.bad > 0 && (tally.bad <= tally.fails || stopEvent)
      ensures ErrorItem in received + readyQueue || SomeoneOffers(model)
    {
      hide ValidRun, After, Init, SomeoneOffers, HasFailure;
      FailuresReachTheTrainer(config, trace);
    }

    /** When nobody can do anything any more, the trainer has all batches and the end marker, or an error. */
    lemma ThreadsEndWell()
      requires Valid() && AtRest(config, model)
      ensures stopEvent && StopEvent !in trace ==> ErrorItem in received
      ensures !stopEvent ==> received == Batches(scheduledBatches) + [EndItem] && tally.fails == 0
    {
      hide ValidRun, After, Init, AtRest, HasFailure;
      EveryMaximalRunEnds(config, trace);
    }
  }

  /** Where a thread goes on after it has signalled an error. */
  function Resigned(c: Config, l: Local): Local {
    match l
    case OfCoordinator(co) => OfCoordinator(co.(pc := CSentinels(c.fetchers)))
    case OfFetcher(_) => OfFetcher(FCheck(true))
    case OfPublisher(pub) => OfPublisher(pub.(pc := PExit))
  }
}

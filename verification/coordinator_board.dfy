/**
 * Tasks, payload entries and batch handles of the coordinator store, and what keeps them coherent:
 * batchflow/coordinator/store.py. A batch's cache key is its id, so one id indexes all three.
 */
module CoordinatorBoard {
  import opened Text
  import opened CoordinatorPlan

  datatype StorageClass = Reusable | Transient
  datatype EntryStatus = EntryPending | EntryAvailable | EntryFailed

  /** Where a payload is fetched from: the shared Redis cache or a worker's own memory. */
  datatype Location = Nowhere | Redis | Worker(host: string, port: nat)

  /** A PayloadEntry; forced marks the admission outcome forced_no_fallback. */
  datatype Entry = Entry(status: EntryStatus, storage: StorageClass, location: Location, size: int, expires: Option<int>,
                         lastAccessed: int, fetchKey: string, datasetId: string, forced: bool)

  /** A READY BatchHandle. */
  datatype Handle = Handle(key: string, location: Location, fetchKey: string, expires: Option<int>, forced: bool)

  datatype TaskStatus = Pending | Running | Completed | Failed | Cancelled

  /** jobId is empty for an opportunistic task, which belongs to no job. */
  datatype Task = Task(batch: Batch, jobId: string, priority: real, storage: StorageClass, status: TaskStatus, worker: string)

  datatype Board = Board(tasks: map<nat, Task>, index: map<string, nat>, entries: map<string, Entry>, handles: map<string, Handle>)

  function ReadyHandle(k: string, e: Entry): Handle {
    Handle(k, e.location, e.fetchKey, e.expires, e.forced)
  }

  predicate Live(status: TaskStatus) {
    status.Pending? || status.Running? || status.Completed?
  }

  predicate Indexed(b: Board, k: string) {
    k in b.index && b.index[k] in b.tasks
  }

  function StatusOf(b: Board, k: string): TaskStatus
    requires Indexed(b, k)
  {
    b.tasks[b.index[k]].status
  }

  /** is_batch_ready */
  predicate IsReady(b: Board, k: string) {
    k in b.handles
  }

  /** is_batch_in_progress */
  predicate InProgress(b: Board, k: string) {
    Indexed(b, k) && (StatusOf(b, k).Pending? || StatusOf(b, k).Running?)
  }

  // The operations of the store.

  /** create_task for a job that is active, or for no job at all. */
  function CreateTask(b: Board, t: nat, task: Task, now: int): Board {
    var k := task.batch.id;
    if Indexed(b, k) && Live(StatusOf(b, k)) then b
    else
      var entry :=
        if k !in b.entries then Entry(EntryPending, task.storage, Nowhere, 0, None, now, "", task.batch.datasetId, false)
        else if b.entries[k].status.EntryFailed? then b.entries[k].(status := EntryPending)
        else b.entries[k];
      Board(b.tasks[t := task.(status := Pending)], b.index[k := t], b.entries[k := entry], b.handles)
  }

  /** assign_task_to_worker; ownerActive says whether its job may still run. */
  function Assign(b: Board, t: nat, worker: string, ownerActive: bool): Board
    requires t in b.tasks
  {
    if !b.tasks[t].status.Pending? then b
    else if !ownerActive then b.(tasks := b.tasks[t := b.tasks[t].(status := Cancelled)])
    else b.(tasks := b.tasks[t := b.tasks[t].(status := Running, worker := worker)])
  }

  function Complete(b: Board, t: nat, entry: Entry): Board
    requires t in b.tasks
  {
    var k := b.tasks[t].batch.id;
    Board(b.tasks[t := b.tasks[t].(status := Completed)], b.index, b.entries[k := entry], b.handles[k := ReadyHandle(k, entry)])
  }

  function Fail(b: Board, t: nat): Board
    requires t in b.tasks
  {
    var k := b.tasks[t].batch.id;
    b.(tasks := b.tasks[t := b.tasks[t].(status := TaskStatus.Failed)],
       entries := if k in b.entries then b.entries[k := b.entries[k].(status := EntryFailed)] else b.entries)
  }

  /** The part of finish_job that cancels the job's waiting tasks. */
  function CancelTasksOf(b: Board, jobId: string): Board {
    b.(tasks := map t | t in b.tasks :: Cancelling(b.tasks[t], jobId))
  }

  function Cancelling(task: Task, jobId: string): Task {
    if task.jobId == jobId && task.status.Pending? then task.(status := Cancelled) else task
  }

  /** remove_payload for a key that nobody has pinned. */
  function Remove(b: Board, k: string): Board {
    if k !in b.entries then b
    else
      Board(if k in b.index then b.tasks - {b.index[k]} else b.tasks, b.index - {k}, b.entries - {k}, b.handles - {k})
  }

  function Touch(b: Board, k: string, now: int): Board {
    if k in b.entries then b.(entries := b.entries[k := b.entries[k].(lastAccessed := now)]) else b
  }

  // Coherence.

  /** What the index, the entry and the handle of one batch id say about each other. */
  predicate KeyCoherent(b: Board, k: string) {
    if k !in b.index then k !in b.entries && k !in b.handles
    else
      && Indexed(b, k) && b.tasks[b.index[k]].batch.id == k && k in b.entries
      && match StatusOf(b, k)
         case Completed => b.entries[k].status.EntryAvailable? && k in b.handles && b.handles[k] == ReadyHandle(k, b.entries[k])
         case Failed => b.entries[k].status.EntryFailed? && b.entries[k].expires.None? && k !in b.handles
         case _ => b.entries[k].status.EntryPending? && b.entries[k].expires.None? && k !in b.handles
  }

  /** A live task is the one that its batch's index names. */
  predicate TaskCoherent(b: Board, t: nat) {
    t in b.tasks && Live(b.tasks[t].status) ==> b.tasks[t].batch.id in b.index && b.index[b.tasks[t].batch.id] == t
  }

  ghost predicate Coherent(b: Board) {
    && (forall k: string :: KeyCoherent(b, k))
    && (forall t: nat :: TaskCoherent(b, t))
  }

  lemma CreateKeepsCoherence(b: Board, t: nat, task: Task, now: int)
    requires Coherent(b) && t !in b.tasks
    ensures Coherent(CreateTask(b, t, task, now))
  {
    var b' := CreateTask(b, t, task, now);
    var k := task.batch.id;
    assert KeyCoherent(b, k);
    forall k2: string
      ensures KeyCoherent(b', k2)
    {
      assert KeyCoherent(b, k2);
    }
    forall t2: nat
      ensures TaskCoherent(b', t2)
    {
      assert TaskCoherent(b, t2);
    }
  }

  lemma AssignKeepsCoherence(b: Board, t: nat, worker: string, ownerActive: bool)
    requires Coherent(b) && t in b.tasks
    ensures Coherent(Assign(b, t, worker, ownerActive))
  {
    var b' := Assign(b, t, worker, ownerActive);
    forall k: string
      ensures KeyCoherent(b', k)
    {
      assert KeyCoherent(b, k);
    }
    forall t2: nat
      ensures TaskCoherent(b', t2)
    {
      assert TaskCoherent(b, t2);
    }
  }

  lemma CompleteKeepsCoherence(b: Board, t: nat, entry: Entry)
    requires Coherent(b) && t in b.tasks && b.tasks[t].status.Running? && entry.status.EntryAvailable?
    ensures Coherent(Complete(b, t, entry))
  {
    var b' := Complete(b, t, entry);
    assert TaskCoherent(b, t);
    forall k: string
      ensures KeyCoherent(b', k)
    {
      assert KeyCoherent(b, k);
    }
    forall t2: nat
      ensures TaskCoherent(b', t2)
    {
      assert TaskCoherent(b, t2);
    }
  }

  lemma FailKeepsCoherence(b: Board, t: nat)
    requires Coherent(b) && t in b.tasks && b.tasks[t].status.Running?
    ensures Coherent(Fail(b, t))
  {
    var b' := Fail(b, t);
    assert TaskCoherent(b, t);
    forall k: string
      ensures KeyCoherent(b', k)
    {
      assert KeyCoherent(b, k);
    }
    forall t2: nat
      ensures TaskCoherent(b', t2)
    {
      assert TaskCoherent(b, t2);
    }
  }

  lemma CancelKeepsCoherence(b: Board, jobId: string)
    requires Coherent(b)
    ensures Coherent(CancelTasksOf(b, jobId))
  {
    var b' := CancelTasksOf(b, jobId);
    forall k: string
      ensures KeyCoherent(b', k)
    {
      assert KeyCoherent(b, k);
    }
    forall t: nat
      ensures TaskCoherent(b', t)
    {
      assert TaskCoherent(b, t);
    }
  }

  lemma RemoveKeepsCoherence(b: Board, k: string)
    requires Coherent(b)
    ensures Coherent(Remove(b, k))
  {
    var b' := Remove(b, k);
    assert KeyCoherent(b, k);
    forall k2: string
      ensures KeyCoherent(b', k2)
    {
      assert KeyCoherent(b, k2);
    }
    forall t: nat
      ensures TaskCoherent(b', t)
    {
      assert TaskCoherent(b, t);
    }
  }

  lemma TouchKeepsCoherence(b: Board, k: string, now: int)
    requires Coherent(b)
    ensures Coherent(Touch(b, k, now))
  {
    var b' := Touch(b, k, now);
    forall k2: string
      ensures KeyCoherent(b', k2)
    {
      assert KeyCoherent(b, k2);
    }
    forall t: nat
      ensures TaskCoherent(b', t)
    {
      assert TaskCoherent(b, t);
    }
  }

  /** At most one live task per batch. */
  lemma OneLiveTaskPerBatch(b: Board, t1: nat, t2: nat)
    requires Coherent(b) && t1 in b.tasks && t2 in b.tasks
    requires Live(b.tasks[t1].status) && Live(b.tasks[t2].status) && b.tasks[t1].batch.id == b.tasks[t2].batch.id
    ensures t1 == t2
  {
    assert TaskCoherent(b, t1) && TaskCoherent(b, t2);
  }

  // The life of one payload.

  datatype KeyEvent = Started | Finished | Broke | Dropped
  datatype Phase = Idle | InWork | Stored | Impossible

  function NextPhase(p: Phase, e: KeyEvent): Phase {
    match e
    case Started => if p.Idle? then InWork else Impossible
    case Finished => if p.InWork? then Stored else Impossible
    case Broke => if p.InWork? then Idle else Impossible
    case Dropped => if p.Stored? then Idle else Impossible
  }

  /** Where a history of one payload leaves it; Impossible if its events cannot follow each other so. */
  function PhaseAfter(history: seq<KeyEvent>): Phase {
    if history == [] then Idle else NextPhase(PhaseAfter(history[..|history| - 1]), history[|history| - 1])
  }

  function PhaseOf(b: Board, k: string): Phase {
    if !Indexed(b, k) then Idle
    else
      match StatusOf(b, k)
      case Running => InWork
      case Completed => Stored
      case _ => Idle
  }

  lemma {:induction false} PossibleThroughout(history: seq<KeyEvent>, n: nat)
    requires n <= |history| && PhaseAfter(history) != Impossible
    ensures PhaseAfter(history[..n]) != Impossible
  {
    if n < |history| {
      PossibleThroughout(history[..|history| - 1], n);
      assert history[..|history| - 1][..n] == history[..n];
    } else {
      assert history[..n] == history;
    }
  }

  /** As long as nothing is dropped, a stored payload stays stored. */
  lemma {:induction false} StoredUntilDropped(history: seq<KeyEvent>, i: nat, j: nat)
    requires PhaseAfter(history) != Impossible && i < j <= |history| && history[i] == Finished
    requires forall m :: i < m < j ==> history[m] != Dropped
    ensures PhaseAfter(history[..j]).Stored?
    decreases j
  {
    PossibleThroughout(history, j);
    assert history[..j][..j - 1] == history[..j - 1];
    if j == i + 1 {
    } else {
      StoredUntilDropped(history, i, j - 1);
    }
  }

  /** Two completions of a payload are separated by a removal of it. */
  lemma RemovalBetweenCompletions(history: seq<KeyEvent>, i: nat, j: nat)
    requires PhaseAfter(history) != Impossible && i < j < |history| && history[i] == Finished && history[j] == Finished
    ensures exists m :: i < m < j && history[m] == Dropped
  {
    PossibleThroughout(history, j + 1);
    assert history[..j + 1][..j] == history[..j];
    if forall m :: i < m < j ==> history[m] != Dropped {
      StoredUntilDropped(history, i, j);
    }
  }

  /** As long as it neither fails nor is dropped, a started payload is in work or stored. */
  lemma {:induction false} BusyUntilGivenUp(history: seq<KeyEvent>, i: nat, j: nat)
    requires PhaseAfter(history) != Impossible && i < j <= |history| && history[i] == Started
    requires forall m :: i < m < j ==> history[m] != Dropped && history[m] != Broke
    ensures PhaseAfter(history[..j]).InWork? || PhaseAfter(history[..j]).Stored?
    decreases j
  {
    PossibleThroughout(history, j);
    assert history[..j][..j - 1] == history[..j - 1];
    if j == i + 1 {
    } else {
      BusyUntilGivenUp(history, i, j - 1);
    }
  }

  /** A payload is handed to a worker again only after the previous attempt failed or its result was removed. */
  lemma GivenUpBetweenStarts(history: seq<KeyEvent>, i: nat, j: nat)
    requires PhaseAfter(history) != Impossible && i < j < |history| && history[i] == Started && history[j] == Started
    ensures exists m :: i < m < j && (history[m] == Dropped || history[m] == Broke)
  {
    PossibleThroughout(history, j + 1);
    assert history[..j + 1][..j] == history[..j];
    if forall m :: i < m < j ==> history[m] != Dropped && history[m] != Broke {
      BusyUntilGivenUp(history, i, j);
    }
  }
}

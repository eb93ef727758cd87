/**
 * The two CoorDL processes as objects over a shared staging store. One call is one turn of the
 * process's loop, and each turn is shown to be the matching step of the protocol.
 */
module CoorDLProcesses {
  import opened Text
  import opened CoorDLPlan
  import opened CoorDLStaging
  import opened CoorDLProtocol

  /** Entries picked out of the plan by position. */
  ghost predicate Picks(plan: seq<Entry>, positions: seq<nat>, entries: seq<Entry>) {
    && |positions| == |entries|
    && forall r :: 0 <= r < |entries| ==> positions[r] < |plan| && plan[positions[r]] == entries[r]
  }

  datatype Turn = Published | Popped | Waiting | Complete | Refused

  /** run_preparation_owner: the deque of staged identifiers and the next owned entry. */
  class PreparationOwner {
    const index: nat
    const window: nat
    const owned: seq<Entry>
    const store: StagingStore
    var published: nat
    var pending: seq<string>

    ghost predicate Shows(c: Config, s: State)
      reads this, store
    {
      && c.Ok() && Shaped(c, s) && !s.raised && index < c.jobs && window == c.window
      && Picks(c.plan, Owned(c.plan, index), owned)
      && store.Snapshot() == s.staged
      && published == s.published[index] <= |owned| && pending == s.pending[index]
    }

    constructor (plan: seq<Entry>, index: nat, window: nat, store: StagingStore)
      ensures this.index == index && this.window == window && this.store == store
      ensures Picks(plan, Owned(plan, index), owned) && published == 0 && pending == []
    {
      var mine: seq<Entry> := [];
      for k := 0 to |plan|
        invariant Picks(plan[..k], Owned(plan[..k], index), mine)
      {
        assert plan[..k + 1][..k] == plan[..k];
        if plan[k].owner == index {
          mine := mine + [plan[k]];
        }
      }
      assert plan[..|plan|] == plan;
      this.index, this.window, this.store := index, window, store;
      owned, published, pending := mine, 0, [];
    }

    /** One turn: publish the next entry, drop the head of the deque, or wait for it to be consumed. */
    method TakeTurn(ghost c: Config, ghost s: State) returns (t: Turn)
      requires Shows(c, s)
      modifies this, store
      ensures t == Published ==> Enabled(c, s, Publish(index)) && Shows(c, Apply(c, s, Publish(index)))
      ensures t == Popped ==> Enabled(c, s, Pop(index)) && Shows(c, Apply(c, s, Pop(index)))
      ensures t == Refused ==> Enabled(c, s, Publish(index)) && Apply(c, s, Publish(index)).raised
      ensures t == Waiting || t == Complete ==>
                Shows(c, s) && !Enabled(c, s, Publish(index)) && !Enabled(c, s, Pop(index))
      ensures t == Complete <==> old(published) == |owned| && old(pending) == []
    {
      if published < |owned| {
        if |pending| < window {
          var e := owned[published];
          var created := store.Publish(e.batchId, Prepared(e));
          if !created {
            return Refused;
          }
          pending := pending + [e.batchId];
          published := published + 1;
          return Published;
        }
      } else if pending == [] {
        return Complete;
      }
      var present := store.Exists(pending[0]);
      if present {
        return Waiting;
      }
      pending := pending[1..];
      t := Popped;
    }
  }

  /** CoorDLBatchIterator: every call of its __next__ tries the consume script until it answers. */
  class BatchIterator {
    const job: nat
    const jobs: nat
    const plan: seq<Entry>
    const store: StagingStore
    var position: nat

    ghost predicate Shows(c: Config, s: State)
      reads this, store
    {
      && Shaped(c, s) && job < c.jobs == jobs && plan == c.plan
      && store.Snapshot() == s.staged && position == |s.consumed[job]| <= |plan|
    }

    constructor (plan: seq<Entry>, job: nat, jobs: nat, store: StagingStore)
      ensures this.plan == plan && this.job == job && this.jobs == jobs && this.store == store && position == 0
    {
      this.plan, this.job, this.jobs, this.store := plan, job, jobs, store;
      position := 0;
    }

    /** One poll of the staging area; nothing changes while the batch is not staged. */
    method Poll(ghost c: Config, ghost s: State) returns (r: Option<Payload>)
      requires Shows(c, s)
      modifies this, store
      ensures r.Some? <==> Enabled(c, s, Consume(job))
      ensures r.Some? ==> Shows(c, Apply(c, s, Consume(job)))
                          && Apply(c, s, Consume(job)).consumed[job] == s.consumed[job] + [r.value]
      ensures r.None? ==> Shows(c, s)
    {
      if position >= |plan| {
        return None;
      }
      var got := store.Consume(plan[position].batchId, jobs);
      if got.None? {
        return None;
      }
      position := position + 1;
      r := Some(got.value.0);
    }
  }
}

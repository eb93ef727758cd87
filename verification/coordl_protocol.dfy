/**
 * CoorDL coordinated preparation as an interleaving of owners and consuming jobs:
 * experiments/baselines/coordl/pipeline.py over the staging area.
 */
module CoorDLProtocol {
  import opened Text
  import opened Sequences
  import opened CoorDLPlan
  import opened CoorDLStaging

  /** One owner and one consuming job per job index; the window bounds each owner's staged batches. */
  datatype Config = Config(plan: seq<Entry>, jobs: nat, window: nat) {
    predicate Ok() {
      jobs > 0 && window > 0 && ValidPlan(plan, jobs)
    }
  }

  /** published[o] counts what owner o has published; pending[o] is its deque; raised means a publish was refused. */
  datatype State = State(
    staged: Staged,
    published: seq<nat>,
    pending: seq<seq<string>>,
    consumed: seq<seq<Payload>>,
    raised: bool)

  datatype Action = Publish(owner: nat) | Pop(owner: nat) | Consume(job: nat)

  /** The plan positions owner o prepares, in plan order. */
  function Owned(plan: seq<Entry>, o: nat): seq<nat> {
    if plan == [] then []
    else
      var n := |plan| - 1;
      if plan[n].owner == o then Owned(plan[..n], o) + [n] else Owned(plan[..n], o)
  }

  function Prepared(e: Entry): Payload {
    Payload(e.samples, e.owner)
  }

  function PreparedPlan(plan: seq<Entry>): (r: seq<Payload>)
    ensures |r| == |plan|
  {
    seq(|plan|, k requires 0 <= k < |plan| => Prepared(plan[k]))
  }

  function Init(c: Config): State {
    State(Staged(map[], map[]), seq(c.jobs, _ => 0), seq(c.jobs, _ => []), seq(c.jobs, _ => []), false)
  }

  predicate Shaped(c: Config, s: State) {
    |s.published| == |s.pending| == |s.consumed| == c.jobs
  }

  /**
   * An owner publishes when its deque has room. It looks at the head of its deque only when the
   * deque is full or everything is published, and drops the head once its payload is gone.
   */
  predicate Enabled(c: Config, s: State, a: Action)
    requires Shaped(c, s)
  {
    match a
    case Publish(o) => !s.raised && o < c.jobs && s.published[o] < |Owned(c.plan, o)| && |s.pending[o]| < c.window
    case Pop(o) =>
      && !s.raised && o < c.jobs && s.pending[o] != [] && s.pending[o][0] !in s.staged.payloads
      && (|s.pending[o]| >= c.window || s.published[o] == |Owned(c.plan, o)|)
    case Consume(j) => j < c.jobs && |s.consumed[j]| < |c.plan| && c.plan[|s.consumed[j]|].batchId in s.staged.payloads
  }

  function Apply(c: Config, s: State, a: Action): (s': State)
    requires Shaped(c, s) && Enabled(c, s, a)
    ensures Shaped(c, s')
  {
    match a
    case Publish(o) =>
      OwnedRange(c.plan, o);
      var e := c.plan[Owned(c.plan, o)[s.published[o]]];
      var (staged, created) := PublishScript(s.staged, e.batchId, Prepared(e));
      if !created then s.(raised := true)
      else s.(staged := staged, published := s.published[o := s.published[o] + 1],
              pending := s.pending[o := s.pending[o] + [e.batchId]])
    case Pop(o) => s.(pending := s.pending[o := s.pending[o][1..]])
    case Consume(j) =>
      var (staged, got) := ConsumeScript(s.staged, c.plan[|s.consumed[j]|].batchId, c.jobs);
      s.(staged := staged, consumed := s.consumed[j := s.consumed[j] + [got.value.0]])
  }

  predicate ValidRun(c: Config, s: State, run: seq<Action>)
    requires Shaped(c, s)
    decreases |run|
  {
    run == [] || (Enabled(c, s, run[0]) && ValidRun(c, Apply(c, s, run[0]), run[1..]))
  }

  function After(c: Config, s: State, run: seq<Action>): (s': State)
    requires Shaped(c, s) && ValidRun(c, s, run)
    ensures Shaped(c, s')
    decreases |run|
  {
    if run == [] then s else After(c, Apply(c, s, run[0]), run[1..])
  }

  predicate Final(c: Config, s: State)
    requires Shaped(c, s)
  {
    && !s.raised && s.staged == Staged(map[], map[])
    && forall i :: 0 <= i < c.jobs ==>
         s.published[i] == |Owned(c.plan, i)| && s.pending[i] == [] && s.consumed[i] == PreparedPlan(c.plan)
  }

  // Owned positions.

  lemma {:induction false} OwnedRange(plan: seq<Entry>, o: nat)
    ensures |Owned(plan, o)| <= |plan|
    ensures forall r :: 0 <= r < |Owned(plan, o)| ==> Owned(plan, o)[r] < |plan| && plan[Owned(plan, o)[r]].owner == o
    ensures forall r, t :: 0 <= r < t < |Owned(plan, o)| ==> Owned(plan, o)[r] < Owned(plan, o)[t]
  {
    if plan != [] {
      OwnedRange(plan[..|plan| - 1], o);
    }
  }

  /** The place of plan position k among its owner's positions. */
  function Rank(plan: seq<Entry>, k: nat): nat
    requires k < |plan|
  {
    |Owned(plan[..k], plan[k].owner)|
  }

  lemma {:induction false} RankIsPlace(plan: seq<Entry>, k: nat)
    requires k < |plan|
    ensures Rank(plan, k) < |Owned(plan, plan[k].owner)| && Owned(plan, plan[k].owner)[Rank(plan, k)] == k
  {
    var n := |plan| - 1;
    if k < n {
      assert plan[..n][..k] == plan[..k];
      RankIsPlace(plan[..n], k);
    }
  }

  lemma RankOfOwned(plan: seq<Entry>, o: nat, r: nat)
    requires r < |Owned(plan, o)|
    ensures Owned(plan, o)[r] < |plan| && plan[Owned(plan, o)[r]].owner == o && Rank(plan, Owned(plan, o)[r]) == r
  {
    OwnedRange(plan, o);
    RankIsPlace(plan, Owned(plan, o)[r]);
  }

  // Invariant.

  /** How many jobs have consumed plan position k. */
  function Past(consumed: seq<seq<Payload>>, k: nat): (count: nat)
    ensures count <= |consumed|
    ensures count == |consumed| <==> forall j :: 0 <= j < |consumed| ==> |consumed[j]| > k
    ensures count == 0 <==> forall j :: 0 <= j < |consumed| ==> |consumed[j]| <= k
  {
    if consumed == [] then 0
    else
      var n := |consumed| - 1;
      assert forall j :: 0 <= j < n ==> consumed[..n][j] == consumed[j];
      Past(consumed[..n], k) + if |consumed[n]| > k then 1 else 0
  }

  lemma {:induction false} PastAdvance(consumed: seq<seq<Payload>>, j: nat, p: Payload, k: nat)
    requires j < |consumed|
    ensures Past(consumed[j := consumed[j] + [p]], k) == Past(consumed, k) + if |consumed[j]| == k then 1 else 0
  {
    var n := |consumed| - 1;
    var more := consumed[j := consumed[j] + [p]];
    if j == n {
      assert more[..n] == consumed[..n];
    } else {
      assert more[..n] == consumed[..n][j := consumed[..n][j] + [p]];
      PastAdvance(consumed[..n], j, p, k);
    }
  }

  predicate IsPublished(c: Config, s: State, k: nat)
    requires Shaped(c, s) && k < |c.plan| && c.plan[k].owner < c.jobs
  {
    Rank(c.plan, k) < s.published[c.plan[k].owner]
  }

  /** The deque of owner o holds the last entries it published. */
  predicate OwnerInv(c: Config, s: State, o: nat)
    requires Shaped(c, s) && o < c.jobs
  {
    var owned := Owned(c.plan, o);
    var gone := s.published[o] - |s.pending[o]|;
    && s.published[o] <= |owned| && 0 <= gone && |s.pending[o]| <= c.window
    && (forall r :: 0 <= r < |owned| ==> owned[r] < |c.plan|)
    && (forall i :: 0 <= i < |s.pending[o]| ==> s.pending[o][i] == c.plan[owned[gone + i]].batchId)
    && (forall r :: 0 <= r < gone ==> c.plan[owned[r]].batchId !in s.staged.payloads)
  }

  /** Position k is staged exactly while it is published and some job has not consumed it. */
  predicate PositionInv(c: Config, s: State, k: nat)
    requires Shaped(c, s) && k < |c.plan| && c.plan[k].owner < c.jobs
  {
    var id := c.plan[k].batchId;
    && (id in s.staged.payloads <==> IsPublished(c, s, k) && Past(s.consumed, k) < c.jobs)
    && (id in s.staged.payloads ==> id in s.staged.used && s.staged.used[id] == Past(s.consumed, k)
                                    && s.staged.payloads[id] == Prepared(c.plan[k]))
    && (Past(s.consumed, k) > 0 ==> IsPublished(c, s, k))
  }

  predicate JobInv(c: Config, s: State, j: nat)
    requires Shaped(c, s) && j < c.jobs
  {
    |s.consumed[j]| <= |c.plan| && s.consumed[j] == PreparedPlan(c.plan[..|s.consumed[j]|])
  }

  ghost predicate Inv(c: Config, s: State) {
    && c.Ok() && Shaped(c, s) && !s.raised
    && s.staged.used.Keys == s.staged.payloads.Keys
    && (forall id :: id in s.staged.payloads ==> exists k :: 0 <= k < |c.plan| && c.plan[k].batchId == id)
    && (forall o :: 0 <= o < c.jobs ==> OwnerInv(c, s, o))
    && (forall k :: 0 <= k < |c.plan| ==> PositionInv(c, s, k))
    && (forall j :: 0 <= j < c.jobs ==> JobInv(c, s, j))
  }

  lemma InitInv(c: Config)
    requires c.Ok()
    ensures Inv(c, Init(c))
  {
    forall o | 0 <= o < c.jobs
      ensures OwnerInv(c, Init(c), o)
    {
      OwnedRange(c.plan, o);
    }
  }

  /** The next entry of an owner has never been staged, so its publish is never refused. */
  lemma NextIsUnstaged(c: Config, s: State, o: nat) returns (k: nat)
    requires Inv(c, s) && o < c.jobs && s.published[o] < |Owned(c.plan, o)|
    ensures k == Owned(c.plan, o)[s.published[o]] < |c.plan| && c.plan[k].owner == o
    ensures Rank(c.plan, k) == s.published[o] && Past(s.consumed, k) == 0
    ensures c.plan[k].batchId !in s.staged.payloads
  {
    k := Owned(c.plan, o)[s.published[o]];
    RankOfOwned(c.plan, o, s.published[o]);
    assert PositionInv(c, s, k);
  }

  lemma PublishPosition(c: Config, s: State, o: nat, k: nat, i: nat)
    requires Inv(c, s) && Enabled(c, s, Publish(o)) && i < |c.plan|
    requires k == Owned(c.plan, o)[s.published[o]] < |c.plan| && c.plan[k].owner == o
    requires Rank(c.plan, k) == s.published[o] && Past(s.consumed, k) == 0
    requires c.plan[k].batchId !in s.staged.payloads
    ensures PositionInv(c, Apply(c, s, Publish(o)), i)
  {
    assert PositionInv(c, s, i);
    RankIsPlace(c.plan, i);
  }

  lemma PublishOwner(c: Config, s: State, o: nat, k: nat, p: nat)
    requires c.Ok() && Shaped(c, s) && Enabled(c, s, Publish(o)) && p < c.jobs && OwnerInv(c, s, p)
    requires k == Owned(c.plan, o)[s.published[o]] < |c.plan| && c.plan[k].owner == o
    requires Rank(c.plan, k) == s.published[o]
    requires c.plan[k].batchId !in s.staged.payloads
    ensures OwnerInv(c, Apply(c, s, Publish(o)), p)
  {
    hide Owned, Rank;
    var owned := Owned(c.plan, p);
    var s' := Apply(c, s, Publish(o));
    forall r | 0 <= r < s'.published[p] - |s'.pending[p]|
      ensures c.plan[owned[r]].batchId !in s'.staged.payloads
    {
      RankOfOwned(c.plan, p, r);
      assert owned[r] != k;
    }
  }

  lemma PublishPreserves(c: Config, s: State, o: nat)
    requires Inv(c, s) && Enabled(c, s, Publish(o))
    ensures Inv(c, Apply(c, s, Publish(o)))
  {
    var k := NextIsUnstaged(c, s, o);
    var s' := Apply(c, s, Publish(o));
    forall i | 0 <= i < |c.plan|
      ensures PositionInv(c, s', i)
    {
      PublishPosition(c, s, o, k, i);
    }
    forall p | 0 <= p < c.jobs
      ensures OwnerInv(c, s', p) && JobInv(c, s', p)
    {
      assert OwnerInv(c, s, p) && JobInv(c, s, p);
      PublishOwner(c, s, o, k, p);
    }
  }

  lemma PopOwner(c: Config, s: State, o: nat, p: nat)
    requires Shaped(c, s) && Enabled(c, s, Pop(o)) && p < c.jobs && OwnerInv(c, s, p)
    ensures OwnerInv(c, Apply(c, s, Pop(o)), p)
  {
    if p == o {
      var owned := Owned(c.plan, o);
      var gone := s.published[o] - |s.pending[o]|;
      assert s.pending[o][0] == c.plan[owned[gone + 0]].batchId;
      forall i | 0 <= i < |s.pending[o]| - 1
        ensures s.pending[o][1..][i] == c.plan[owned[gone + 1 + i]].batchId
      {
        assert s.pending[o][i + 1] == c.plan[owned[gone + (i + 1)]].batchId;
      }
    }
  }

  lemma PopPreserves(c: Config, s: State, o: nat)
    requires Inv(c, s) && Enabled(c, s, Pop(o))
    ensures Inv(c, Apply(c, s, Pop(o)))
  {
    var s' := Apply(c, s, Pop(o));
    forall p | 0 <= p < c.jobs
      ensures OwnerInv(c, s', p) && JobInv(c, s', p)
    {
      PopOwner(c, s, o, p);
      assert JobInv(c, s, p);
    }
    forall k | 0 <= k < |c.plan|
      ensures PositionInv(c, s', k)
    {
      assert PositionInv(c, s, k);
    }
  }

  lemma ConsumePosition(c: Config, s: State, j: nat, i: nat)
    requires c.Ok() && Shaped(c, s) && Enabled(c, s, Consume(j)) && i < |c.plan|
    requires PositionInv(c, s, |s.consumed[j]|) && PositionInv(c, s, i)
    ensures PositionInv(c, Apply(c, s, Consume(j)), i)
  {
    var k := |s.consumed[j]|;
    assert i != k ==> c.plan[i].batchId != c.plan[k].batchId;
    PastAdvance(s.consumed, j, s.staged.payloads[c.plan[k].batchId], i);
  }

  lemma ConsumeOwner(c: Config, s: State, j: nat, p: nat)
    requires Shaped(c, s) && Enabled(c, s, Consume(j)) && p < c.jobs && OwnerInv(c, s, p)
    ensures OwnerInv(c, Apply(c, s, Consume(j)), p)
  {
    assert Apply(c, s, Consume(j)).staged.payloads.Keys <= s.staged.payloads.Keys;
  }

  lemma ConsumeJob(c: Config, s: State, j: nat, p: nat)
    requires Shaped(c, s) && Enabled(c, s, Consume(j)) && p < c.jobs && JobInv(c, s, p)
    requires s.staged.payloads[c.plan[|s.consumed[j]|].batchId] == Prepared(c.plan[|s.consumed[j]|])
    ensures JobInv(c, Apply(c, s, Consume(j)), p)
  {
    if p == j {
      var k := |s.consumed[j]|;
      assert PreparedPlan(c.plan[..k + 1]) == PreparedPlan(c.plan[..k]) + [Prepared(c.plan[k])];
    }
  }

  lemma ConsumePreserves(c: Config, s: State, j: nat)
    requires Inv(c, s) && Enabled(c, s, Consume(j))
    ensures Inv(c, Apply(c, s, Consume(j)))
  {
    var s' := Apply(c, s, Consume(j));
    forall i | 0 <= i < |c.plan|
      ensures PositionInv(c, s', i)
    {
      assert PositionInv(c, s, |s.consumed[j]|) && PositionInv(c, s, i);
      ConsumePosition(c, s, j, i);
    }
    forall p | 0 <= p < c.jobs
      ensures OwnerInv(c, s', p) && JobInv(c, s', p)
    {
      assert PositionInv(c, s, |s.consumed[j]|) && OwnerInv(c, s, p) && JobInv(c, s, p);
      ConsumeOwner(c, s, j, p);
      ConsumeJob(c, s, j, p);
    }
  }

  lemma StepPreserves(c: Config, s: State, a: Action)
    requires Inv(c, s) && Enabled(c, s, a)
    ensures Inv(c, Apply(c, s, a))
  {
    match a
    case Publish(o) => PublishPreserves(c, s, o);
    case Pop(o) => PopPreserves(c, s, o);
    case Consume(j) => ConsumePreserves(c, s, j);
  }

  lemma {:induction false} RunPreserves(c: Config, s: State, run: seq<Action>)
    requires Inv(c, s) && ValidRun(c, s, run)
    ensures Inv(c, After(c, s, run))
    decreases |run|
  {
    if run != [] {
      StepPreserves(c, s, run[0]);
      RunPreserves(c, Apply(c, s, run[0]), run[1..]);
    }
  }

  // What every reachable state looks like.

  ghost predicate Reachable(c: Config, s: State) {
    c.Ok() && exists run :: ValidRun(c, Init(c), run) && After(c, Init(c), run) == s
  }

  lemma ReachableInv(c: Config, s: State)
    requires Reachable(c, s)
    ensures Inv(c, s)
  {
    var run :| ValidRun(c, Init(c), run) && After(c, Init(c), run) == s;
    InitInv(c);
    RunPreserves(c, Init(c), run);
  }

  /**
   * A batch is staged exactly while it is published and some job has yet to consume it; its
   * counter is then the number of jobs past it, below the number of jobs; no publish is refused.
   */
  lemma StagedExactlyWhileNeeded(c: Config, s: State, k: nat)
    requires Reachable(c, s) && k < |c.plan|
    ensures Shaped(c, s) && !s.raised && c.plan[k].owner < c.jobs
    ensures c.plan[k].batchId in s.staged.payloads <==>
              IsPublished(c, s, k) && exists j :: 0 <= j < c.jobs && |s.consumed[j]| <= k
    ensures c.plan[k].batchId in s.staged.payloads ==>
              && s.staged.payloads[c.plan[k].batchId] == Prepared(c.plan[k])
              && UsedCount(s.staged, c.plan[k].batchId) == Past(s.consumed, k) < c.jobs
    ensures (exists j :: 0 <= j < c.jobs && |s.consumed[j]| > k) ==> IsPublished(c, s, k)
  {
    ReachableInv(c, s);
    assert PositionInv(c, s, k);
  }

  /** Every job has consumed a prefix of the plan, in plan order and with the prepared contents. */
  lemma JobsConsumeThePlanInOrder(c: Config, s: State, j: nat)
    requires Reachable(c, s) && j < c.jobs
    ensures Shaped(c, s) && |s.consumed[j]| <= |c.plan|
    ensures s.consumed[j] == PreparedPlan(c.plan)[..|s.consumed[j]|]
    ensures forall k :: 0 <= k < |s.consumed[j]| ==> s.consumed[j][k] == Payload(c.plan[k].samples, c.plan[k].owner)
  {
    ReachableInv(c, s);
    assert JobInv(c, s, j);
    assert forall k :: 0 <= k < |s.consumed[j]| ==> PreparedPlan(c.plan)[k] == Prepared(c.plan[k]);
  }

  function StagedBy(c: Config, s: State, o: nat): set<string> {
    set k | 0 <= k < |c.plan| && c.plan[k].owner == o && c.plan[k].batchId in s.staged.payloads :: c.plan[k].batchId
  }

  lemma StagedIsPending(c: Config, s: State, k: nat)
    requires Shaped(c, s) && k < |c.plan| && c.plan[k].owner < c.jobs
    requires OwnerInv(c, s, c.plan[k].owner) && PositionInv(c, s, k) && c.plan[k].batchId in s.staged.payloads
    ensures c.plan[k].batchId in s.pending[c.plan[k].owner]
  {
    var o := c.plan[k].owner;
    RankIsPlace(c.plan, k);
    var gone := s.published[o] - |s.pending[o]|;
    var at := Rank(c.plan, k) - gone;
    assert at >= 0;
    assert s.pending[o][at] == c.plan[Owned(c.plan, o)[gone + at]].batchId;
  }

  lemma OwnerWindow(c: Config, s: State, o: nat)
    requires Inv(c, s) && o < c.jobs
    ensures |StagedBy(c, s, o)| <= c.window
  {
    assert OwnerInv(c, s, o);
    forall id | id in StagedBy(c, s, o)
      ensures id in s.pending[o]
    {
      var k :| 0 <= k < |c.plan| && c.plan[k].owner == o && c.plan[k].batchId == id;
      assert PositionInv(c, s, k);
      StagedIsPending(c, s, k);
    }
    ElementsBound(s.pending[o], StagedBy(c, s, o));
  }

  /** No owner ever has more than its window staged, and no more than jobs times the window are staged in all. */
  lemma StagingIsBounded(c: Config, s: State, o: nat)
    requires Reachable(c, s) && o < c.jobs
    ensures |StagedBy(c, s, o)| <= c.window
    ensures |s.staged.payloads.Keys| <= c.jobs * c.window
  {
    ReachableInv(c, s);
    OwnerWindow(c, s, o);
    var parts := seq(c.jobs, p requires 0 <= p < c.jobs => StagedBy(c, s, p));
    forall p | 0 <= p < c.jobs
      ensures |parts[p]| <= c.window
    {
      OwnerWindow(c, s, p);
    }
    forall id | id in s.staged.payloads.Keys
      ensures id in Union(parts)
    {
      var k :| 0 <= k < |c.plan| && c.plan[k].batchId == id;
      InUnion(parts, c.plan[k].owner);
    }
    SubsetBound(s.staged.payloads.Keys, Union(parts));
    UnionBound(parts, c.window);
  }

  // Progress and termination.

  /** Steps an owner still has to take: a publish and a pop per unpublished entry, a pop per pending one. */
  function OwnerWork(c: Config, s: State, o: nat): nat
    requires Shaped(c, s) && o < c.jobs
  {
    2 * Max(0, |Owned(c.plan, o)| - s.published[o]) + |s.pending[o]|
  }

  function JobWork(c: Config, s: State, j: nat): nat
    requires Shaped(c, s) && j < c.jobs
  {
    Max(0, |c.plan| - |s.consumed[j]|)
  }

  function OwnerWorks(c: Config, s: State): seq<nat>
    requires Shaped(c, s)
  {
    seq(c.jobs, o requires 0 <= o < c.jobs => OwnerWork(c, s, o))
  }

  function JobWorks(c: Config, s: State): seq<nat>
    requires Shaped(c, s)
  {
    seq(c.jobs, j requires 0 <= j < c.jobs => JobWork(c, s, j))
  }

  function Work(c: Config, s: State): nat
    requires Shaped(c, s)
  {
    Sum(OwnerWorks(c, s)) + Sum(JobWorks(c, s))
  }

  lemma OwnerWorkChange(c: Config, s: State, s': State, o: nat)
    requires Shaped(c, s) && Shaped(c, s') && o < c.jobs && s'.consumed == s.consumed
    requires forall p :: 0 <= p < c.jobs && p != o ==> s'.published[p] == s.published[p] && s'.pending[p] == s.pending[p]
    ensures Work(c, s') + OwnerWork(c, s, o) == Work(c, s) + OwnerWork(c, s', o)
  {
    assert OwnerWorks(c, s') == OwnerWorks(c, s)[o := OwnerWork(c, s', o)];
    SumUpdate(OwnerWorks(c, s), o, OwnerWork(c, s', o));
    assert JobWorks(c, s') == JobWorks(c, s);
  }

  lemma JobWorkChange(c: Config, s: State, s': State, j: nat)
    requires Shaped(c, s) && Shaped(c, s') && j < c.jobs && s'.published == s.published && s'.pending == s.pending
    requires forall p :: 0 <= p < c.jobs && p != j ==> s'.consumed[p] == s.consumed[p]
    ensures Work(c, s') + JobWork(c, s, j) == Work(c, s) + JobWork(c, s', j)
  {
    assert JobWorks(c, s') == JobWorks(c, s)[j := JobWork(c, s', j)];
    SumUpdate(JobWorks(c, s), j, JobWork(c, s', j));
    assert OwnerWorks(c, s') == OwnerWorks(c, s);
  }

  /** Every step does exactly one unit of the remaining work. */
  lemma StepWork(c: Config, s: State, a: Action)
    requires Inv(c, s) && Enabled(c, s, a)
    ensures Work(c, Apply(c, s, a)) + 1 == Work(c, s)
  {
    match a
    case Publish(o) =>
      var k := NextIsUnstaged(c, s, o);
      OwnerWorkChange(c, s, Apply(c, s, a), o);
    case Pop(o) =>
      OwnerWorkChange(c, s, Apply(c, s, a), o);
    case Consume(j) =>
      JobWorkChange(c, s, Apply(c, s, a), j);
  }

  function OwnedTwice(plan: seq<Entry>, jobs: nat): seq<nat> {
    seq(jobs, o requires 0 <= o < jobs => 2 * |Owned(plan, o)|)
  }

  lemma {:induction false} OwnedTotal(plan: seq<Entry>, jobs: nat)
    requires forall k :: 0 <= k < |plan| ==> plan[k].owner < jobs
    ensures Sum(OwnedTwice(plan, jobs)) == 2 * |plan|
  {
    var sizes := OwnedTwice(plan, jobs);
    if plan == [] {
      SumAllEqual(sizes, 0);
    } else {
      var n := |plan| - 1;
      OwnedTotal(plan[..n], jobs);
      var before := OwnedTwice(plan[..n], jobs);
      assert sizes == before[plan[n].owner := before[plan[n].owner] + 2];
      SumUpdate(before, plan[n].owner, before[plan[n].owner] + 2);
    }
  }

  lemma InitialWork(c: Config)
    requires c.Ok()
    ensures Work(c, Init(c)) == (c.jobs + 2) * |c.plan|
  {
    hide Owned, Sum, OwnedTwice;
    OwnedTotal(c.plan, c.jobs);
    InitialOwnerWorks(c);
    SumAllEqual(JobWorks(c, Init(c)), |c.plan|);
    TwoMore(c.jobs, |c.plan|);
  }

  lemma InitialOwnerWorks(c: Config)
    requires c.Ok()
    ensures OwnerWorks(c, Init(c)) == OwnedTwice(c.plan, c.jobs)
  {
    hide Owned, Sum;
  }

  lemma TwoMore(n: nat, w: nat)
    ensures (n + 2) * w == w * n + 2 * w
  {
  }

  lemma {:induction false} RunWork(c: Config, s: State, run: seq<Action>)
    requires Inv(c, s) && ValidRun(c, s, run)
    ensures |run| + Work(c, After(c, s, run)) == Work(c, s)
    decreases |run|
  {
    if run != [] {
      StepWork(c, s, run[0]);
      StepPreserves(c, s, run[0]);
      RunWork(c, Apply(c, s, run[0]), run[1..]);
    }
  }

  /** The job that is furthest behind. */
  lemma {:induction false} Slowest(consumed: seq<seq<Payload>>) returns (j: nat)
    requires consumed != []
    ensures j < |consumed| && forall i :: 0 <= i < |consumed| ==> |consumed[j]| <= |consumed[i]|
  {
    j := 0;
    if |consumed| > 1 {
      var n := |consumed| - 1;
      j := Slowest(consumed[..n]);
      assert forall i :: 0 <= i < n ==> consumed[..n][i] == consumed[i];
      if |consumed[n]| < |consumed[j]| {
        j := n;
      }
    }
  }

  /** Everything behind the slowest job has left the staging area, so a full deque can be popped. */
  lemma HeadIsPoppable(c: Config, s: State, o: nat, least: nat)
    requires Inv(c, s) && o < c.jobs && s.pending[o] != [] && OwnerInv(c, s, o)
    requires forall j :: 0 <= j < c.jobs ==> least <= |s.consumed[j]|
    requires Owned(c.plan, o)[s.published[o] - |s.pending[o]|] < least
    ensures s.pending[o][0] !in s.staged.payloads
  {
    assert OwnerInv(c, s, o);
    var k := Owned(c.plan, o)[s.published[o] - |s.pending[o]|];
    assert s.pending[o][0] == c.plan[Owned(c.plan, o)[s.published[o] - |s.pending[o]| + 0]].batchId;
    assert PositionInv(c, s, k);
  }

  /** No reachable state short of the final one is stuck. */
  lemma NeverStuck(c: Config, s: State) returns (a: Action)
    requires Inv(c, s) && !Final(c, s)
    ensures Enabled(c, s, a)
  {
    var j := Slowest(s.consumed);
    var k := |s.consumed[j]|;
    assert JobInv(c, s, j);
    if k < |c.plan| {
      var o := c.plan[k].owner;
      assert PositionInv(c, s, k) && OwnerInv(c, s, o);
      RankIsPlace(c.plan, k);
      OwnedRange(c.plan, o);
      if c.plan[k].batchId in s.staged.payloads {
        a := Consume(j);
      } else if |s.pending[o]| < c.window {
        a := Publish(o);
      } else {
        assert Owned(c.plan, o)[s.published[o] - |s.pending[o]|] < k;
        HeadIsPoppable(c, s, o, k);
        a := Pop(o);
      }
    } else {
      a := DrainStep(c, s);
    }
  }

  lemma AllConsumedEmptiesStaging(c: Config, s: State)
    requires Inv(c, s) && forall j :: 0 <= j < c.jobs ==> |s.consumed[j]| >= |c.plan|
    ensures s.staged == Staged(map[], map[])
    ensures forall o :: 0 <= o < c.jobs ==> s.published[o] == |Owned(c.plan, o)| && s.consumed[o] == PreparedPlan(c.plan)
  {
    forall k | 0 <= k < |c.plan|
      ensures c.plan[k].batchId !in s.staged.payloads
    {
      assert PositionInv(c, s, k);
    }
    assert s.staged.payloads.Keys == {};
    forall o | 0 <= o < c.jobs
      ensures s.published[o] == |Owned(c.plan, o)| && s.consumed[o] == PreparedPlan(c.plan)
    {
      assert OwnerInv(c, s, o) && JobInv(c, s, o);
      assert c.plan[..|c.plan|] == c.plan;
      if s.published[o] < |Owned(c.plan, o)| {
        var _ := NextIsUnstaged(c, s, o);
      }
    }
  }

  lemma DrainStep(c: Config, s: State) returns (a: Action)
    requires Inv(c, s) && !Final(c, s) && forall j :: 0 <= j < c.jobs ==> |s.consumed[j]| >= |c.plan|
    ensures Enabled(c, s, a)
  {
    AllConsumedEmptiesStaging(c, s);
    var o :| 0 <= o < c.jobs && s.pending[o] != [];
    a := Pop(o);
  }

  lemma FinalHasNoWork(c: Config, s: State)
    requires c.Ok() && Shaped(c, s) && Final(c, s)
    ensures Work(c, s) == 0
  {

    SumAllEqual(OwnerWorks(c, s), 0);
    SumAllEqual(JobWorks(c, s), 0);
  }

  /**
   * Main theorem. A run has at most (jobs + 2) * |plan| steps; a run that cannot be extended has
   * exactly that many and ends with every job having consumed the whole plan in order, every
   * deque drained and the staging area empty.
   */
  lemma EveryMaximalRunFinishes(c: Config, run: seq<Action>)
    requires c.Ok() && ValidRun(c, Init(c), run)
    ensures |run| <= (c.jobs + 2) * |c.plan|
    ensures (forall a :: !Enabled(c, After(c, Init(c), run), a)) <==> Final(c, After(c, Init(c), run))
    ensures Final(c, After(c, Init(c), run)) <==> |run| == (c.jobs + 2) * |c.plan|
  {
    var s := After(c, Init(c), run);
    InitInv(c);
    RunPreserves(c, Init(c), run);
    RunWork(c, Init(c), run);
    InitialWork(c);
    if Final(c, s) {
      FinalHasNoWork(c, s);
      forall a
        ensures !Enabled(c, s, a)
      {
        if Enabled(c, s, a) {
          StepWork(c, s, a);
        }
      }
    } else {
      var a := NeverStuck(c, s);
      StepWork(c, s, a);
    }
  }

  /** The plan that the builder returns is one this protocol finishes. */
  lemma BuiltPlanIsAccepted(p: PlanConfig, plan: seq<Entry>, window: nat)
    requires p.Acceptable() && p.PerEpoch() > 0 && InClosedForm(p, plan) && window > 0
    ensures Config(plan, p.numJobs, window).Ok()
  {
    ClosedFormIsValid(p, plan);
  }
}

/** The shared CoorDL minibatch plan: experiments/baselines/coordl/plan.py. */
module CoorDLPlan {
  import opened Text
  import opened Sequences

  datatype Entry = Entry(batchId: string, epoch: nat, batchIndex: nat, owner: nat, samples: seq<nat>)

  datatype PlanError = BadSampleCount | BadBatchSize | BadTotal | BadJobCount | NoCompleteBatch
  datatype PlanResult = Plan(entries: seq<Entry>) | Rejected(error: PlanError)

  /** randperm(seed, n) is the permutation of 0..n-1 that a generator with that seed draws. */
  datatype PlanConfig = PlanConfig(numSamples: int, batchSize: int, totalBatches: int, numJobs: int,
                                   dropLast: bool, shuffle: bool, seed: int, randperm: (int, nat) -> seq<nat>)
  {
    ghost predicate DrawsPermutations() {
      forall s: int, n: nat :: IsPermutation(randperm(s, n), n)
    }

    predicate Acceptable() {
      numSamples > 0 && batchSize > 0 && totalBatches > 0 && numJobs > 0
    }

    function PerEpoch(): nat
      requires Acceptable()
    {
      SliceCount(numSamples, batchSize, dropLast)
    }

    /** The sample order of an epoch. */
    function Order(epoch: nat): seq<nat>
      requires Acceptable()
    {
      if shuffle then randperm(seed + epoch, numSamples) else Range(numSamples)
    }
  }

  function Range(n: nat): seq<nat> {
    seq(n, i requires 0 <= i < n => i)
  }

  /** Each of 0, ..., n - 1 exactly once. */
  ghost predicate IsPermutation(xs: seq<nat>, n: nat) {
    |xs| == n && forall x: nat :: multiset(xs)[x] == if x < n then 1 else 0
  }

  lemma {:induction false} RangeIsPermutation(n: nat)
    ensures IsPermutation(Range(n), n)
  {
    if n > 0 {
      RangeIsPermutation(n - 1);
      assert Range(n) == Range(n - 1) + [n - 1];
    } else {
      assert Range(0) == [];
    }
  }

  lemma OrderIsPermutation(c: PlanConfig, epoch: nat)
    requires c.Acceptable() && c.DrawsPermutations()
    ensures IsPermutation(c.Order(epoch), c.numSamples)
  {
    RangeIsPermutation(c.numSamples);
    hide Range;
  }

  function EntryId(epoch: nat, batchIndex: nat): string {
    "e" + Dec(epoch) + "_b" + Dec(batchIndex)
  }

  function MakeEntry(c: PlanConfig, epoch: nat, batchIndex: nat): Entry
    requires c.Acceptable()
  {
    Entry(EntryId(epoch, batchIndex), epoch, batchIndex, batchIndex % c.numJobs,
          Slice(c.Order(epoch), c.batchSize, batchIndex))
  }

  /** The k-th entry in closed form. */
  function EntryAt(c: PlanConfig, k: nat): Entry
    requires c.Acceptable() && c.PerEpoch() > 0
  {
    MakeEntry(c, k / c.PerEpoch(), k % c.PerEpoch())
  }

  predicate ValidPlan(plan: seq<Entry>, numJobs: nat) {
    && (forall k :: 0 <= k < |plan| ==> plan[k].owner < numJobs)
    && (forall i, k :: 0 <= i < k < |plan| ==> plan[i].batchId != plan[k].batchId)
  }

  lemma EntryIdInjective(e1: nat, i1: nat, e2: nat, i2: nat)
    requires EntryId(e1, i1) == EntryId(e2, i2)
    ensures e1 == e2 && i1 == i2
  {
    var b1, b2 := "b" + Dec(i1), "b" + Dec(i2);
    assert EntryId(e1, i1)[1..] == Dec(e1) + ['_'] + b1;
    assert EntryId(e2, i2)[1..] == Dec(e2) + ['_'] + b2;
    DigitsExclude(e1, '_');
    DigitsExclude(e2, '_');
    SplitAtFirst(Dec(e1), b1, Dec(e2), b2, '_');
    assert b1[1..] == Dec(i1) && b2[1..] == Dec(i2);
    DecInjective(e1, e2);
    DecInjective(i1, i2);
  }

  ghost predicate InClosedForm(c: PlanConfig, plan: seq<Entry>)
    requires c.Acceptable()
  {
    c.PerEpoch() > 0 ==> forall k :: 0 <= k < |plan| ==> plan[k] == EntryAt(c, k)
  }

  lemma ExtendClosedForm(c: PlanConfig, plan: seq<Entry>, epoch: nat, index: nat)
    requires c.Acceptable() && InClosedForm(c, plan)
    requires index < c.PerEpoch() && |plan| == epoch * c.PerEpoch() + index
    ensures InClosedForm(c, plan + [MakeEntry(c, epoch, index)])
  {
    DivModUnique(c.PerEpoch(), epoch, index);
  }

  /** One epoch of the plan: the inner loop over batch starts. */
  method AppendEpoch(c: PlanConfig, plan: seq<Entry>, epoch: nat) returns (longer: seq<Entry>, batchIndex: nat)
    requires c.Acceptable() && c.DrawsPermutations() && InClosedForm(c, plan)
    requires |plan| == epoch * c.PerEpoch() && |plan| < c.totalBatches
    ensures InClosedForm(c, longer)
    ensures batchIndex == Min(c.PerEpoch(), c.totalBatches - |plan|)
    ensures |longer| == |plan| + batchIndex
  {
    ghost var perEpoch := c.PerEpoch();
    var indices := if c.shuffle then c.randperm(c.seed + epoch, c.numSamples) else Range(c.numSamples);
    OrderIsPermutation(c, epoch);
    var start: nat, chunk: nat := 0, 0;
    longer, batchIndex := plan, 0;
    while start < c.numSamples
      invariant start == chunk * c.batchSize
      invariant batchIndex == Min(chunk, perEpoch)
      invariant |longer| == |plan| + batchIndex < c.totalBatches
      invariant InClosedForm(c, longer)
    {
      var group := indices[start..Min(c.numSamples, start + c.batchSize)];
      SliceKept(c.numSamples, c.batchSize, c.dropLast, chunk);
      assert (chunk + 1) * c.batchSize == start + c.batchSize;
      if !(|group| < c.batchSize && c.dropLast) {
        assert group == Slice(indices, c.batchSize, batchIndex);
        ExtendClosedForm(c, longer, epoch, batchIndex);
        longer := longer + [Entry(EntryId(epoch, batchIndex), epoch, batchIndex, batchIndex % c.numJobs, group)];
        batchIndex := batchIndex + 1;
        if |longer| >= c.totalBatches {
          return;
        }
      }
      start, chunk := start + c.batchSize, chunk + 1;
    }
    SliceKept(c.numSamples, c.batchSize, c.dropLast, chunk);
    assert (chunk + 1) * c.batchSize == start + c.batchSize;
  }

  /**
   * The nested loops build exactly totalBatches entries, the k-th one in closed form, and
   * refuse precisely the bad arguments and the data sets without a complete minibatch.
   */
  method BuildPlan(c: PlanConfig) returns (r: PlanResult)
    requires c.DrawsPermutations()
    ensures r.Rejected? <==> !c.Acceptable() || (c.dropLast && c.numSamples < c.batchSize)
    ensures c.Acceptable() && r.Rejected? ==> r.error == NoCompleteBatch
    ensures r.Plan? ==> c.PerEpoch() > 0 && |r.entries| == c.totalBatches && InClosedForm(c, r.entries)
  {
    if c.numSamples <= 0 { return Rejected(BadSampleCount); }
    if c.batchSize <= 0 { return Rejected(BadBatchSize); }
    if c.totalBatches <= 0 { return Rejected(BadTotal); }
    if c.numJobs <= 0 { return Rejected(BadJobCount); }
    SliceKept(c.numSamples, c.batchSize, c.dropLast, 0);
    var plan: seq<Entry>, epoch: nat := [], 0;
    while |plan| < c.totalBatches
      invariant |plan| <= c.totalBatches
      invariant |plan| == epoch * c.PerEpoch() || |plan| == c.totalBatches
      invariant c.PerEpoch() == 0 ==> plan == []
      invariant InClosedForm(c, plan)
      decreases c.totalBatches - |plan|
    {
      var batchIndex;
      plan, batchIndex := AppendEpoch(c, plan, epoch);
      if batchIndex == 0 {
        return Rejected(NoCompleteBatch);
      }
      assert (epoch + 1) * c.PerEpoch() == epoch * c.PerEpoch() + c.PerEpoch();
      epoch := epoch + 1;
    }
    return Plan(plan);
  }

  /** Every plan in closed form names pairwise distinct batches and existing owners. */
  lemma ClosedFormIsValid(c: PlanConfig, plan: seq<Entry>)
    requires c.Acceptable() && c.PerEpoch() > 0
    requires InClosedForm(c, plan)
    ensures ValidPlan(plan, c.numJobs)
  {
    hide EntryAt, EntryId;
    forall k: nat | k < |plan|
      ensures plan[k].owner < c.numJobs
    {
      assert plan[k] == EntryAt(c, k);
      EntryNamed(c, k);
    }
    forall i: nat, k: nat | i < k < |plan|
      ensures plan[i].batchId != plan[k].batchId
    {
      assert plan[i] == EntryAt(c, i) && plan[k] == EntryAt(c, k);
      EntriesDiffer(c, i, k);
    }
  }

  lemma EntryNamed(c: PlanConfig, k: nat)
    requires c.Acceptable() && c.PerEpoch() > 0
    ensures EntryAt(c, k).batchId == EntryId(k / c.PerEpoch(), k % c.PerEpoch()) && EntryAt(c, k).owner < c.numJobs
  {
  }

  lemma PlacesDiffer(b: nat, i: nat, k: nat)
    requires b > 0 && i != k
    ensures i / b != k / b || i % b != k % b
  {
    assert i == b * (i / b) + i % b && k == b * (k / b) + k % b;
  }

  lemma EntriesDiffer(c: PlanConfig, i: nat, k: nat)
    requires c.Acceptable() && c.PerEpoch() > 0 && i != k
    ensures EntryAt(c, i).batchId != EntryAt(c, k).batchId
  {
    hide EntryAt, EntryId;
    var b := c.PerEpoch();
    EntryNamed(c, i);
    EntryNamed(c, k);
    PlacesDiffer(b, i, k);
    if EntryAt(c, i).batchId == EntryAt(c, k).batchId {
      EntryIdInjective(i / b, i % b, k / b, k % b);
    }
  }

  function SamplesOf(entries: seq<Entry>): seq<seq<nat>> {
    seq(|entries|, i requires 0 <= i < |entries| => entries[i].samples)
  }

  lemma EntryOfEpoch(c: PlanConfig, plan: seq<Entry>, epoch: nat, first: nat, i: nat)
    requires c.Acceptable() && c.PerEpoch() > 0 && InClosedForm(c, plan)
    requires first == epoch * c.PerEpoch() && first + i < |plan| && i < c.PerEpoch()
    ensures plan[first + i].samples == Slice(c.Order(epoch), c.batchSize, i)
  {
    DivModUnique(c.PerEpoch(), epoch, i);
  }

  /**
   * Every entry of the plan in plain terms: batch i of epoch e is prepared by owner i mod N and holds
   * the samples from i * b up to (i + 1) * b of the order drawn with seed + e.
   */
  lemma EntrySpelledOut(c: PlanConfig, plan: seq<Entry>, perEpoch: nat, k: nat, e: nat, i: nat)
    requires c.Acceptable() && c.DrawsPermutations() && InClosedForm(c, plan)
    requires perEpoch == if c.dropLast then c.numSamples / c.batchSize else (c.numSamples + c.batchSize - 1) / c.batchSize
    requires i < perEpoch && k == e * perEpoch + i < |plan|
    ensures var n, start := c.numSamples, i * c.batchSize;
            var order := if c.shuffle then c.randperm(c.seed + e, n) else Range(n);
            && plan[k].epoch == e && plan[k].batchIndex == i && plan[k].owner == i % c.numJobs
            && plan[k].batchId == "e" + Dec(e) + "_b" + Dec(i)
            && 0 <= start < n == |order| && plan[k].samples == order[start..Min(n, start + c.batchSize)]
  {
    hide Range, SliceCount, Dec;
    PerEpochSpelledOut(c);
    DivModUnique(perEpoch, e, i);
    assert plan[k] == EntryAt(c, k);
    OrderIsPermutation(c, e);
    SliceKept(c.numSamples, c.batchSize, c.dropLast, i);
    NextStart(i, c.batchSize);
  }

  lemma NextStart(i: nat, b: nat)
    ensures 0 <= i * b <= (i + 1) * b == i * b + b
  {
  }

  lemma PerEpochSpelledOut(c: PlanConfig)
    requires c.Acceptable()
    ensures c.PerEpoch() == if c.dropLast then c.numSamples / c.batchSize else (c.numSamples + c.batchSize - 1) / c.batchSize
  {
  }

  /**
   * The entries of one whole epoch, put together, are the order drawn with seed + epoch, cut to the
   * kept samples: everything, or every whole batch when incomplete ones are dropped. So no sample is
   * prepared twice in an epoch, and without dropping every sample is prepared once.
   */
  lemma EpochPartitionsKeptSamples(c: PlanConfig, plan: seq<Entry>, epoch: nat, first: nat)
    requires c.Acceptable() && c.PerEpoch() > 0 && c.DrawsPermutations() && InClosedForm(c, plan)
    requires first == epoch * c.PerEpoch() && first + c.PerEpoch() <= |plan|
    ensures c.Order(epoch) == if c.shuffle then c.randperm(c.seed + epoch, c.numSamples) else Range(c.numSamples)
    ensures |c.Order(epoch)| == c.numSamples
    ensures Flatten(SamplesOf(plan[first..first + c.PerEpoch()]))
         == c.Order(epoch)[..if c.dropLast then c.numSamples - c.numSamples % c.batchSize else c.numSamples]
    ensures NoRepeats(Flatten(SamplesOf(plan[first..first + c.PerEpoch()])))
    ensures !c.dropLast ==> IsPermutation(Flatten(SamplesOf(plan[first..first + c.PerEpoch()])), c.numSamples)
  {
    hide Range, SliceCount, Flatten;
    var b := c.PerEpoch();
    var order := c.Order(epoch);
    OrderIsPermutation(c, epoch);
    forall i: nat | i < b
      ensures plan[first..first + b][i].samples == Slice(order, c.batchSize, i)
    {
      EntryOfEpoch(c, plan, epoch, first, i);
    }
    assert SamplesOf(plan[first..first + b]) == Slices(order, c.batchSize, b);
    FlattenSlices(order, c.batchSize, b);
    SlicesKeep(c.numSamples, c.batchSize, c.dropLast);
    var kept := if c.dropLast then c.numSamples - c.numSamples % c.batchSize else c.numSamples;
    var all := Flatten(SamplesOf(plan[first..first + b]));
    assert all == order[..kept];
    assert order[..c.numSamples] == order;
    PrefixRepeatsNothing(order, c.numSamples, kept);
  }

  ghost predicate NoRepeats(xs: seq<nat>) {
    forall x: nat :: multiset(xs)[x] <= 1
  }

  lemma PrefixRepeatsNothing(xs: seq<nat>, n: nat, k: nat)
    requires IsPermutation(xs, n) && k <= n
    ensures NoRepeats(xs[..k])
  {
    assert xs == xs[..k] + xs[k..];
    forall x: nat
      ensures multiset(xs[..k])[x] <= 1
    {
      assert multiset(xs)[x] == multiset(xs[..k])[x] + multiset(xs[k..])[x];
    }
  }
}

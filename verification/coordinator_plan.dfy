/**
 * How an epoch's shuffled samples become batches, and which of them a job has in view:
 * batchflow/coordinator/batch_coordinator.py and Dataset in batchflow/common/core.py.
 */
module CoordinatorPlan {
  import opened Text
  import opened Sequences

  type Sample = string

  datatype Dataset = Dataset(id: string, samples: seq<Sample>, batchSize: int, dropLast: bool, shuffle: bool, seed: int)

  datatype Batch = Batch(id: string, datasetId: string, epoch: nat, index: nat, samples: seq<Sample>)

  /** The generator's shuffle: what it does to a list is determined by its seed. */
  type Shuffle = (int, seq<Sample>) -> seq<Sample>

  ghost predicate Permutes(shuffle: Shuffle) {
    forall seed: int, xs: seq<Sample> :: multiset(shuffle(seed, xs)) == multiset(xs)
  }

  function EpochOrder(shuffle: Shuffle, d: Dataset, epoch: nat): seq<Sample> {
    if d.shuffle then shuffle(d.seed + epoch, d.samples) else d.samples
  }

  /** The sample groups of one epoch. */
  function EpochGroups(shuffle: Shuffle, d: Dataset, epoch: nat): seq<seq<Sample>>
    requires d.batchSize > 0
  {
    var order := EpochOrder(shuffle, d, epoch);
    Slices(order, d.batchSize, SliceCount(|order|, d.batchSize, d.dropLast))
  }

  /** Dataset.batches_per_epoch. */
  function BatchesPerEpoch(d: Dataset): nat
    requires d.batchSize > 0
  {
    if d.dropLast then |d.samples| / d.batchSize else (|d.samples| + d.batchSize - 1) / d.batchSize
  }

  /** _split_samples_into_batches; None stands for the error about the batch size. */
  method SplitSamples(samples: seq<Sample>, batchSize: int, dropLast: bool) returns (r: Option<seq<seq<Sample>>>)
    ensures r.None? <==> batchSize <= 0
    ensures r.Some? ==> r.value == Slices(samples, batchSize, SliceCount(|samples|, batchSize, dropLast))
  {
    if batchSize <= 0 {
      return None;
    }
    var groups: seq<seq<Sample>>, index: nat := [], 0;
    while index < |samples|
      invariant index == |groups| * batchSize && |groups| <= SliceCount(|samples|, batchSize, dropLast)
      invariant groups == Slices(samples, batchSize, |groups|)
    {
      var group := samples[index..Min(|samples|, index + batchSize)];
      SliceKept(|samples|, batchSize, dropLast, |groups|);
      assert (|groups| + 1) * batchSize == index + batchSize;
      if |group| < batchSize && dropLast {
        break;
      }
      if group != [] {
        assert group == Slice(samples, batchSize, |groups|);
        groups := groups + [group];
      }
      index := index + batchSize;
    }
    SliceKept(|samples|, batchSize, dropLast, |groups|);
    assert (|groups| + 1) * batchSize == |groups| * batchSize + batchSize;
    return Some(groups);
  }

  lemma PermutationKeepsLength(shuffle: Shuffle, d: Dataset, epoch: nat)
    requires Permutes(shuffle)
    ensures |EpochOrder(shuffle, d, epoch)| == |d.samples|
  {
    assert |multiset(EpochOrder(shuffle, d, epoch))| == |multiset(d.samples)|;
  }

  /** An epoch is cut into exactly batches_per_epoch batches. */
  lemma GroupsPerEpoch(shuffle: Shuffle, d: Dataset, epoch: nat)
    requires Permutes(shuffle) && d.batchSize > 0
    ensures |EpochGroups(shuffle, d, epoch)| == BatchesPerEpoch(d)
  {
    PermutationKeepsLength(shuffle, d, epoch);
  }

  /** The samples of an epoch that some batch carries. */
  function KeptSamples(shuffle: Shuffle, d: Dataset, epoch: nat): seq<Sample>
    requires d.batchSize > 0
  {
    var order := EpochOrder(shuffle, d, epoch);
    if d.dropLast then order[..|order| - |order| % d.batchSize] else order
  }

  /** The groups of an epoch concatenate to its shuffled samples, cut to whole batches under drop_last. */
  lemma GroupsPartitionTheEpoch(shuffle: Shuffle, d: Dataset, epoch: nat)
    requires Permutes(shuffle) && d.batchSize > 0
    ensures Flatten(EpochGroups(shuffle, d, epoch)) == KeptSamples(shuffle, d, epoch)
  {
    var order := EpochOrder(shuffle, d, epoch);
    FlattenSlices(order, d.batchSize, SliceCount(|order|, d.batchSize, d.dropLast));
    SlicesKeep(|order|, d.batchSize, d.dropLast);
  }

  lemma EpochSpelledOut(shuffle: Shuffle, d: Dataset, epoch: nat)
    requires d.batchSize > 0
    ensures var order := if d.shuffle then shuffle(d.seed + epoch, d.samples) else d.samples;
            Flatten(EpochGroups(shuffle, d, epoch)) == if d.dropLast then order[..|order| - |order| % d.batchSize] else order
  {
    hide Flatten;
    var order := EpochOrder(shuffle, d, epoch);
    FlattenSlices(order, d.batchSize, SliceCount(|order|, d.batchSize, d.dropLast));
    SlicesKeep(|order|, d.batchSize, d.dropLast);
    assert order[..|order|] == order;
  }

  /** The epochs' orders in plain terms: shuffled with seed plus epoch, and cut to whole batches under drop_last. */
  lemma KeptSpelledOut(shuffle: Shuffle, d: Dataset, epoch: nat)
    requires Permutes(shuffle) && d.batchSize > 0
    ensures var order := if d.shuffle then shuffle(d.seed + epoch, d.samples) else d.samples;
            && |order| == |d.samples|
            && KeptSamples(shuffle, d, epoch) == order[..if d.dropLast then |d.samples| - |d.samples| % d.batchSize else |d.samples|]
  {
    PermutationKeepsLength(shuffle, d, epoch);
  }

  lemma NextStart(i: nat, w: nat)
    ensures 0 <= i * w <= (i + 1) * w == i * w + w
  {
  }

  /** Group i of an epoch in plain terms. */
  lemma GroupSpelledOut(shuffle: Shuffle, d: Dataset, epoch: nat, i: nat)
    requires Permutes(shuffle) && d.batchSize > 0
    requires i < if d.dropLast then |d.samples| / d.batchSize else (|d.samples| + d.batchSize - 1) / d.batchSize
    ensures var order := if d.shuffle then shuffle(d.seed + epoch, d.samples) else d.samples;
            && i < |EpochGroups(shuffle, d, epoch)| && |order| == |d.samples| && 0 <= i * d.batchSize < |order|
            && EpochGroups(shuffle, d, epoch)[i] == order[i * d.batchSize..Min(|order|, i * d.batchSize + d.batchSize)]
  {
    PermutationKeepsLength(shuffle, d, epoch);
    SliceKept(|d.samples|, d.batchSize, d.dropLast, i);
    NextStart(i, d.batchSize);
  }

  // Identifiers.

  function PlanId(datasetId: string, epoch: nat): string {
    datasetId + ":epoch-" + Dec(epoch)
  }

  /** owner is the job id when payloads are not shared between jobs, and empty otherwise. */
  function BatchId(datasetId: string, epoch: nat, index: nat, owner: string): string {
    var base := PlanId(datasetId, epoch) + ":batch-" + Dec(index);
    if owner == "" then base else base + ":job-" + owner
  }

  lemma NumberedSuffix(a: string, b: string, sep: string, m: nat, n: nat)
    requires |sep| > 0 && sep[|sep| - 1] == '-' && a + sep + Dec(m) == b + sep + Dec(n)
    ensures a == b && m == n
  {
    var cut := |sep| - 1;
    DigitsExclude(m, '-');
    DigitsExclude(n, '-');
    assert sep == sep[..cut] + ['-'];
    assert a + sep + Dec(m) == (a + sep[..cut]) + ['-'] + Dec(m);
    assert b + sep + Dec(n) == (b + sep[..cut]) + ['-'] + Dec(n);
    SplitAtLast(a + sep[..cut], Dec(m), b + sep[..cut], Dec(n), '-');
    DecInjective(m, n);
    assert a == (a + sep[..cut])[..|a|] && b == (b + sep[..cut])[..|b|];
  }

  lemma PlanIdInjective(d1: string, e1: nat, d2: string, e2: nat)
    requires PlanId(d1, e1) == PlanId(d2, e2)
    ensures d1 == d2 && e1 == e2
  {
    NumberedSuffix(d1, d2, ":epoch-", e1, e2);
  }

  /** Whatever the data set names contain, batches of one owner have different ids. */
  lemma BatchIdInjective(d1: string, e1: nat, i1: nat, d2: string, e2: nat, i2: nat, owner: string)
    requires BatchId(d1, e1, i1, owner) == BatchId(d2, e2, i2, owner)
    ensures d1 == d2 && e1 == e2 && i1 == i2
  {
    var s, t := BatchId(d1, e1, i1, ""), BatchId(d2, e2, i2, "");
    if owner != "" {
      var tail := ":job-" + owner;
      assert BatchId(d1, e1, i1, owner) == s + tail && BatchId(d2, e2, i2, owner) == t + tail;
      assert s == (s + tail)[..|s + tail| - |tail|] && t == (t + tail)[..|t + tail| - |tail|];
    }
    NumberedSuffix(PlanId(d1, e1), PlanId(d2, e2), ":batch-", i1, i2);
    PlanIdInjective(d1, e1, d2, e2);
  }

  // The batches a job has in view.

  function MakeBatch(shuffle: Shuffle, d: Dataset, epoch: nat, index: nat, owner: string): Batch
    requires d.batchSize > 0 && index < |EpochGroups(shuffle, d, epoch)|
  {
    Batch(BatchId(d.id, epoch, index, owner), d.id, epoch, index, EpochGroups(shuffle, d, epoch)[index])
  }

  /** The batches of one epoch from start on, at most lookahead of them. */
  function Window(shuffle: Shuffle, d: Dataset, epoch: nat, start: nat, lookahead: nat, owner: string): (w: seq<Batch>)
    requires d.batchSize > 0
  {
    var stop := Min(|EpochGroups(shuffle, d, epoch)|, start + lookahead);
    seq(Max(0, stop - start), i requires 0 <= i < stop - start => MakeBatch(shuffle, d, epoch, start + i, owner))
  }

  /** A lookahead of 0 means the default, and at least one batch is always in view. */
  function Lookahead(requested: int, default: int): nat {
    Max(1, if requested != 0 then requested else default)
  }

  /** BatchCoordinator with its memo of epoch plans. */
  class BatchCoordinator {
    const shuffle: Shuffle
    const defaultLookahead: int
    var plans: map<string, seq<seq<Sample>>>

    /** Every remembered plan is the plan of a registered data set, the one of that name. */
    ghost predicate Valid(datasets: map<string, Dataset>)
      reads this
    {
      forall id, e: nat :: PlanId(id, e) in plans ==>
        id in datasets && datasets[id].batchSize > 0 && plans[PlanId(id, e)] == EpochGroups(shuffle, datasets[id], e)
    }

    constructor (shuffle: Shuffle, defaultLookahead: int)
      ensures this.shuffle == shuffle && this.defaultLookahead == defaultLookahead && plans == map[]
    {
      this.shuffle, this.defaultLookahead, plans := shuffle, defaultLookahead, map[];
    }

    method GetOrBuildEpochPlan(ghost datasets: map<string, Dataset>, d: Dataset, epoch: nat)
        returns (groups: seq<seq<Sample>>)
      requires Valid(datasets) && d.id in datasets && datasets[d.id] == d && d.batchSize > 0
      modifies this`plans
      ensures Valid(datasets) && groups == EpochGroups(shuffle, d, epoch)
      ensures var order := if d.shuffle then shuffle(d.seed + epoch, d.samples) else d.samples;
              Flatten(groups) == if d.dropLast then order[..|order| - |order| % d.batchSize] else order
    {
      EpochSpelledOut(shuffle, d, epoch);
      var planId := PlanId(d.id, epoch);
      if planId in plans {
        return plans[planId];
      }
      var samples := d.samples;
      if d.shuffle {
        samples := shuffle(d.seed + epoch, samples);
      }
      var split := SplitSamples(samples, d.batchSize, d.dropLast);
      groups := split.value;
      plans := plans[planId := groups];
      forall id, e: nat | PlanId(id, e) in plans
        ensures id in datasets && datasets[id].batchSize > 0 && plans[PlanId(id, e)] == EpochGroups(shuffle, datasets[id], e)
      {
        if PlanId(id, e) == planId {
          PlanIdInjective(id, e, d.id, epoch);
        }
      }
    }

    /** get_batches_for_job: the window does not depend on what happens to be remembered. */
    method GetBatchesForJob(ghost datasets: map<string, Dataset>, d: Dataset, epoch: nat, start: nat, requested: int,
                            jobId: string, reuse: bool)
        returns (batches: seq<Batch>)
      requires Valid(datasets) && d.id in datasets && datasets[d.id] == d && d.batchSize > 0
      modifies this`plans
      ensures Valid(datasets)
      ensures batches == Window(shuffle, d, epoch, start, Lookahead(requested, defaultLookahead), if reuse then "" else jobId)
    {
      hide Flatten, EpochGroups, BatchId, Valid;
      var lookahead := Max(1, if requested != 0 then requested else defaultLookahead);
      var groups := GetOrBuildEpochPlan(datasets, d, epoch);
      var stop := Min(|groups|, start + lookahead);
      var index := start;
      batches := [];
      while index < stop
        invariant start <= index <= Max(start, stop) && |batches| == index - start
        invariant forall i :: 0 <= i < |batches| ==>
          batches[i] == MakeBatch(shuffle, d, epoch, start + i, if reuse then "" else jobId)
      {
        batches := batches + [Batch(BatchId(d.id, epoch, index, if reuse then "" else jobId), d.id, epoch, index, groups[index])];
        index := index + 1;
      }
    }
  }
}

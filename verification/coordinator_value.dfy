/**
 * What the value of a payload and the lookahead depth mean: sooner and wider demand, longer preparation
 * and worse covered jobs make a payload worth more, and eviction respects that.
 */
module CoordinatorValue {
  import opened Text
  import opened Sequences
  import opened CoordinatorPlan
  import opened CoordinatorBoard
  import opened CoordinatorPins
  import opened CoordinatorState
  import opened CoordinatorCache
  import opened CoordinatorService
  import opened CoordinatorInvariants
  import opened CoordinatorAdmission

  // Depth.

  predicate TimesKnown(est: Estimates, job: Job) {
    job.compute > 0.0 && job.datasetId in est.prep && est.prep[job.datasetId] > 0.0
  }

  lemma CeilingIsLeast(a: real, b: real, n: nat)
    requires a > 0.0 && b > 0.0
    ensures CeilDiv(a, b) >= 1 && (n as real * b >= a <==> n >= CeilDiv(a, b))
  {
    var q := a / b;
    assert q * b == a;
    assert (n as real - q) * b == n as real * b - a;
    assert n as real * b >= a <==> n as real >= q;
    var low := (-q).Floor;
    assert low as real <= -q < low as real + 1.0;
  }

  /**
   * With both times known, the depth is the least one at which preparing a batch takes no longer than
   * computing depth batches, cut at a positive lookahead; otherwise it is the configured number of
   * ready batches, at least one, cut likewise.
   */
  lemma TargetDepthMeans(c: Config, est: Estimates, job: Job, n: nat)
    ensures var depth := TargetDepth(c, est, job);
            && depth >= 1 && (job.lookahead > 0 ==> depth <= job.lookahead)
            && (TimesKnown(est, job) ==>
                  && (1 <= n < depth ==> n as real * job.compute < est.prep[job.datasetId])
                  && (depth as real * job.compute >= est.prep[job.datasetId] || (job.lookahead > 0 && depth == job.lookahead)))
            && (!TimesKnown(est, job) ==>
                  depth == if 0 < job.lookahead < Max(1, c.targetReady) then job.lookahead else Max(1, c.targetReady))
  {
    if TimesKnown(est, job) {
      var prep := est.prep[job.datasetId];
      CeilingIsLeast(prep, job.compute, n);
      CeilingIsLeast(prep, job.compute, TargetDepth(c, est, job));
      hide CeilDiv;
    }
  }

  /** The number of the first n upcoming batches that are ready or in flight. */
  lemma {:induction false} CoverageCounts(b: Board, batches: seq<Batch>)
    ensures CoveredCount(b, batches) == |set i | 0 <= i < |batches| && ReadyOrInFlight(b, batches[i].id)|
  {
    hide ReadyOrInFlight;
    var covered := set i | 0 <= i < |batches| && ReadyOrInFlight(b, batches[i].id);
    if batches == [] {
      assert covered == {};
    } else {
      var n := |batches| - 1;
      CoverageCounts(b, batches[..n]);
      var before := set i | 0 <= i < n && ReadyOrInFlight(b, batches[..n][i].id);
      assert covered == before + if ReadyOrInFlight(b, batches[n].id) then {n} else {};
    }
  }

  /** The coverage of a job is the covered part of its next depth batches. */
  lemma CoverageMeans(c: Config, s: Sys, job: Job)
    ensures var depth := TargetDepth(c, s.est, job);
            && 0.0 <= Coverage(c, s, job) <= 1.0
            && Coverage(c, s, job) * depth as real == CoveredCount(s.board, First(depth, Upcoming(job))) as real
            && (Coverage(c, s, job) == 1.0 <==> CoveredCount(s.board, First(depth, Upcoming(job))) == depth)
  {
    hide TargetDepth, Upcoming, CoveredCount;
    var depth := TargetDepth(c, s.est, job);
    RatioMeans(CoveredCount(s.board, First(depth, Upcoming(job))), depth);
  }

  lemma RatioMeans(n: nat, depth: nat)
    requires depth > 0 && n <= depth
    ensures var ratio := n as real / depth as real;
            0.0 <= ratio <= 1.0 && ratio * depth as real == n as real && (ratio == 1.0 <==> n == depth)
  {
  }

  // Value.

  /** How soon job j wants payload k of a data set, if it does. */
  function Wish(c: Config, s: Sys, j: string, k: string, datasetId: string): Option<nat> {
    DemandPosition(c, s, j, k, datasetId)
  }

  /** The position of a payload among a job's upcoming batches is that of its first occurrence. */
  lemma {:induction false} PositionIsFirst(batches: seq<Batch>, k: string)
    ensures var p := Position(batches, k);
            p.Some? ==> p.value < |batches| && batches[p.value].id == k && forall i :: 0 <= i < p.value ==> batches[i].id != k
  {
    if batches != [] && batches[0].id != k {
      PositionIsFirst(batches[1..], k);
    }
  }

  /** A wish is the place of k among the job's next batches, up to multiplier times its target depth. */
  lemma WishMeans(c: Config, s: Sys, j: string, k: string, datasetId: string)
    ensures Wish(c, s, j, k, datasetId).Some? <==>
              && IsActive(s, j) && s.jobs[j].datasetId == datasetId
              && exists b :: b in First(Max(1, c.multiplier) * TargetDepth(c, s.est, s.jobs[j]), Upcoming(s.jobs[j])) && b.id == k
    ensures Wish(c, s, j, k, datasetId).Some? ==>
              var p := Wish(c, s, j, k, datasetId).value;
              && p < |Upcoming(s.jobs[j])| && Upcoming(s.jobs[j])[p].id == k
              && forall i :: 0 <= i < p ==> Upcoming(s.jobs[j])[i].id != k
  {
    hide Upcoming, TargetDepth;
    if IsActive(s, j) && s.jobs[j].datasetId == datasetId {
      var near := First(ExtendedDepth(c, s.est, s.jobs[j]), Upcoming(s.jobs[j]));
      PositionFinds(near, k);
      PositionIsFirst(near, k);
    }
  }

  predicate AtLeastAsSoon(p: Option<nat>, q: Option<nat>) {
    q.Some? ==> p.Some? && p.value <= q.value
  }

  predicate Sooner(p: Option<nat>, q: Option<nat>) {
    p.Some? && (q.None? || p.value < q.value)
  }

  /** One payload in one state. */
  datatype Payload = Payload(s: Sys, k: string, datasetId: string)

  function WishFor(c: Config, g: Payload, j: string): Option<nat> {
    Wish(c, g.s, j, g.k, g.datasetId)
  }

  /** How much of the job's next depth batches is not covered. */
  function Missing(c: Config, g: Payload, j: string): real
    requires j in g.s.jobs
  {
    1.0 - Coverage(c, g.s, g.s.jobs[j])
  }

  lemma WisherExists(c: Config, g: Payload, j: string)
    requires WishFor(c, g, j).Some?
    ensures IsActive(g.s, j)
  {
  }

  /** Every listed job that wants g2 wants g1 at least as soon. */
  predicate WantedNoLater(c: Config, g1: Payload, g2: Payload, ids: seq<string>) {
    forall j :: j in ids ==> AtLeastAsSoon(WishFor(c, g1, j), WishFor(c, g2, j))
  }

  /** Every listed job that wants g2 is covered no better when it comes to g1. */
  predicate CoveredNoBetter(c: Config, g1: Payload, g2: Payload, ids: seq<string>) {
    forall j :: j in ids && j in g1.s.jobs && j in g2.s.jobs && WishFor(c, g2, j).Some? ==> Missing(c, g1, j) >= Missing(c, g2, j)
  }

  lemma ShareFalls(p: nat, q: nat)
    requires p <= q
    ensures 1.0 / (p + 1) as real >= 1.0 / (q + 1) as real > 0.0
    ensures p < q ==> 1.0 / (p + 1) as real > 1.0 / (q + 1) as real
  {
    var a, b := (p + 1) as real, (q + 1) as real;
    assert (1.0 / a) * a == 1.0 && (1.0 / b) * b == 1.0;
    ReciprocalFalls(a, b);
  }

  lemma ReciprocalFalls(a: real, b: real)
    requires 0.0 < a <= b
    ensures 1.0 / a >= 1.0 / b > 0.0 && (a < b ==> 1.0 / a > 1.0 / b)
  {
    var x, y := 1.0 / a, 1.0 / b;
    assert x * a == 1.0 && y * b == 1.0;
    assert (x - y) * a == 1.0 - y * a;
    assert y * (b - a) == 1.0 - y * a;
  }

  lemma {:induction false} DemandGrows(c: Config, g1: Payload, g2: Payload, ids: seq<string>)
    requires WantedNoLater(c, g1, g2, ids)
    ensures Demand(c, g1.s, ids, g1.k, g1.datasetId) >= Demand(c, g2.s, ids, g2.k, g2.datasetId) >= 0.0
    ensures (exists j :: j in ids && Sooner(WishFor(c, g1, j), WishFor(c, g2, j))) ==>
              Demand(c, g1.s, ids, g1.k, g1.datasetId) > Demand(c, g2.s, ids, g2.k, g2.datasetId)
  {
    hide DemandPosition;
    if ids != [] {
      var n := |ids| - 1;
      var p, q := WishFor(c, g1, ids[n]), WishFor(c, g2, ids[n]);
      assert ids[n] in ids && forall j :: j in ids[..n] ==> j in ids;
      DemandGrows(c, g1, g2, ids[..n]);
      assert AtLeastAsSoon(p, q);
      if q.Some? {
        ShareFalls(p.value, q.value);
      } else if p.Some? {
        ShareFalls(p.value, p.value);
      }
      assert forall j :: j in ids ==> j in ids[..n] || j == ids[n];
    }
  }

  lemma {:induction false} ShortageGrows(c: Config, g1: Payload, g2: Payload, ids: seq<string>)
    requires WantedNoLater(c, g1, g2, ids) && CoveredNoBetter(c, g1, g2, ids)
    ensures Shortage(c, g1.s, ids, g1.k, g1.datasetId) >= Shortage(c, g2.s, ids, g2.k, g2.datasetId) >= 0.0
    ensures (exists j :: j in ids && j in g1.s.jobs && j in g2.s.jobs && WishFor(c, g2, j).Some? && Missing(c, g1, j) > Missing(c, g2, j)) ==>
              Shortage(c, g1.s, ids, g1.k, g1.datasetId) > Shortage(c, g2.s, ids, g2.k, g2.datasetId)
  {
    hide DemandPosition, Coverage;
    if ids != [] {
      var n := |ids| - 1;
      var j := ids[n];
      assert j in ids && forall i :: i in ids[..n] ==> i in ids;
      ShortageGrows(c, g1, g2, ids[..n]);
      assert AtLeastAsSoon(WishFor(c, g1, j), WishFor(c, g2, j));
      if WishFor(c, g1, j).Some? {
        WisherExists(c, g1, j);
        CoverageIsPart(c, g1, j);
      }
      if WishFor(c, g2, j).Some? {
        WisherExists(c, g2, j);
        CoverageIsPart(c, g2, j);
      }
      assert forall i :: i in ids ==> i in ids[..n] || i == j;
    }
  }

  lemma CoverageIsPart(c: Config, g: Payload, j: string)
    requires j in g.s.jobs
    ensures 0.0 <= Missing(c, g, j) <= 1.0
  {
    hide Coverage;
    CoverageMeans(c, g.s, g.s.jobs[j]);
  }

  lemma ProductGrows(a1: real, b1: real, w1: real, a2: real, b2: real, w2: real)
    requires a1 >= a2 >= 0.0 && b1 >= b2 > 0.0 && w1 >= w2 > 0.0
    ensures a1 * b1 * w1 >= a2 * b2 * w2
    ensures a1 > 0.0 && (a1 > a2 || b1 > b2 || w1 > w2) ==> a1 * b1 * w1 > a2 * b2 * w2
  {
    assert a1 * b1 >= a2 * b1 >= a2 * b2 >= 0.0 by {
      assert (a1 - a2) * b1 >= 0.0 && a2 * (b1 - b2) >= 0.0;
    }
    TimesGrows(a1 * b1, w1, a2 * b2, w2);
    if a1 > 0.0 {
      assert a1 * b1 > 0.0;
      if a1 > a2 {
        assert (a1 - a2) * b1 > 0.0;
      } else if b1 > b2 {
        assert a2 * (b1 - b2) > 0.0;
      }
    }
  }

  lemma TimesGrows(x: real, v: real, y: real, w: real)
    requires x >= y >= 0.0 && v >= w > 0.0
    ensures x * v >= y * w && (x > y || (v > w && x > 0.0) ==> x * v > y * w)
  {
    assert x * v - y * w == (x - y) * v + y * (v - w);
    assert (x - y) * v >= 0.0 && y * (v - w) >= 0.0;
    if x > y {
      assert (x - y) * v > 0.0;
    } else if v > w && x > 0.0 {
      assert y * (v - w) > 0.0;
    }
  }

  lemma WeightGrows(beta: real, s1: real, s2: real)
    requires beta >= 0.0 && s1 >= s2 >= 0.0
    ensures 1.0 + beta * s1 >= 1.0 + beta * s2 > 0.0 && (beta > 0.0 && s1 > s2 ==> 1.0 + beta * s1 > 1.0 + beta * s2)
  {
    assert beta * s1 - beta * s2 == beta * (s1 - s2);
    assert beta * s2 >= 0.0;
  }

  function PrepOf(g: Payload): real {
    PrepEstimate(g.s.est, g.datasetId, 1.0)
  }

  function Worth(c: Config, g: Payload): real {
    Value(c, g.s, g.k, g.datasetId)
  }

  ghost predicate WantedByAny(c: Config, g: Payload) {
    exists j :: j in g.s.order && WishFor(c, g, j).Some?
  }

  predicate Comparable(c: Config, g1: Payload, g2: Payload) {
    && c.reuse && c.beta >= 0.0 && g1.s.order == g2.s.order && EstimatesPositive(g1.s.est) && EstimatesPositive(g2.s.est)
    && WantedNoLater(c, g1, g2, g1.s.order) && CoveredNoBetter(c, g1, g2, g1.s.order)
  }

  /** Something makes g1 the better one for a job that wants it. */
  ghost predicate BetterSomehow(c: Config, g1: Payload, g2: Payload) {
    || (exists j :: j in g1.s.order && Sooner(WishFor(c, g1, j), WishFor(c, g2, j)))
    || (WantedByAny(c, g1) && PrepOf(g1) > PrepOf(g2))
    || (c.beta > 0.0 && exists j :: j in g1.s.order && j in g1.s.jobs && j in g2.s.jobs && WishFor(c, g2, j).Some?
                                    && Missing(c, g1, j) > Missing(c, g2, j))
  }

  lemma WantedHasDemand(c: Config, g: Payload)
    ensures WantedByAny(c, g) <==> Demand(c, g.s, g.s.order, g.k, g.datasetId) > 0.0
  {
    hide DemandPosition;
    DemandCounts(c, g.s, g.s.order, g.k, g.datasetId);
  }

  lemma SoonerIsWanted(c: Config, g1: Payload, g2: Payload)
    requires WantedNoLater(c, g1, g2, g1.s.order) && g1.s.order == g2.s.order && BetterSomehow(c, g1, g2)
    ensures WantedByAny(c, g1)
  {
    hide DemandPosition, Coverage;
  }

  /**
   * The value grows with demand, with the time to prepare and with the jobs' shortage: a payload that
   * every job wants at least as soon, that takes at least as long to prepare and whose jobs are covered
   * no better is worth at least as much, and more if any of this is strictly so for a job that wants it.
   */
  lemma ValueGrows(c: Config, g1: Payload, g2: Payload)
    requires Comparable(c, g1, g2) && (WantedByAny(c, g2) ==> PrepOf(g1) >= PrepOf(g2))
    ensures Worth(c, g1) >= Worth(c, g2)
    ensures BetterSomehow(c, g1, g2) ==> Worth(c, g1) > Worth(c, g2)
  {
    hide WishFor, Missing, BetterSomehow, WantedByAny, Demand, Shortage, EstimatesPositive, PrepEstimate;
    var ids := g1.s.order;
    DemandGrows(c, g1, g2, ids);
    ShortageGrows(c, g1, g2, ids);
    WantedHasDemand(c, g1);
    WantedHasDemand(c, g2);
    var d1, d2 := Demand(c, g1.s, ids, g1.k, g1.datasetId), Demand(c, g2.s, ids, g2.k, g2.datasetId);
    var t1, t2 := Shortage(c, g1.s, ids, g1.k, g1.datasetId), Shortage(c, g2.s, ids, g2.k, g2.datasetId);
    PrepIsPositive(g1);
    PrepIsPositive(g2);
    WeightGrows(c.beta, t1, t2);
    WeightGrows(c.beta, t1, 0.0);
    if BetterSomehow(c, g1, g2) {
      SoonerIsWanted(c, g1, g2);
    }
    ProductGrows(d1, PrepOf(g1), 1.0 + c.beta * t1, 0.0, PrepOf(g1), 1.0 + c.beta * t1);
    if d2 > 0.0 {
      ProductGrows(d1, PrepOf(g1), 1.0 + c.beta * t1, d2, PrepOf(g2), 1.0 + c.beta * t2);
      BetterShows(c, g1, g2, d1, d2, t1, t2);
    }
  }

  lemma PrepIsPositive(g: Payload)
    requires EstimatesPositive(g.s.est)
    ensures PrepOf(g) > 0.0
  {
  }

  lemma BetterShows(c: Config, g1: Payload, g2: Payload, d1: real, d2: real, t1: real, t2: real)
    requires Comparable(c, g1, g2)
    requires d1 == Demand(c, g1.s, g1.s.order, g1.k, g1.datasetId) && d2 == Demand(c, g2.s, g1.s.order, g2.k, g2.datasetId)
    requires t1 == Shortage(c, g1.s, g1.s.order, g1.k, g1.datasetId) && t2 == Shortage(c, g2.s, g1.s.order, g2.k, g2.datasetId)
    ensures BetterSomehow(c, g1, g2) ==> d1 > d2 || PrepOf(g1) > PrepOf(g2) || (c.beta > 0.0 && t1 > t2)
  {
    hide WishFor, Missing, WantedByAny, Demand, Shortage, PrepEstimate, EstimatesPositive;
    DemandGrows(c, g1, g2, g1.s.order);
    ShortageGrows(c, g1, g2, g1.s.order);
  }

  /** If j is the only job that wants it, the value is written out by j's wish and coverage. */
  lemma ValueForOneJob(c: Config, s: Sys, before: seq<string>, j: string, after: seq<string>, k: string, datasetId: string)
    requires c.reuse && c.beta >= 0.0 && EstimatesPositive(s.est) && s.order == before + [j] + after
    requires Wish(c, s, j, k, datasetId).Some?
    requires forall i :: i in before + after ==> Wish(c, s, i, k, datasetId).None?
    ensures j in s.jobs
    ensures var share := 1.0 / (Wish(c, s, j, k, datasetId).value + 1) as real;
            Value(c, s, k, datasetId) == share * PrepEstimate(s.est, datasetId, 1.0) * (1.0 + c.beta * (1.0 - Coverage(c, s, s.jobs[j])))
  {
    hide DemandPosition, Coverage, PrepEstimate;
    WisherExists(c, Payload(s, k, datasetId), j);
    OthersAddNothing(c, s, before, k, datasetId);
    assert (before + [j])[..|before|] == before;
    OthersAddNothingAfter(c, s, before + [j], after, k, datasetId);
    var p := Wish(c, s, j, k, datasetId).value;
    ShareFalls(p, p);
  }

  lemma {:induction false} OthersAddNothing(c: Config, s: Sys, ids: seq<string>, k: string, datasetId: string)
    requires forall i :: i in ids ==> Wish(c, s, i, k, datasetId).None?
    ensures Demand(c, s, ids, k, datasetId) == 0.0 && Shortage(c, s, ids, k, datasetId) == 0.0
  {
    hide DemandPosition, Coverage;
    if ids != [] {
      assert ids[|ids| - 1] in ids && forall i :: i in ids[..|ids| - 1] ==> i in ids;
      OthersAddNothing(c, s, ids[..|ids| - 1], k, datasetId);
    }
  }

  lemma {:induction false} OthersAddNothingAfter(c: Config, s: Sys, ids: seq<string>, more: seq<string>, k: string, datasetId: string)
    requires forall i :: i in more ==> Wish(c, s, i, k, datasetId).None?
    ensures Demand(c, s, ids + more, k, datasetId) == Demand(c, s, ids, k, datasetId)
    ensures Shortage(c, s, ids + more, k, datasetId) == Shortage(c, s, ids, k, datasetId)
  {
    hide DemandPosition, Coverage;
    if more == [] {
      assert ids + more == ids;
    } else {
      var n := |more| - 1;
      assert more[n] in more && forall i :: i in more[..n] ==> i in more;
      OthersAddNothingAfter(c, s, ids, more[..n], k, datasetId);
      assert (ids + more)[..|ids + more| - 1] == ids + more[..n];
    }
  }

  // Eviction respects the value.

  /** Every job that wants k wants v at least as soon, and some job wants v sooner than k or wants only v. */
  ghost predicate MoreUrgent(c: Config, s: Sys, v: string, vSet: string, k: string, kSet: string) {
    && (vSet == kSet || forall j :: j in s.order ==> Wish(c, s, j, k, kSet).None?)
    && (forall j :: j in s.order ==> AtLeastAsSoon(Wish(c, s, j, v, vSet), Wish(c, s, j, k, kSet)))
    && exists j :: j in s.order && Sooner(Wish(c, s, j, v, vSet), Wish(c, s, j, k, kSet))
  }

  lemma UrgentIsWorthMore(c: Config, s: Sys, v: string, vSet: string, k: string, kSet: string)
    requires c.reuse && c.beta >= 0.0 && EstimatesPositive(s.est) && MoreUrgent(c, s, v, vSet, k, kSet)
    ensures Value(c, s, v, vSet) > Value(c, s, k, kSet)
  {
    hide DemandPosition, Coverage, Value;
    ValueGrows(c, Payload(s, v, vSet), Payload(s, k, kSet));
  }

  lemma VictimIsNoBetter(c: Config, s: Sys, incoming: real, size: int, victims: seq<string>, v: string, k: string)
    requires Chooses(c, s, incoming, size, Some(victims)) && v in victims
    requires k in CachedKeys(s.board.entries) && !InUse(s.pins, k) && k !in victims
    ensures v in s.board.entries && PayloadValue(c, s, v) < incoming
    ensures k in s.board.entries && PayloadValue(c, s, v) <= PayloadValue(c, s, k)
    ensures PayloadValue(c, s, v) == PayloadValue(c, s, k) < incoming ==> s.board.entries[v].lastAccessed <= s.board.entries[k].lastAccessed
  {
    hide PayloadValue, InUse, BytesIn, Freed, NeededBytes;
    var i :| 0 <= i < |victims| && victims[i] == v;
    if PayloadValue(c, s, k) < incoming {
      assert k in Candidates(c, s, incoming);
      BeforeIsTotal(c, s, v, k);
    }
  }

  /**
   * The cache never gives up a payload that is more urgent than one it could have given up and keeps:
   * a victim is worth less than the payload that comes in, no more than any unpinned payload that stays,
   * and among equals it is the one unused for longest.
   */
  lemma VictimsAreLessUrgent(c: Config, s: Sys, incoming: real, size: int, victims: seq<string>, v: string, k: string)
    requires c.reuse && c.beta >= 0.0 && EstimatesPositive(s.est)
    requires Chooses(c, s, incoming, size, Some(victims)) && v in victims
    requires k in CachedKeys(s.board.entries) && !InUse(s.pins, k) && k !in victims
    ensures v in s.board.entries && k in s.board.entries
    ensures s.board.entries[v].datasetId != "" ==>
              !MoreUrgent(c, s, v, s.board.entries[v].datasetId, k, s.board.entries[k].datasetId)
  {
    hide InUse, Chooses, Value, MoreUrgent, BytesIn;
    VictimIsNoBetter(c, s, incoming, size, victims, v, k);
    var vSet, kSet := s.board.entries[v].datasetId, s.board.entries[k].datasetId;
    if vSet != "" && MoreUrgent(c, s, v, vSet, k, kSet) {
      UrgentIsWorthMore(c, s, v, vSet, k, kSet);
      NoSetNoWish(c, s, v, k);
    }
  }

  lemma NoSetNoWish(c: Config, s: Sys, v: string, k: string)
    requires v in s.board.entries && k in s.board.entries && c.reuse && c.beta >= 0.0 && EstimatesPositive(s.est)
    requires s.board.entries[v].datasetId != ""
    requires MoreUrgent(c, s, v, s.board.entries[v].datasetId, k, s.board.entries[k].datasetId)
    ensures PayloadValue(c, s, v) > PayloadValue(c, s, k)
  {
    hide Wish, Value, MoreUrgent;
    UrgentIsWorthMore(c, s, v, s.board.entries[v].datasetId, k, s.board.entries[k].datasetId);
    ValueIsNotNegative(c, s, k, s.board.entries[k].datasetId);
  }

  lemma ValueIsNotNegative(c: Config, s: Sys, k: string, datasetId: string)
    requires c.reuse && c.beta >= 0.0 && EstimatesPositive(s.est)
    ensures Value(c, s, k, datasetId) >= 0.0
  {
    hide DemandPosition, Coverage;
    ValueGrows(c, Payload(s, k, datasetId), Payload(s, k, datasetId));
    PrepIsPositive(Payload(s, k, datasetId));
    ShortageNotNegative(c, s, s.order, k, datasetId);
    var d, t, p := Demand(c, s, s.order, k, datasetId), Shortage(c, s, s.order, k, datasetId), PrepEstimate(s.est, datasetId, 1.0);
    WeightGrows(c.beta, t, t);
    if d > 0.0 {
      ProductGrows(d, p, 1.0 + c.beta * t, d, p, 1.0 + c.beta * t);
      ProductPositive(d, p, 1.0 + c.beta * t);
    }
  }
}

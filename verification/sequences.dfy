/** Sums, counts and fixed-size slices of sequences. */
module Sequences {
  function Min(a: int, b: int): int {
    if a <= b then a else b
  }

  function Max(a: int, b: int): int {
    if a >= b then a else b
  }

  function Sum(xs: seq<nat>): (total: nat) {
    if xs == [] then 0 else Sum(xs[..|xs| - 1]) + xs[|xs| - 1]
  }

  lemma {:induction false} SumUpdate(xs: seq<nat>, i: nat, x: nat)
    requires i < |xs|
    ensures Sum(xs[i := x]) + xs[i] == Sum(xs) + x
  {
    var n := |xs| - 1;
    if i == n {
      assert xs[i := x][..n] == xs[..n];
    } else {
      assert xs[i := x][..n] == xs[..n][i := x];
      SumUpdate(xs[..n], i, x);
    }
  }

  lemma {:induction false} SumAllEqual(xs: seq<nat>, v: nat)
    requires forall i :: 0 <= i < |xs| ==> xs[i] == v
    ensures Sum(xs) == v * |xs|
  {
    if xs != [] {
      var n := |xs| - 1;
      SumAllEqual(xs[..n], v);
      assert v * n + v == v * |xs|;
    }
  }

  function Flatten<T>(groups: seq<seq<T>>): seq<T> {
    if groups == [] then [] else Flatten(groups[..|groups| - 1]) + groups[|groups| - 1]
  }

  /** The i-th slice of width w, shorter (or empty) at the end of the sequence. */
  function Slice<T>(xs: seq<T>, w: nat, i: nat): seq<T>
    requires w > 0
  {
    xs[Min(|xs|, i * w)..Min(|xs|, (i + 1) * w)]
  }

  function Slices<T>(xs: seq<T>, w: nat, count: nat): (r: seq<seq<T>>)
    requires w > 0
  {
    seq(count, i requires 0 <= i => Slice(xs, w, i))
  }

  /** How many slices of width w a list of n elements has: all of them, or only the whole ones. */
  function SliceCount(n: nat, w: nat, wholeOnly: bool): nat
    requires w > 0
  {
    if wholeOnly then n / w else (n + w - 1) / w
  }

  lemma {:induction false} FlattenSlices<T>(xs: seq<T>, w: nat, count: nat)
    requires w > 0
    ensures Flatten(Slices(xs, w, count)) == xs[..Min(|xs|, count * w)]
  {
    if count > 0 {
      FlattenSlices(xs, w, count - 1);
      var all := Slices(xs, w, count);
      assert all[..count - 1] == Slices(xs, w, count - 1);
      assert (count - 1) * w <= count * w;
    }
  }

  lemma MulMonotone(a: int, b: int, w: nat)
    requires a <= b
    ensures a * w <= b * w
  {
  }

  lemma DivAtLeast(n: nat, w: nat, q: nat)
    requires w > 0
    ensures q <= n / w <==> q * w <= n
  {
    var d := n / w;
    assert n == d * w + n % w;
    if q <= d {
      MulMonotone(q, d, w);
    } else {
      MulMonotone(d + 1, q, w);
      assert (d + 1) * w == d * w + w;
    }
  }

  lemma DivModUnique(w: nat, q: nat, r: nat)
    requires r < w
    ensures (q * w + r) / w == q && (q * w + r) % w == r
  {
    var n := q * w + r;
    DivAtLeast(n, w, q);
    DivAtLeast(n, w, q + 1);
    assert (q + 1) * w == q * w + w;
  }

  /** Which slices of a list are kept. */
  lemma SliceKept(n: nat, w: nat, wholeOnly: bool, i: nat)
    requires w > 0
    ensures i < SliceCount(n, w, wholeOnly) <==> (if wholeOnly then (i + 1) * w <= n else i * w < n)
  {
    assert (i + 1) * w == i * w + w;
    DivAtLeast(if wholeOnly then n else n + w - 1, w, i + 1);
  }

  lemma SlicesKeep(n: nat, w: nat, wholeOnly: bool)
    requires w > 0
    ensures Min(n, SliceCount(n, w, wholeOnly) * w) == if wholeOnly then n - n % w else n
  {
    SliceKept(n, w, wholeOnly, SliceCount(n, w, wholeOnly));
  }

  lemma {:induction false} SumMonotone(xs: seq<nat>, ys: seq<nat>)
    requires |xs| == |ys| && forall i :: 0 <= i < |xs| ==> xs[i] <= ys[i]
    ensures Sum(xs) <= Sum(ys)
    ensures (exists i :: 0 <= i < |xs| && xs[i] < ys[i]) ==> Sum(xs) < Sum(ys)
  {
    if xs != [] {
      SumMonotone(xs[..|xs| - 1], ys[..|ys| - 1]);
    }
  }

  lemma {:induction false} SumBound(xs: seq<nat>, v: nat)
    requires forall i :: 0 <= i < |xs| ==> xs[i] <= v
    ensures Sum(xs) <= |xs| * v
  {
    SumMonotone(xs, seq(|xs|, _ => v));
    SumAllEqual(seq(|xs|, _ => v), v);
  }

  lemma SubsetBound<T>(a: set<T>, b: set<T>)
    requires a <= b
    ensures |a| <= |b|
  {
    assert b == a + (b - a);
  }

  lemma PairBound<T>(a: set<T>, b: set<T>)
    ensures |a + b| <= |a| + |b|
  {
    SubsetBound(b - a, b);
    assert a + b == a + (b - a);
  }

  lemma OneMore(n: nat, w: nat)
    ensures (n + 1) * w == n * w + w
  {
  }

  function Union<T>(parts: seq<set<T>>): set<T> {
    if parts == [] then {} else Union(parts[..|parts| - 1]) + parts[|parts| - 1]
  }

  lemma {:induction false} InUnion<T>(parts: seq<set<T>>, i: nat)
    requires i < |parts|
    ensures parts[i] <= Union(parts)
  {
    if i < |parts| - 1 {
      InUnion(parts[..|parts| - 1], i);
    }
  }

  /** The union of n sets of at most w elements each has at most n * w elements. */
  lemma {:induction false} UnionBound<T>(parts: seq<set<T>>, w: nat)
    requires forall i :: 0 <= i < |parts| ==> |parts[i]| <= w
    ensures |Union(parts)| <= |parts| * w
  {
    if parts != [] {
      var n := |parts| - 1;
      UnionBound(parts[..n], w);
      assert Union(parts) == Union(parts[..n]) + parts[n];
      PairBound(Union(parts[..n]), parts[n]);
      OneMore(n, w);
    }
  }

  lemma {:induction false} ElementsBound<T>(xs: seq<T>, ids: set<T>)
    requires forall x :: x in ids ==> x in xs
    ensures |ids| <= |xs|
  {
    if xs == [] {
      assert ids == {};
    } else {
      ElementsBound(xs[1..], ids - {xs[0]});
    }
  }
}

/**
 * What the bounded reusable cache holds and which payloads it gives up for a new one:
 * batchflow/coordinator/cache_manager.py.
 */
module CoordinatorCache {
  import opened Text
  import opened Sequences
  import opened CoordinatorBoard
  import opened CoordinatorPins
  import opened CoordinatorState

  type Entries = map<string, Entry>

  /** The entries that list_reusable_payload_entries lists. */
  predicate Cached(e: Entry) {
    e.status.EntryAvailable? && e.storage.Reusable? && e.location.Redis?
  }

  function CachedKeys(entries: Entries): set<string> {
    set k | k in entries && Cached(entries[k])
  }

  /** The cached payloads that the cache admitted; the others were kept for want of a fallback. */
  function AdmittedKeys(entries: Entries): set<string> {
    set k | k in entries && Cached(entries[k]) && !entries[k].forced
  }

  function SizeOf(entries: Entries, k: string): nat {
    if k in entries then Max(0, entries[k].size) else 0
  }

  ghost function BytesIn(entries: Entries, keys: set<string>): nat {
    if keys == {} then 0
    else
      var k :| k in keys;
      SizeOf(entries, k) + BytesIn(entries, keys - {k})
  }

  /** reusable_cache_bytes */
  ghost function CacheBytes(entries: Entries): nat {
    BytesIn(entries, CachedKeys(entries))
  }

  ghost function AdmittedBytes(entries: Entries): nat {
    BytesIn(entries, AdmittedKeys(entries))
  }

  lemma {:induction false} BytesInPick(entries: Entries, keys: set<string>, k: string)
    requires k in keys
    ensures BytesIn(entries, keys) == SizeOf(entries, k) + BytesIn(entries, keys - {k})
    decreases keys
  {
    var first :| first in keys && BytesIn(entries, keys) == SizeOf(entries, first) + BytesIn(entries, keys - {first});
    if first != k {
      BytesInPick(entries, keys - {first}, k);
      BytesInPick(entries, keys - {k}, first);
      assert keys - {first} - {k} == keys - {k} - {first};
    }
  }

  lemma {:induction false} BytesInSame(e1: Entries, e2: Entries, keys: set<string>)
    requires forall k :: k in keys ==> SizeOf(e1, k) == SizeOf(e2, k)
    ensures BytesIn(e1, keys) == BytesIn(e2, keys)
    decreases keys
  {
    if keys != {} {
      var k :| k in keys;
      BytesInPick(e1, keys, k);
      BytesInPick(e2, keys, k);
      BytesInSame(e1, e2, keys - {k});
    }
  }

  lemma {:induction false} BytesInSubset(entries: Entries, a: set<string>, b: set<string>)
    requires a <= b
    ensures BytesIn(entries, a) <= BytesIn(entries, b)
    decreases a
  {
    if a != {} {
      var k :| k in a;
      BytesInPick(entries, a, k);
      BytesInPick(entries, b, k);
      BytesInSubset(entries, a - {k}, b - {k});
    }
  }

  function Freed(entries: Entries, victims: seq<string>): nat {
    if victims == [] then 0 else Freed(entries, victims[..|victims| - 1]) + SizeOf(entries, victims[|victims| - 1])
  }

  // The choice of victims.

  /** compute_payload_value */
  function PayloadValue(c: Config, s: Sys, k: string): real
    requires k in s.board.entries
  {
    if s.board.entries[k].datasetId == "" then 0.0 else Value(c, s, k, s.board.entries[k].datasetId)
  }

  /** The payloads worth less than the incoming one that nobody is fetching. */
  function Candidates(c: Config, s: Sys, incoming: real): set<string> {
    set k | k in CachedKeys(s.board.entries) && !InUse(s.pins, k) && k in s.board.entries && PayloadValue(c, s, k) < incoming
  }

  /** The order in which payloads are given up: least valuable, longest unused, then by key. */
  predicate Before(c: Config, s: Sys, a: string, b: string)
    requires a in s.board.entries && b in s.board.entries
  {
    var va, vb := PayloadValue(c, s, a), PayloadValue(c, s, b);
    var ta, tb := s.board.entries[a].lastAccessed, s.board.entries[b].lastAccessed;
    va < vb || (va == vb && (ta < tb || (ta == tb && Precedes(a, b))))
  }

  predicate Ranked(c: Config, s: Sys, xs: seq<string>) {
    && (forall i :: 0 <= i < |xs| ==> xs[i] in s.board.entries)
    && (forall i, j :: 0 <= i < j < |xs| ==> Before(c, s, xs[i], xs[j]))
  }

  /** victims is the shortest initial stretch of the ranked candidates that frees the needed bytes. */
  ghost predicate GreedyPrefix(c: Config, s: Sys, candidates: set<string>, need: int, victims: seq<string>)
    requires candidates <= s.board.entries.Keys
  {
    && Ranked(c, s, victims)
    && (forall i :: 0 <= i < |victims| ==> victims[i] in candidates)
    && (forall k, i :: k in candidates && 0 <= i < |victims| && Before(c, s, k, victims[i]) ==> k in victims)
    && Freed(s.board.entries, victims) >= need
    && (victims != [] ==> Freed(s.board.entries, victims[..|victims| - 1]) < need)
  }

  ghost function NeededBytes(c: Config, s: Sys, size: int): int {
    CacheBytes(s.board.entries) + Max(0, size) - c.capacity
  }

  /** _choose_eviction_victims: None exactly when no choice of candidates makes enough room. */
  ghost predicate Chooses(c: Config, s: Sys, incoming: real, size: int, victims: Option<seq<string>>) {
    var candidates := Candidates(c, s, incoming);
    if c.capacity <= 0 then victims == Some([])
    else if Max(0, size) > c.capacity then victims == None
    else if NeededBytes(c, s, size) <= 0 then victims == Some([])
    else
      && (victims.None? <==> BytesIn(s.board.entries, candidates) < NeededBytes(c, s, size))
      && (victims.Some? ==> GreedyPrefix(c, s, candidates, NeededBytes(c, s, size), victims.value))
  }

  lemma BeforeIsTotal(c: Config, s: Sys, a: string, b: string)
    requires a in s.board.entries && b in s.board.entries
    ensures a == b || Before(c, s, a, b) || Before(c, s, b, a)
    ensures !(Before(c, s, a, b) && Before(c, s, b, a)) && !Before(c, s, a, a)
  {
    PrecedesTotal(a, b);
    PrecedesTotal(a, a);
    hide PayloadValue, Precedes;
  }

  lemma BeforeIsTransitive(c: Config, s: Sys, a: string, b: string, d: string)
    requires a in s.board.entries && b in s.board.entries && d in s.board.entries
    requires Before(c, s, a, b) && Before(c, s, b, d)
    ensures Before(c, s, a, d)
  {
    if Precedes(a, b) && Precedes(b, d) {
      PrecedesTransitive(a, b, d);
    }
    hide PayloadValue, Precedes;
  }

  lemma RankedDistinct(c: Config, s: Sys, xs: seq<string>)
    requires Ranked(c, s, xs)
    ensures forall i, j :: 0 <= i < j < |xs| ==> xs[i] != xs[j]
  {
    forall i, j | 0 <= i < j < |xs|
      ensures xs[i] != xs[j]
    {
      BeforeIsTotal(c, s, xs[i], xs[j]);
      assert Before(c, s, xs[i], xs[j]);
      hide Before;
    }
  }

  /** Two initial stretches of the same ranking agree as far as both go. */
  lemma {:induction false} StretchesAgree(c: Config, s: Sys, candidates: set<string>, need: int, v: seq<string>, w: seq<string>, n: nat)
    requires candidates <= s.board.entries.Keys
    requires GreedyPrefix(c, s, candidates, need, v) && GreedyPrefix(c, s, candidates, need, w)
    requires n <= |v| && n <= |w|
    ensures v[..n] == w[..n]
  {
    if n > 0 {
      StretchesAgree(c, s, candidates, need, v, w, n - 1);
      NextAgrees(c, s, candidates, need, v, w, n - 1);
      NextAgrees(c, s, candidates, need, w, v, n - 1);
      BeforeIsTotal(c, s, v[n - 1], w[n - 1]);
      assert v[..n] == v[..n - 1] + [v[n - 1]] && w[..n] == w[..n - 1] + [w[n - 1]];
    }
  }

  lemma EarlierIsListed(c: Config, s: Sys, candidates: set<string>, need: int, w: seq<string>, n: nat, k: string)
    requires candidates <= s.board.entries.Keys && GreedyPrefix(c, s, candidates, need, w)
    requires n < |w| && k in candidates && Before(c, s, k, w[n])
    ensures k in w[..n]
  {
    assert forall m :: n < m < |w| ==> Before(c, s, w[n], w[m]);
    var i :| 0 <= i < |w| && w[i] == k;
    BeforeIsTotal(c, s, k, w[n]);
    hide Before;
    assert i < n;
    assert w[..n][i] == k;
  }

  lemma NextAgrees(c: Config, s: Sys, candidates: set<string>, need: int, v: seq<string>, w: seq<string>, n: nat)
    requires candidates <= s.board.entries.Keys
    requires GreedyPrefix(c, s, candidates, need, v) && GreedyPrefix(c, s, candidates, need, w)
    requires n < |v| && n < |w| && v[..n] == w[..n]
    ensures !Before(c, s, v[n], w[n])
  {
    RankedDistinct(c, s, v);
    assert v[n] !in v[..n];
    if Before(c, s, v[n], w[n]) {
      EarlierIsListed(c, s, candidates, need, w, n, v[n]);
    }
  }

  lemma {:induction false} FreedGrows(entries: Entries, xs: seq<string>, n: nat)
    requires n <= |xs|
    ensures Freed(entries, xs[..n]) <= Freed(entries, xs)
  {
    if n == |xs| {
      assert xs[..n] == xs;
    } else {
      FreedGrows(entries, xs[..|xs| - 1], n);
      assert xs[..|xs| - 1][..n] == xs[..n];
    }
  }

  lemma ShortestIsNotLonger(c: Config, s: Sys, candidates: set<string>, need: int, v: seq<string>, w: seq<string>)
    requires candidates <= s.board.entries.Keys
    requires GreedyPrefix(c, s, candidates, need, v) && GreedyPrefix(c, s, candidates, need, w)
    ensures |w| <= |v|
  {
    if |v| < |w| {
      StretchesAgree(c, s, candidates, need, v, w, |v|);
      assert w[..|w| - 1][..|v|] == w[..|v|] == v[..|v|] == v;
      FreedGrows(s.board.entries, w[..|w| - 1], |v|);
    }
  }

  /** The choice is determined: there is only one such list of victims. */
  lemma GreedyPrefixIsUnique(c: Config, s: Sys, candidates: set<string>, need: int, v: seq<string>, w: seq<string>)
    requires candidates <= s.board.entries.Keys
    requires GreedyPrefix(c, s, candidates, need, v) && GreedyPrefix(c, s, candidates, need, w)
    ensures v == w
  {
    ShortestIsNotLonger(c, s, candidates, need, v, w);
    ShortestIsNotLonger(c, s, candidates, need, w, v);
    StretchesAgree(c, s, candidates, need, v, w, |v|);
    assert v[..|v|] == v && w[..|v|] == w;
  }

  lemma ChoiceIsUnique(c: Config, s: Sys, incoming: real, size: int, v: Option<seq<string>>, w: Option<seq<string>>)
    requires Chooses(c, s, incoming, size, v) && Chooses(c, s, incoming, size, w)
    ensures v == w
  {
    if v.Some? && w.Some? && c.capacity > 0 && NeededBytes(c, s, size) > 0 {
      GreedyPrefixIsUnique(c, s, Candidates(c, s, incoming), NeededBytes(c, s, size), v.value, w.value);
    }
  }

  /** Bytes freed by distinct victims are the bytes of the set they form. */
  lemma {:induction false} FreedIsBytes(entries: Entries, xs: seq<string>)
    requires forall i, j :: 0 <= i < j < |xs| ==> xs[i] != xs[j]
    ensures Freed(entries, xs) == BytesIn(entries, set k | k in xs)
  {
    var all := set k | k in xs;
    if xs == [] {
      assert all == {};
    } else {
      var n := |xs| - 1;
      FreedIsBytes(entries, xs[..n]);
      assert xs == xs[..n] + [xs[n]];
      assert all - {xs[n]} == set k | k in xs[..n];
      BytesInPick(entries, all, xs[n]);
    }
  }

  /**
   * Wanted payloads go last: when a payload of positive value is given up, every unpinned cached
   * payload of value zero is given up in the same admission.
   */
  lemma WantedEvictedLast(c: Config, s: Sys, incoming: real, size: int, victims: seq<string>, v: string, k: string)
    requires Chooses(c, s, incoming, size, Some(victims)) && v in victims
    requires k in CachedKeys(s.board.entries) && !InUse(s.pins, k)
    ensures v in s.board.entries && k in s.board.entries
    ensures PayloadValue(c, s, v) > 0.0 && PayloadValue(c, s, k) == 0.0 ==> k in victims
  {
    var i :| 0 <= i < |victims| && victims[i] == v;
    assert v in Candidates(c, s, incoming);
    hide PayloadValue;
  }
}

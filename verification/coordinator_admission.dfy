/** When the bounded cache keeps a new payload, and where its handle points afterwards. */
module CoordinatorAdmission {
  import opened Text
  import opened Sequences
  import opened CoordinatorPlan
  import opened CoordinatorBoard
  import opened CoordinatorPins
  import opened CoordinatorState
  import opened CoordinatorCache
  import opened CoordinatorService
  import opened CoordinatorInvariants
  import opened CoordinatorBoardSteps
  import opened CoordinatorJobSteps
  import opened CoordinatorRuns

  function Elements(xs: seq<string>): set<string> {
    set k | k in xs
  }

  lemma {:induction false} BytesInSplit(entries: Entries, keys: set<string>, part: set<string>)
    requires part <= keys
    ensures BytesIn(entries, keys) == BytesIn(entries, keys - part) + BytesIn(entries, part)
    decreases part
  {
    if part == {} {
      assert keys - part == keys;
    } else {
      var k :| k in part;
      BytesInPick(entries, keys, k);
      BytesInPick(entries, part, k);
      BytesInSplit(entries, keys - {k}, part - {k});
      assert keys - {k} - (part - {k}) == keys - part;
    }
  }

  lemma {:induction false} EvictAllEmpties(s: Sys, victims: seq<string>)
    requires forall i :: 0 <= i < |victims| ==> !InUse(s.pins, victims[i])
    ensures EvictAll(s, victims).board.entries == s.board.entries - Elements(victims) && EvictAll(s, victims).pins == s.pins
  {
    hide InUse, Evict, Elements;
    if victims == [] {
      NoElements();
    } else {
      var n := |victims| - 1;
      EvictAllEmpties(s, victims[..n]);
      OneMoreElement(victims);
      EvictEmpties(EvictAll(s, victims[..n]), victims[n]);
    }
  }

  lemma NoElements()
    ensures Elements([]) == {}
  {
  }

  lemma OneMoreElement(keys: seq<string>)
    requires keys != []
    ensures Elements(keys) == Elements(keys[..|keys| - 1]) + {keys[|keys| - 1]}
  {
    assert keys == keys[..|keys| - 1] + [keys[|keys| - 1]];
  }

  lemma EvictEmpties(s: Sys, k: string)
    requires !InUse(s.pins, k)
    ensures Evict(s, k).board.entries == s.board.entries - {k} && Evict(s, k).pins == s.pins
  {
  }

  /** Evicting distinct cached payloads frees exactly their bytes. */
  lemma EvictAllFrees(s: Sys, victims: seq<string>)
    requires forall i :: 0 <= i < |victims| ==> !InUse(s.pins, victims[i]) && victims[i] in CachedKeys(s.board.entries)
    requires forall i, j :: 0 <= i < j < |victims| ==> victims[i] != victims[j]
    ensures CacheBytes(EvictAll(s, victims).board.entries) == CacheBytes(s.board.entries) - Freed(s.board.entries, victims)
  {
    hide InUse, EvictAll, BytesIn, Freed;
    var e1, e2, out := s.board.entries, EvictAll(s, victims).board.entries, Elements(victims);
    EvictAllEmpties(s, victims);
    assert out <= CachedKeys(e1) && CachedKeys(e2) == CachedKeys(e1) - out;
    BytesInSplit(e1, CachedKeys(e1), out);
    BytesInSame(e1, e2, CachedKeys(e2));
    FreedIsBytes(e1, victims);
  }

  lemma GreedyPrefixSuits(c: Config, s: Sys, incoming: real, need: int, victims: seq<string>)
    requires GreedyPrefix(c, s, Candidates(c, s, incoming), need, victims)
    ensures forall i :: 0 <= i < |victims| ==> !InUse(s.pins, victims[i]) && victims[i] in CachedKeys(s.board.entries)
    ensures forall i, j :: 0 <= i < j < |victims| ==> victims[i] != victims[j]
    ensures Freed(s.board.entries, victims) >= need
  {
    hide InUse, Before, PayloadValue, Freed;
    RankedDistinct(c, s, victims);
  }

  /**
   * The second capacity check of the admission never fails: the payload is kept exactly when the
   * candidates can make room for it.
   */
  lemma AdmittedIffRoom(c: Config, s: Sys, incoming: real, size: int, victims: Option<seq<string>>)
    requires Chooses(c, s, incoming, size, victims)
    ensures Fits(c, s, size, victims) <==> RoomCanBeMade(c, s, incoming, size)
    ensures victims.Some? <==> RoomCanBeMade(c, s, incoming, size)
  {
    hide Candidates, GreedyPrefix, EvictAll, BytesIn, CachedKeys;
    EvictNothing(s);
    if victims.Some? && c.capacity > 0 && NeededBytes(c, s, size) > 0 {
      GreedyPrefixSuits(c, s, incoming, NeededBytes(c, s, size), victims.value);
      EvictAllFrees(s, victims.value);
    }
  }

  lemma EvictNothing(s: Sys)
    ensures EvictAll(s, []) == s
  {
  }

  /** Whether the cache can make room for the payload that a worker reports. */
  ghost predicate HasRoom(c: Config, s: Sys, t: nat, o: Outcome)
    requires t in s.board.tasks
  {
    var batch := s.board.tasks[t].batch;
    var s1 := Learned(c, s, batch.datasetId, o);
    RoomCanBeMade(c, s1, Value(c, s1, batch.id, batch.datasetId), o.size)
  }

  /**
   * After a completion from Redis the payload is in Redis exactly when the cache can make room for
   * it; its READY handle points there exactly when there is room or no fallback. So a handle names
   * a missing key precisely when there is neither room nor a fallback.
   */
  lemma AdmissionOutcome(c: Config, s: Sys, t: nat, o: Outcome, victims: Option<seq<string>>, now: int)
    requires Inv(c, s) && o.InRedis? && Allowed(c, s, CompleteTask(t, o, victims, now))
    ensures var k := s.board.tasks[t].batch.id;
            var s' := CompleteStep(c, s, t, o, victims, now);
            && IsReady(s'.board, k)
            && (RedisKey(c, k) in s'.redis <==> HasRoom(c, s, t, o))
            && (s'.board.handles[k].location.Redis? <==> HasRoom(c, s, t, o) || !FallbackGiven(o.fallback))
            && (s'.board.handles[k].forced <==> !HasRoom(c, s, t, o) && !FallbackGiven(o.fallback))
  {
    hide Inv, Chooses, RoomCanBeMade, EvictAll, Value, RedisKey, NoteKey, Averaged;
    var batch := s.board.tasks[t].batch;
    var s1 := Learned(c, s, batch.datasetId, o);
    var incoming := Value(c, s1, batch.id, batch.datasetId);
    LearnedKeeps(c, s, batch.datasetId, o);
    AfterEvictions(c, s1, t, incoming, o.size, victims);
    AdmittedIffRoom(c, s1, incoming, o.size, victims);
  }

  /** A payload larger than the whole cache, reported without a fallback, leaves a handle that names a missing key. */
  lemma ForcedHandleCanDangle(c: Config, s: Sys, t: nat, o: Outcome, now: int)
    requires Inv(c, s) && c.redis && IsRunning(s, t) && s.board.tasks[t].storage.Reusable? && t in s.confirmed
    requires t !in s.made && o.InRedis? && o.fallback.None? && o.seconds.None? && 0 < c.capacity < o.size
    ensures Allowed(c, s, CompleteTask(t, o, None, now))
    ensures var k := s.board.tasks[t].batch.id;
            var s' := CompleteStep(c, s, t, o, None, now);
            IsReady(s'.board, k) && s'.board.handles[k].location.Redis? && s'.board.handles[k].fetchKey !in s'.redis
  {
    hide Inv, Value, NeededBytes, Candidates, BytesIn, RedisKey, NoteKey, Averaged;
    AdmissionOutcome(c, s, t, o, None, now);
  }

  /** Wanted payloads are evicted last: none goes while an unpinned one that no job wants stays. */
  lemma UnwantedGoFirst(c: Config, s: Sys, incoming: real, size: int, victims: seq<string>, v: string, k: string)
    requires JobInv(c, s) && c.reuse && c.beta >= 0.0
    requires Chooses(c, s, incoming, size, Some(victims)) && v in victims
    requires k in CachedKeys(s.board.entries) && !InUse(s.pins, k)
    ensures v in s.board.entries && k in s.board.entries
    ensures s.board.entries[v].datasetId != "" && Wanted(c, s, v, s.board.entries[v].datasetId) ==>
              Wanted(c, s, k, s.board.entries[k].datasetId) || k in victims
  {
    hide JobsSound, Chooses, Value, Wanted, InUse;
    WantedEvictedLast(c, s, incoming, size, victims, v, k);
    ValuePositiveIffWanted(c, s, v, s.board.entries[v].datasetId);
    ValuePositiveIffWanted(c, s, k, s.board.entries[k].datasetId);
  }
}

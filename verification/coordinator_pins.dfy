/** Which jobs are fetching which payloads: the two pin maps of the coordinator store. */
module CoordinatorPins {
  import opened CoordinatorPlan

  datatype Pins = Pins(byKey: Relation, byJob: Relation)

  type Relation = map<string, set<string>>

  predicate Related(m: Relation, a: string, b: string) {
    a in m && b in m[a]
  }

  /** payload_pin_count(k) > 0 */
  predicate InUse(p: Pins, k: string) {
    k in p.byKey && p.byKey[k] != {}
  }

  function KeysOf(p: Pins, j: string): set<string> {
    if j in p.byJob then p.byJob[j] else {}
  }

  predicate NoEmptySets(m: Relation) {
    forall a :: a in m ==> m[a] != {}
  }

  /** Both maps tell the same story, and neither keeps an empty set. */
  ghost predicate PinsAgree(p: Pins) {
    && (forall k: string, j: string :: Related(p.byKey, k, j) <==> Related(p.byJob, j, k))
    && NoEmptySets(p.byKey) && NoEmptySets(p.byJob)
  }

  function With(m: Relation, a: string, b: string): Relation {
    m[a := (if a in m then m[a] else {}) + {b}]
  }

  function Without(m: Relation, a: string, b: string): Relation {
    if a !in m then m else if m[a] - {b} == {} then m - {a} else m[a := m[a] - {b}]
  }

  /** pin_payload for a payload that the store knows. */
  function Pin(p: Pins, k: string, j: string): Pins {
    Pins(With(p.byKey, k, j), With(p.byJob, j, k))
  }

  function Unpin(p: Pins, k: string, j: string): Pins {
    Pins(Without(p.byKey, k, j), Without(p.byJob, j, k))
  }

  /** release_job_payload_pins */
  function Release(p: Pins, j: string): Pins {
    Pins(map k | k in p.byKey && p.byKey[k] - {j} != {} :: p.byKey[k] - {j}, p.byJob - {j})
  }

  lemma WithRelates(m: Relation, a: string, b: string, x: string, y: string)
    ensures Related(With(m, a, b), x, y) <==> Related(m, x, y) || (x == a && y == b)
    ensures NoEmptySets(m) ==> NoEmptySets(With(m, a, b))
  {
  }

  lemma WithoutRelates(m: Relation, a: string, b: string, x: string, y: string)
    ensures Related(Without(m, a, b), x, y) <==> Related(m, x, y) && !(x == a && y == b)
    ensures NoEmptySets(m) ==> NoEmptySets(Without(m, a, b))
  {
    assert y !in {} && (a in m && m[a] - {b} == {} ==> forall c :: c in m[a] ==> c in m[a] - {b} || c == b);
  }

  lemma PinAgrees(p: Pins, k: string, j: string)
    requires PinsAgree(p)
    ensures PinsAgree(Pin(p, k, j)) && KeysOf(Pin(p, k, j), j) == KeysOf(p, j) + {k}
    ensures forall j2 :: j2 != j ==> KeysOf(Pin(p, k, j), j2) == KeysOf(p, j2)
  {
    forall k2: string, j2: string
      ensures Related(Pin(p, k, j).byKey, k2, j2) <==> Related(Pin(p, k, j).byJob, j2, k2)
    {
      WithRelates(p.byKey, k, j, k2, j2);
      WithRelates(p.byJob, j, k, j2, k2);
    }
    WithRelates(p.byKey, k, j, k, j);
    WithRelates(p.byJob, j, k, j, k);
  }

  lemma UnpinAgrees(p: Pins, k: string, j: string)
    requires PinsAgree(p)
    ensures PinsAgree(Unpin(p, k, j)) && KeysOf(Unpin(p, k, j), j) == KeysOf(p, j) - {k}
    ensures forall j2 :: j2 != j ==> KeysOf(Unpin(p, k, j), j2) == KeysOf(p, j2)
  {
    forall k2: string, j2: string
      ensures Related(Unpin(p, k, j).byKey, k2, j2) <==> Related(Unpin(p, k, j).byJob, j2, k2)
    {
      WithoutRelates(p.byKey, k, j, k2, j2);
      WithoutRelates(p.byJob, j, k, j2, k2);
    }
    WithoutRelates(p.byKey, k, j, k, j);
    WithoutRelates(p.byJob, j, k, j, k);
  }

  lemma ReleaseAgrees(p: Pins, j: string)
    requires PinsAgree(p)
    ensures PinsAgree(Release(p, j)) && KeysOf(Release(p, j), j) == {}
    ensures forall j2 :: j2 != j ==> KeysOf(Release(p, j), j2) == KeysOf(p, j2)
  {
    forall k2: string, j2: string
      ensures Related(Release(p, j).byKey, k2, j2) <==> Related(p.byKey, k2, j2) && j2 != j
    {
      assert Related(p.byKey, k2, j2) && j2 != j ==> j2 in p.byKey[k2] - {j};
    }
  }

  /** A payload is in use exactly when some job has it pinned. */
  lemma InUseMeansPinned(p: Pins, k: string)
    requires PinsAgree(p)
    ensures InUse(p, k) <==> exists j: string :: k in KeysOf(p, j)
  {
    if InUse(p, k) {
      var j :| j in p.byKey[k];
      assert Related(p.byKey, k, j) && k in KeysOf(p, j);
    }
    if j: string :| k in KeysOf(p, j) {
      assert Related(p.byJob, j, k) && Related(p.byKey, k, j);
    }
  }

  // What has happened to one job.

  datatype JobEvent = Issued(batch: Batch) | Acked(id: string) | Closed

  /** The batches issued READY to the job and neither acknowledged nor given up since. */
  function Outstanding(history: seq<JobEvent>): set<string> {
    if history == [] then {} else AfterEvent(Outstanding(history[..|history| - 1]), history[|history| - 1])
  }

  function AfterEvent(outstanding: set<string>, e: JobEvent): set<string> {
    match e
    case Issued(batch) => outstanding + {batch.id}
    case Acked(id) => outstanding - {id}
    case Closed => {}
  }

  /** The batches issued READY to the job, in order. */
  function IssuedBatches(history: seq<JobEvent>): seq<Batch> {
    if history == [] then []
    else
      var before := IssuedBatches(history[..|history| - 1]);
      if history[|history| - 1].Issued? then before + [history[|history| - 1].batch] else before
  }

  lemma HistoryGrows(history: seq<JobEvent>, e: JobEvent)
    ensures Outstanding(history + [e]) == AfterEvent(Outstanding(history), e)
    ensures IssuedBatches(history + [e]) == IssuedBatches(history) + if e.Issued? then [e.batch] else []
  {
    assert (history + [e])[..|history|] == history;
  }
}

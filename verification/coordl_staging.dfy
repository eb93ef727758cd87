/** The CoorDL staging area: the two atomic Redis scripts of experiments/baselines/coordl/staging.py. */
module CoorDLStaging {
  import opened Text

  datatype Payload = Payload(samples: seq<nat>, owner: nat)

  /** What Redis holds under the payload keys and under the counter keys. */
  datatype Staged = Staged(payloads: map<string, Payload>, used: map<string, nat>)

  /** PUBLISH: nothing happens when the payload key exists. */
  function PublishScript(s: Staged, id: string, p: Payload): (r: (Staged, bool))
  {
    if id in s.payloads then (s, false)
    else (Staged(s.payloads[id := p], s.used[id := 0]), true)
  }

  function UsedCount(s: Staged, id: string): nat {
    if id in s.used then s.used[id] else 0
  }

  /** CONSUME: count this reader and drop both keys when the last of n readers has read. */
  function ConsumeScript(s: Staged, id: string, n: nat): (r: (Staged, Option<(Payload, nat)>))
  {
    if id !in s.payloads then (s, None)
    else
      var count := UsedCount(s, id) + 1;
      (if count >= n then Staged(s.payloads - {id}, s.used - {id}) else s.(used := s.used[id := count]),
       Some((s.payloads[id], count)))
  }

  function PayloadKey(namespace: string, id: string): string {
    namespace + ":batch:" + id + ":payload"
  }

  function CountKey(namespace: string, id: string): string {
    namespace + ":batch:" + id + ":used"
  }

  /** The two kinds of Redis key never meet, and each names one batch. */
  lemma KeysAreSeparate(namespace: string, a: string, b: string)
    ensures PayloadKey(namespace, a) != CountKey(namespace, b)
    ensures PayloadKey(namespace, a) == PayloadKey(namespace, b) ==> a == b
    ensures CountKey(namespace, a) == CountKey(namespace, b) ==> a == b
  {
    var n := |namespace + ":batch:"|;
    var pa, pb, ca, cb := PayloadKey(namespace, a), PayloadKey(namespace, b), CountKey(namespace, a), CountKey(namespace, b);
    assert pa[|pa| - 2] == 'a' && cb[|cb| - 2] == 'e';
    assert pa[n..|pa| - 8] == a && pb[n..|pb| - 8] == b;
    assert ca[n..|ca| - 5] == a && cb[n..|cb| - 5] == b;
  }

  /** The store object; each method is one atomic Redis call. */
  class StagingStore {
    var payloads: map<string, Payload>
    var used: map<string, nat>

    function Snapshot(): Staged
      reads this
    {
      Staged(payloads, used)
    }

    constructor ()
      ensures Snapshot() == Staged(map[], map[])
    {
      payloads, used := map[], map[];
    }

    method Publish(id: string, p: Payload) returns (created: bool)
      modifies this
      ensures (Snapshot(), created) == PublishScript(old(Snapshot()), id, p)
      ensures created <==> id !in old(payloads)
      ensures payloads == (if created then old(payloads)[id := p] else old(payloads))
      ensures used == (if created then old(used)[id := 0] else old(used))
    {
      if id in payloads {
        return false;
      }
      used := used[id := 0];
      payloads := payloads[id := p];
      created := true;
    }

    method Consume(id: string, n: nat) returns (r: Option<(Payload, nat)>)
      modifies this
      ensures (Snapshot(), r) == ConsumeScript(old(Snapshot()), id, n)
      ensures r.None? <==> id !in old(payloads)
      ensures r.None? ==> payloads == old(payloads) && used == old(used)
      ensures r.Some? ==>
                var count := (if id in old(used) then old(used)[id] else 0) + 1;
                && r.value == (old(payloads)[id], count)
                && payloads == (if count >= n then old(payloads) - {id} else old(payloads))
                && used == (if count >= n then old(used) - {id} else old(used)[id := count])
    {
      if id !in payloads {
        return None;
      }
      var payload := payloads[id];
      used := used[id := if id in used then used[id] + 1 else 1];
      var count := used[id];
      if count >= n {
        payloads := payloads - {id};
        used := used - {id};
        assert used == old(used) - {id};
      }
      r := Some((payload, count));
    }

    method Exists(id: string) returns (present: bool)
      ensures present <==> id in Snapshot().payloads
    {
      present := id in payloads;
    }
  }
}

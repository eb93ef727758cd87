/**
 * TensorProducer and TensorConsumer as objects with the original fields and loops; every method is
 * proved to be the transition of the same name.
 */
module TensorSocketObjects {
  import opened Sequences
  import opened Text
  import opened TensorSocketProducer
  import opened TensorSocketProtocol

  function DrainAll(p: Producer, messages: seq<Control>): Producer {
    if messages == [] then p
    else Drain(DrainAll(p, messages[..|messages| - 1]), messages[|messages| - 1])
  }

  class TensorProducer {
    const c: Config
    var cursor: Cursor
    var nextIndex: nat
    var consumers: map<nat, ConsumerState>
    var buffer: seq<SharedBatch>
    var byIndex: map<int, SharedBatch>

    function Snapshot(): Producer
      reads this
    {
      Producer(cursor, nextIndex, consumers, buffer, byIndex)
    }

    constructor (c: Config)
      ensures this.c == c && Snapshot() == Producer(Cursor(0, 0), 0, map[], [], map[])
    {
      this.c := c;
      cursor, nextIndex, consumers, buffer, byIndex := Cursor(0, 0), 0, map[], [], map[];
    }

    /** _drain_control: handles the messages that have arrived, in order. */
    method DrainControl(messages: seq<Control>)
      modifies this
      ensures Snapshot() == DrainAll(old(Snapshot()), messages)
    {
      for k := 0 to |messages|
        invariant Snapshot() == DrainAll(old(Snapshot()), messages[..k])
      {
        assert messages[..k + 1][..k] == messages[..k];
        match messages[k]
        case Register(id) =>
          if id !in consumers {
            consumers := consumers[id := ConsumerState(-1, -1)];
          }
        case Ack(id, index) =>
          if id in consumers {
            consumers := consumers[id := consumers[id].(lastAcked := Max(consumers[id].lastAcked, index))];
          }
        case Close(id) =>
          if id in consumers {
            consumers := consumers - {id};
          }
          assert consumers == DrainAll(old(Snapshot()), messages[..k]).consumers - {id};
      }
      assert messages[..|messages|] == messages;
    }

    method SlowestAcked() returns (m: int)
      requires consumers != map[]
      ensures m == MinAcked(consumers)
    {
      var todo := consumers.Keys;
      var first :| first in todo;
      m := consumers[first].lastAcked;
      while todo != {}
        invariant todo <= consumers.Keys
        invariant exists id :: id in consumers && consumers[id].lastAcked == m
        invariant forall id :: id in consumers && id !in todo ==> m <= consumers[id].lastAcked
        decreases todo
      {
        var id :| id in todo;
        m := Min(m, consumers[id].lastAcked);
        todo := todo - {id};
      }
    }

    method PruneBuffer()
      modifies this
      ensures Snapshot() == Prune(old(Snapshot()))
      ensures consumers == map[] ==> buffer == [] && byIndex == map[]
    {
      if consumers == map[] {
        buffer, byIndex := [], map[];
        return;
      }
      var m := SlowestAcked();
      while buffer != [] && buffer[0].index <= m
        invariant DropThrough(Snapshot(), m) == DropThrough(old(Snapshot()), m)
        invariant consumers == old(consumers)
        decreases |buffer|
      {
        var b := buffer[0];
        buffer := buffer[1..];
        byIndex := byIndex - {b.index as int};
      }
    }

    /** _next_source_batch: starts the loader over, one epoch on, when it is exhausted. */
    method NextSourceBatch() returns (epoch: nat, content: int)
      requires c.Ok()
      modifies this`cursor
      ensures cursor == Advanced(c, old(cursor))
      ensures SharedBatch(nextIndex, epoch, content) == BatchAt(c, old(cursor), nextIndex)
    {
      if cursor.offset >= |c.loader(cursor.epoch)| {
        cursor := Cursor(cursor.epoch + 1, 0);
      }
      epoch, content := cursor.epoch, c.loader(cursor.epoch)[cursor.offset];
      cursor := cursor.(offset := cursor.offset + 1);
    }

    method FillBufferThrough(k: int)
      requires c.Ok()
      modifies this
      ensures Snapshot() == FillThrough(c, old(Snapshot()), k)
    {
      while nextIndex <= k
        invariant FillThrough(c, Snapshot(), k) == FillThrough(c, old(Snapshot()), k)
        decreases k + 1 - nextIndex
      {
        ghost var before := Snapshot();
        var epoch, content := NextSourceBatch();
        var b := SharedBatch(nextIndex, epoch, content);
        buffer := buffer + [b];
        byIndex := byIndex[b.index as int := b];
        nextIndex := nextIndex + 1;
        assert Snapshot() == FillStep(c, before);
      }
    }

    /** The first loop of _build_messages: which indices each consumer may be sent, and the largest. */
    method RequestedRanges(slowest: int) returns (limits: map<nat, int>, maxNeeded: int)
      ensures maxNeeded == MaxNeeded(c, consumers, slowest)
      ensures limits.Keys == set id | id in consumers && Requests(c, consumers[id], slowest)
      ensures forall id :: id in limits ==> limits[id] == Limit(c, consumers[id], slowest)
      ensures forall id :: id in limits <==>
                (id in consumers && consumers[id].lastSent < consumers[id].lastAcked + c.consumerBuffer
                 && consumers[id].lastSent < slowest + c.maxLag)
      ensures forall id :: id in limits ==> limits[id] == Min(consumers[id].lastAcked + c.consumerBuffer, slowest + c.maxLag) <= maxNeeded
      ensures maxNeeded == -1 || maxNeeded in limits.Values
    {
      limits, maxNeeded := map[], -1;
      var todo := consumers.Keys;
      while todo != {}
        invariant todo <= consumers.Keys
        invariant limits.Keys == set id | id in consumers && id !in todo && Requests(c, consumers[id], slowest)
        invariant forall id :: id in limits ==> limits[id] == Limit(c, consumers[id], slowest) <= maxNeeded
        invariant maxNeeded >= -1
        invariant maxNeeded == -1 || exists id :: id in limits && limits[id] == maxNeeded
        decreases todo
      {
        var id :| id in todo;
        todo := todo - {id};
        var st := consumers[id];
        var capacity := c.consumerBuffer - st.Outstanding();
        if capacity > 0 {
          var end := Min(st.lastSent + 1 + capacity - 1, slowest + c.maxLag);
          if end >= st.lastSent + 1 {
            limits := limits[id := end];
            maxNeeded := Max(maxNeeded, end);
          }
        }
      }
    }

    /** The inner loop of _build_messages: stops at the first index that is not buffered. */
    method CollectMessages(lo: int, hi: int) returns (message: seq<SharedBatch>)
      ensures message == Collect(byIndex, lo, hi)
    {
      message := [];
      var k := lo;
      while k <= hi && k in byIndex
        invariant message + Collect(byIndex, k, hi) == Collect(byIndex, lo, hi)
        decreases hi - k
      {
        message := message + [byIndex[k]];
        k := k + 1;
      }
    }

    /** The second loop of _build_messages: collects and marks what each requesting consumer gets. */
    method SendRequested(limits: map<nat, int>, slowest: int) returns (messages: map<nat, seq<SharedBatch>>)
      requires limits.Keys == set id | id in consumers && Requests(c, consumers[id], slowest)
      requires forall id :: id in limits ==> limits[id] == Limit(c, consumers[id], slowest)
      modifies this`consumers
      ensures Snapshot() == MarkSent(c, old(Snapshot()), slowest)
      ensures forall id :: id in messages <==> id in old(consumers) && Message(c, byIndex, old(consumers)[id], slowest) != []
      ensures forall id :: id in messages ==> messages[id] == Message(c, byIndex, old(consumers)[id], slowest)
    {
      hide Limit, Collect, Requests;
      messages := map[];
      ghost var before := consumers;
      OthersGetNothing(slowest);
      var todo := limits.Keys;
      while todo != {}
        invariant todo <= limits.Keys && consumers.Keys == before.Keys
        invariant forall id :: id in consumers ==>
                    consumers[id] == if id in todo then before[id] else Sent(c, byIndex, before[id], slowest)
        invariant forall id :: id in messages <==>
                    id in before && id !in todo && Message(c, byIndex, before[id], slowest) != []
        invariant forall id :: id in messages ==> messages[id] == Message(c, byIndex, before[id], slowest)
        decreases todo
      {
        var id :| id in todo;
        todo := todo - {id};
        var message := CollectMessages(consumers[id].lastSent + 1, limits[id]);
        assert message == Message(c, byIndex, before[id], slowest);
        if message != [] {
          messages := messages[id := message];
          consumers := consumers[id := consumers[id].(lastSent := message[|message| - 1].index)];
        }
      }
      assert consumers == MarkSent(c, old(Snapshot()), slowest).consumers;
    }

    lemma OthersGetNothing(slowest: int)
      ensures forall id :: id in consumers && !Requests(c, consumers[id], slowest) ==>
                (Message(c, byIndex, consumers[id], slowest) == [] && Sent(c, byIndex, consumers[id], slowest) == consumers[id])
    {
    }

    /** With nothing requested, maxNeeded is -1 and neither the fill nor the second loop does anything. */
    method BuildMessages() returns (messages: map<nat, seq<SharedBatch>>)
      requires c.Ok()
      modifies this
      ensures Snapshot() == Build(c, old(Snapshot()))
      ensures consumers != map[] && Pruned(c, old(Snapshot()), MinAcked(old(consumers))) ==>
                forall id :: id in consumers ==>
                  (id in old(consumers) && SentAllAllowed(c, old(consumers)[id], consumers[id], MinAcked(old(consumers))))
      ensures forall id :: id in messages <==> id in old(consumers) && MessageTo(c, old(Snapshot()), id) != []
      ensures forall id :: id in messages ==> messages[id] == MessageTo(c, old(Snapshot()), id)
    {
      if consumers == map[] {
        return map[];
      }
      var slowest := SlowestAcked();
      var limits, maxNeeded := RequestedRanges(slowest);
      FillBufferThrough(maxNeeded);
      assert Snapshot() == Filled(c, old(Snapshot()));
      messages := SendRequested(limits, slowest);
      if Pruned(c, old(Snapshot()), slowest) {
        forall id | id in consumers
          ensures id in old(consumers) && SentAllAllowed(c, old(consumers)[id], consumers[id], slowest)
        {
          EveryoneWasThere(c, old(Snapshot()), id);
          PassUsesAllCredit(c, old(Snapshot()), id, slowest);
        }
      }
    }
  }

  lemma EveryoneWasThere(c: Config, p: Producer, id: nat)
    requires c.Ok() && id in Build(c, p).consumers
    ensures id in p.consumers
  {
  }

  /** TensorConsumer: the fetch thread's duplicate filter in front of a bounded queue. */
  class TensorConsumer {
    const bufferSize: nat
    var lastReceived: int
    var queue: seq<SharedBatch>
    ghost var received: seq<SharedBatch>

    ghost predicate Shows(cl: Client)
      reads this
    {
      lastReceived == cl.last && queue == cl.queue && received == cl.received
    }

    constructor (bufferSize: nat)
      ensures this.bufferSize == bufferSize && lastReceived == -1 && queue == [] && received == []
    {
      this.bufferSize, lastReceived, queue, received := bufferSize, -1, [], [];
    }

    /** One message of _fetch_loop; blocked means the queue is full and nothing happened yet. */
    method Fetch(b: SharedBatch, ghost cl: Client) returns (blocked: bool, ack: Option<int>)
      requires Shows(cl) && cl.inbox != [] && cl.inbox[0] == b
      modifies this
      ensures blocked <==> b.index > cl.last && |cl.queue| >= bufferSize
      ensures blocked ==> Shows(cl) && ack == None
      ensures !blocked ==> Shows(Accept(cl)) && Accept(cl).control == cl.control + if ack.Some? then [Acked(ack.value)] else []
    {
      if b.index <= lastReceived {
        return false, None;
      }
      if |queue| >= bufferSize {
        return true, None;
      }
      queue := queue + [b];
      received := received + [b];
      lastReceived := b.index;
      return false, Some(b.index as int);
    }
  }
}

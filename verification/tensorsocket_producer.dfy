/**
 * The TensorSocket producer's bookkeeping: credit per consumer, a lag window over all of them,
 * and a buffer of the batches somebody may still need. experiments/baselines/tensorsocket/producer.py.
 */
module TensorSocketProducer {
  import opened Sequences

  /** loader(e) lists the contents the data loader yields in epoch e. */
  datatype Config = Config(loader: nat -> seq<int>, consumerBuffer: nat, maxLag: nat) {
    ghost predicate Ok() {
      consumerBuffer > 0 && maxLag >= consumerBuffer && forall e: nat :: loader(e) != []
    }
  }

  datatype SharedBatch = SharedBatch(index: nat, epoch: nat, content: int)

  datatype ConsumerState = ConsumerState(lastSent: int, lastAcked: int) {
    function Outstanding(): int {
      lastSent - lastAcked
    }
  }

  datatype Cursor = Cursor(epoch: nat, offset: nat)

  datatype Producer = Producer(
    cursor: Cursor,
    nextIndex: nat,
    consumers: map<nat, ConsumerState>,
    buffer: seq<SharedBatch>,
    byIndex: map<int, SharedBatch>)

  datatype Control = Register(id: nat) | Ack(id: nat, index: int) | Close(id: nat)

  // The source stream.

  /** Where the next batch is read: the loader starts over, one epoch on, when it is exhausted. */
  function Rewound(c: Config, at: Cursor): Cursor {
    if at.offset < |c.loader(at.epoch)| then at else Cursor(at.epoch + 1, 0)
  }

  function Advanced(c: Config, at: Cursor): Cursor {
    Rewound(c, at).(offset := Rewound(c, at).offset + 1)
  }

  function CursorAt(c: Config, k: nat): Cursor {
    if k == 0 then Cursor(0, 0) else Advanced(c, CursorAt(c, k - 1))
  }

  ghost function BatchAt(c: Config, at: Cursor, index: nat): SharedBatch
    requires c.Ok()
  {
    SharedBatch(index, Rewound(c, at).epoch, c.loader(Rewound(c, at).epoch)[Rewound(c, at).offset])
  }

  /** The k-th batch of the shared stream. */
  ghost function StreamAt(c: Config, k: nat): SharedBatch
    requires c.Ok()
  {
    BatchAt(c, CursorAt(c, k), k)
  }

  ghost function Stream(c: Config, lo: nat, hi: nat): (s: seq<SharedBatch>)
    requires c.Ok() && lo <= hi
    ensures |s| == hi - lo
  {
    seq(hi - lo, i requires 0 <= i < hi - lo => StreamAt(c, lo + i))
  }

  lemma StreamIndex(c: Config, k: nat)
    requires c.Ok()
    ensures StreamAt(c, k).index == k
  {
  }

  lemma StreamExtend(c: Config, lo: nat, hi: nat)
    requires c.Ok() && lo <= hi
    ensures Stream(c, lo, hi + 1) == Stream(c, lo, hi) + [StreamAt(c, hi)]
  {
  }

  lemma StreamHead(c: Config, lo: nat, hi: nat)
    requires c.Ok() && lo < hi
    ensures Stream(c, lo, hi) == [StreamAt(c, lo)] + Stream(c, lo + 1, hi)
  {
    hide StreamAt;
  }

  lemma StreamEmpty(c: Config, k: nat)
    requires c.Ok()
    ensures Stream(c, k, k) == []
  {
  }

  lemma StreamSplit(c: Config, lo: nat, mid: nat, hi: nat)
    requires c.Ok() && lo <= mid <= hi
    ensures Stream(c, lo, hi) == Stream(c, lo, mid) + Stream(c, mid, hi)
  {
  }

  ghost function Epochs(c: Config, n: nat): seq<seq<int>> {
    seq(n, e requires 0 <= e => c.loader(e))
  }

  lemma {:induction false} CursorInEpoch(c: Config, n: nat, i: nat)
    requires c.Ok() && 0 < i <= |c.loader(n)|
    ensures CursorAt(c, |Flatten(Epochs(c, n))| + i) == Cursor(n, i)
  {
    var before := |Flatten(Epochs(c, n))|;
    if i > 1 {
      CursorInEpoch(c, n, i - 1);
      assert CursorAt(c, before + i) == Advanced(c, CursorAt(c, before + (i - 1)));
    } else if n > 0 {
      assert Epochs(c, n)[..n - 1] == Epochs(c, n - 1);
      CursorInEpoch(c, n - 1, |c.loader(n - 1)|);
      assert CursorAt(c, before + 1) == Advanced(c, CursorAt(c, before));
    } else {
      assert CursorAt(c, 1) == Advanced(c, CursorAt(c, 0));
    }
  }

  /** The shared stream is the loader's epochs one after the other, each batch once. */
  lemma {:induction false} StreamIsTheEpochsInOrder(c: Config, n: nat, k: nat)
    requires c.Ok() && k < |Flatten(Epochs(c, n))|
    ensures StreamAt(c, k).index == k && StreamAt(c, k).content == Flatten(Epochs(c, n))[k]
    ensures StreamAt(c, k).epoch < n
    ensures |Flatten(Epochs(c, StreamAt(c, k).epoch))| <= k < |Flatten(Epochs(c, StreamAt(c, k).epoch + 1))|
  {
    assert Epochs(c, n)[..n - 1] == Epochs(c, n - 1);
    var before := |Flatten(Epochs(c, n - 1))|;
    if k < before {
      StreamIsTheEpochsInOrder(c, n - 1, k);
    } else {
      CursorInEpoch(c, n - 1, k - before + 1);
      assert CursorAt(c, k + 1) == Advanced(c, CursorAt(c, k));
    }
  }

  // Extremes of finite sets.

  ghost function SetMin(s: set<int>): (m: int)
    requires s != {}
    ensures m in s && forall x :: x in s ==> m <= x
  {
    assert (forall x :: x !in s) ==> s == {};
    var x :| x in s;
    if s == {x} then x else
      assert s == {x} + (s - {x});
      Min(x, SetMin(s - {x}))
  }

  ghost function SetMax(s: set<int>): (m: int)
    requires s != {}
    ensures m in s && forall x :: x in s ==> x <= m
  {
    assert (forall x :: x !in s) ==> s == {};
    var x :| x in s;
    if s == {x} then x else
      assert s == {x} + (s - {x});
      Max(x, SetMax(s - {x}))
  }

  // Transitions of the producer.

  /** One control message; a consumer is registered once and its acknowledgements never go back. */
  function Drain(p: Producer, m: Control): Producer {
    match m
    case Register(id) => if id in p.consumers then p else p.(consumers := p.consumers[id := ConsumerState(-1, -1)])
    case Ack(id, k) =>
      if id !in p.consumers then p
      else p.(consumers := p.consumers[id := p.consumers[id].(lastAcked := Max(p.consumers[id].lastAcked, k))])
    case Close(id) => p.(consumers := p.consumers - {id})
  }

  ghost function MinAcked(consumers: map<nat, ConsumerState>): (m: int)
    requires consumers != map[]
    ensures exists id :: id in consumers && consumers[id].lastAcked == m
    ensures forall id :: id in consumers ==> m <= consumers[id].lastAcked
  {
    var acked := set id | id in consumers :: consumers[id].lastAcked;
    assert forall id :: id in consumers ==> consumers[id].lastAcked in acked;
    assert exists id :: id in consumers;
    SetMin(acked)
  }

  /** Drop from the front every batch acknowledged up to m. */
  function DropThrough(p: Producer, m: int): Producer
    decreases |p.buffer|
  {
    if p.buffer == [] || p.buffer[0].index > m then p
    else DropThrough(p.(buffer := p.buffer[1..], byIndex := p.byIndex - {p.buffer[0].index as int}), m)
  }

  ghost function Prune(p: Producer): Producer {
    if p.consumers == map[] then p.(buffer := [], byIndex := map[])
    else DropThrough(p, MinAcked(p.consumers))
  }

  /** The last index a consumer may be sent: its own credit, cut by the lag window behind the slowest. */
  function Limit(c: Config, st: ConsumerState, slowest: int): int {
    Min(st.lastSent + (c.consumerBuffer - st.Outstanding()), slowest + c.maxLag)
  }

  predicate Requests(c: Config, st: ConsumerState, slowest: int) {
    Limit(c, st, slowest) > st.lastSent
  }

  ghost function MaxNeeded(c: Config, consumers: map<nat, ConsumerState>, slowest: int): (m: int)
    ensures m >= -1
    ensures forall id :: id in consumers && Requests(c, consumers[id], slowest) ==> Limit(c, consumers[id], slowest) <= m
    ensures m == -1 || exists id :: id in consumers && Requests(c, consumers[id], slowest) && Limit(c, consumers[id], slowest) == m
  {
    var limits := set id | id in consumers && Requests(c, consumers[id], slowest) :: Limit(c, consumers[id], slowest);
    assert forall id :: id in consumers && Requests(c, consumers[id], slowest) ==> Limit(c, consumers[id], slowest) in limits;
    SetMax({-1} + limits)
  }

  ghost function FillStep(c: Config, p: Producer): Producer
    requires c.Ok()
  {
    var b := BatchAt(c, p.cursor, p.nextIndex);
    Producer(Advanced(c, p.cursor), p.nextIndex + 1, p.consumers, p.buffer + [b], p.byIndex[b.index as int := b])
  }

  ghost function FillThrough(c: Config, p: Producer, k: int): (r: Producer)
    requires c.Ok()
    ensures r.consumers == p.consumers
    decreases k + 1 - p.nextIndex
  {
    if p.nextIndex > k then p else FillThrough(c, FillStep(c, p), k)
  }

  /** The batches lo..hi found in the index map, up to the first that is missing. */
  function Collect(byIndex: map<int, SharedBatch>, lo: int, hi: int): seq<SharedBatch>
    decreases hi - lo
  {
    if lo > hi || lo !in byIndex then [] else [byIndex[lo]] + Collect(byIndex, lo + 1, hi)
  }

  /** What a consumer is sent out of the filled index map. */
  function Message(c: Config, byIndex: map<int, SharedBatch>, st: ConsumerState, slowest: int): seq<SharedBatch> {
    Collect(byIndex, st.lastSent + 1, Limit(c, st, slowest))
  }

  function Sent(c: Config, byIndex: map<int, SharedBatch>, st: ConsumerState, slowest: int): ConsumerState {
    var message := Message(c, byIndex, st, slowest);
    if message == [] then st else st.(lastSent := message[|message| - 1].index)
  }

  /** Marks every consumer's messages as sent. */
  function MarkSent(c: Config, f: Producer, slowest: int): Producer {
    f.(consumers := map id | id in f.consumers :: Sent(c, f.byIndex, f.consumers[id], slowest))
  }

  ghost function Filled(c: Config, p: Producer): (r: Producer)
    requires c.Ok() && p.consumers != map[]
    ensures r.consumers == p.consumers
  {
    FillThrough(c, p, MaxNeeded(c, p.consumers, MinAcked(p.consumers)))
  }

  ghost function Build(c: Config, p: Producer): Producer
    requires c.Ok()
  {
    if p.consumers == map[] then p else MarkSent(c, Filled(c, p), MinAcked(p.consumers))
  }

  /** The messages a sending pass gives consumer id, empty when it has no credit. */
  ghost function MessageTo(c: Config, p: Producer, id: nat): seq<SharedBatch>
    requires c.Ok() && id in p.consumers
  {
    Message(c, Filled(c, p).byIndex, p.consumers[id], MinAcked(p.consumers))
  }

  // Invariant of the producer alone.

  /** The deque and the index map hold the same contiguous stretch of the stream, ending at nextIndex. */
  ghost predicate Buffered(c: Config, p: Producer)
    requires c.Ok()
  {
    && |p.buffer| <= p.nextIndex
    && p.cursor == CursorAt(c, p.nextIndex)
    && p.buffer == Stream(c, p.nextIndex - |p.buffer|, p.nextIndex)
    && (forall i :: i in p.byIndex <==> p.nextIndex - |p.buffer| <= i < p.nextIndex)
    && (forall i :: i in p.byIndex ==> p.byIndex[i] == StreamAt(c, i))
  }

  ghost predicate ConsumerInv(c: Config, p: Producer, id: nat)
    requires id in p.consumers
  {
    var st := p.consumers[id];
    && -1 <= st.lastAcked <= st.lastSent < p.nextIndex
    && p.nextIndex - |p.buffer| <= st.lastAcked + 1
    && st.Outstanding() <= c.consumerBuffer
    && p.nextIndex <= st.lastAcked + 1 + c.maxLag
  }

  ghost predicate ProducerInv(c: Config, p: Producer) {
    && c.Ok() && Buffered(c, p) && |p.buffer| <= c.maxLag
    && forall id :: id in p.consumers ==> ConsumerInv(c, p, id)
  }

  lemma {:induction false} DropThroughBuffered(c: Config, p: Producer, m: int)
    requires c.Ok() && Buffered(c, p)
    ensures Buffered(c, DropThrough(p, m))
    ensures DropThrough(p, m) == p.(buffer := DropThrough(p, m).buffer, byIndex := DropThrough(p, m).byIndex)
    ensures var lo := p.nextIndex - |p.buffer|;
            p.nextIndex - |DropThrough(p, m).buffer| == if m < lo then lo else Min(m + 1, p.nextIndex)
    decreases |p.buffer|
  {
    hide StreamAt, CursorAt;
    if p.buffer != [] {
      StreamIndex(c, p.nextIndex - |p.buffer|);
    }
    if !(p.buffer == [] || p.buffer[0].index > m) {
      var q := p.(buffer := p.buffer[1..], byIndex := p.byIndex - {p.buffer[0].index as int});
      StreamSplit(c, p.nextIndex - |p.buffer|, p.nextIndex - |p.buffer| + 1, p.nextIndex);
      assert q.buffer == Stream(c, p.nextIndex - |q.buffer|, p.nextIndex);
      DropThroughBuffered(c, q, m);
    }
  }

  /** After pruning, the buffer starts right behind the slowest acknowledgement. */
  lemma PruneStartsAtSlowest(c: Config, p: Producer)
    requires ProducerInv(c, p) && p.consumers != map[]
    ensures ProducerInv(c, Prune(p)) && Prune(p).consumers == p.consumers && Prune(p).nextIndex == p.nextIndex
    ensures Pruned(c, Prune(p), MinAcked(p.consumers))
  {
    var m := MinAcked(p.consumers);
    var slow :| slow in p.consumers && p.consumers[slow].lastAcked == m;
    assert ConsumerInv(c, p, slow);
    DropThroughBuffered(c, p, m);
    forall id | id in p.consumers
      ensures ConsumerInv(c, Prune(p), id)
    {
      assert ConsumerInv(c, p, id);
    }
  }

  lemma {:induction false} FillThroughBuffered(c: Config, p: Producer, k: int)
    requires c.Ok() && Buffered(c, p)
    ensures Buffered(c, FillThrough(c, p, k))
    ensures FillThrough(c, p, k).nextIndex == Max(p.nextIndex, k + 1)
    ensures FillThrough(c, p, k).nextIndex - |FillThrough(c, p, k).buffer| == p.nextIndex - |p.buffer|
    decreases k + 1 - p.nextIndex
  {
    if p.nextIndex <= k {
      StreamExtend(c, p.nextIndex - |p.buffer|, p.nextIndex);
      FillThroughBuffered(c, FillStep(c, p), k);
    }
  }

  lemma {:induction false} CollectFindsAll(c: Config, byIndex: map<int, SharedBatch>, lo: nat, hi: int)
    requires c.Ok() && lo <= hi + 1
    requires forall i :: lo <= i <= hi ==> i in byIndex && byIndex[i] == StreamAt(c, i)
    ensures Collect(byIndex, lo, hi) == Stream(c, lo, hi + 1)
    decreases hi - lo
  {
    hide StreamAt, Stream;
    if lo <= hi {
      assert lo in byIndex && byIndex[lo] == StreamAt(c, lo);
      CollectFindsAll(c, byIndex, lo + 1, hi);
      StreamHead(c, lo, hi + 1);
    } else {
      StreamEmpty(c, lo);
    }
  }

  /** m is the slowest acknowledgement and the buffer starts right behind it. */
  ghost predicate Pruned(c: Config, p: Producer, m: int) {
    && ProducerInv(c, p) && p.nextIndex - |p.buffer| == m + 1
    && (forall id :: id in p.consumers ==> m <= p.consumers[id].lastAcked)
    && p.nextIndex <= m + 1 + c.maxLag
  }

  /** f is p filled up to some index in the window that serves every request. */
  ghost predicate FilledFor(c: Config, p: Producer, f: Producer, m: int) {
    && c.Ok() && Buffered(c, f) && f.consumers == p.consumers
    && f.nextIndex - |f.buffer| == m + 1
    && p.nextIndex <= f.nextIndex <= m + 1 + c.maxLag
    && forall id :: id in p.consumers && Requests(c, p.consumers[id], m) ==> Limit(c, p.consumers[id], m) < f.nextIndex
  }

  lemma FillServesRequests(c: Config, p: Producer, m: int)
    requires Pruned(c, p, m)
    ensures FilledFor(c, p, FillThrough(c, p, MaxNeeded(c, p.consumers, m)), m)
  {
    FillThroughBuffered(c, p, MaxNeeded(c, p.consumers, m));
  }

  /** Whatever lies behind the slowest acknowledgement and below nextIndex is found in the index map. */
  lemma FilledHolds(c: Config, f: Producer, m: int, lo: nat, hi: int)
    requires c.Ok() && Buffered(c, f) && f.nextIndex - |f.buffer| == m + 1 <= lo && hi < f.nextIndex
    ensures forall i :: lo <= i <= hi ==> i in f.byIndex && f.byIndex[i] == StreamAt(c, i)
  {
    hide Stream, StreamAt, CursorAt;
  }

  lemma CountersInWindow(c: Config, p: Producer, m: int, id: nat)
    requires Pruned(c, p, m) && id in p.consumers
    ensures -1 <= m <= p.consumers[id].lastAcked <= p.consumers[id].lastSent
  {
    hide Buffered;
    assert ConsumerInv(c, p, id);
    assert |p.buffer| <= p.nextIndex by {
      BufferIsShort(c, p);
    }
  }

  lemma BufferIsShort(c: Config, p: Producer)
    requires c.Ok() && Buffered(c, p)
    ensures |p.buffer| <= p.nextIndex
  {
  }

  /** A consumer with credit is given exactly the stretch of the stream from its last sent index to its limit. */
  lemma MessageIsWholeStretch(c: Config, p: Producer, f: Producer, m: int, id: nat)
    requires Pruned(c, p, m) && FilledFor(c, p, f, m) && id in p.consumers
    ensures -1 <= p.consumers[id].lastSent
    ensures Message(c, f.byIndex, p.consumers[id], m) ==
              if Requests(c, p.consumers[id], m) then Stream(c, p.consumers[id].lastSent + 1, Limit(c, p.consumers[id], m) + 1)
              else []
  {
    hide Pruned, Buffered, Stream, StreamAt, Limit;
    CountersInWindow(c, p, m, id);
    if Requests(c, p.consumers[id], m) {
      FilledHolds(c, f, m, p.consumers[id].lastSent + 1, Limit(c, p.consumers[id], m));
      CollectFindsAll(c, f.byIndex, p.consumers[id].lastSent + 1, Limit(c, p.consumers[id], m));
    }
  }

  lemma SentConsumer(c: Config, p: Producer, f: Producer, m: int, id: nat)
    requires Pruned(c, p, m) && FilledFor(c, p, f, m) && id in p.consumers
    ensures Sent(c, f.byIndex, p.consumers[id], m) ==
              p.consumers[id].(lastSent := Max(p.consumers[id].lastSent, Limit(c, p.consumers[id], m)))
    ensures ConsumerInv(c, MarkSent(c, f, m), id)
  {
    MessageIsWholeStretch(c, p, f, m, id);
    assert ConsumerInv(c, p, id);
  }

  lemma MarkSentKeepsInvariant(c: Config, p: Producer, f: Producer, m: int)
    requires Pruned(c, p, m) && FilledFor(c, p, f, m)
    ensures ProducerInv(c, MarkSent(c, f, m)) && MarkSent(c, f, m).consumers.Keys == p.consumers.Keys
  {
    hide StreamAt, Stream, CursorAt, Sent, ConsumerInv;
    forall id | id in p.consumers
      ensures ConsumerInv(c, MarkSent(c, f, m), id)
    {
      SentConsumer(c, p, f, m, id);
    }
  }

  /** No registration after a batch has been dropped, and no acknowledgement of what was not sent. */
  predicate Timely(p: Producer, m: Control) {
    match m
    case Register(id) => id in p.consumers || |p.buffer| == p.nextIndex
    case Ack(id, k) => id in p.consumers ==> k <= p.consumers[id].lastSent
    case Close(id) => true
  }

  /** A control message keeps the producer's bookkeeping sound exactly if it is timely. */
  lemma DrainKeepsInvariant(c: Config, p: Producer, m: Control)
    requires ProducerInv(c, p)
    ensures ProducerInv(c, Drain(p, m)) <==> Timely(p, m)
  {
    hide Stream, StreamAt, CursorAt;
    match m
    case Register(id) => RegisterKeepsInvariant(c, p, id);
    case Ack(id, k) => AckKeepsInvariant(c, p, id, k);
    case Close(id) => OthersKept(c, p, Drain(p, m), id);
  }

  lemma SameBuffer(c: Config, p: Producer, q: Producer)
    requires c.Ok() && q == p.(consumers := q.consumers)
    ensures Buffered(c, q) <==> Buffered(c, p)
  {
    hide Stream, StreamAt, CursorAt;
  }

  lemma OthersKept(c: Config, p: Producer, q: Producer, id: nat)
    requires ProducerInv(c, p) && q == p.(consumers := q.consumers)
    requires forall x :: x in q.consumers && x != id ==> x in p.consumers && q.consumers[x] == p.consumers[x]
    ensures ProducerInv(c, q) <==> id in q.consumers ==> ConsumerInv(c, q, id)
  {
    hide Buffered;
    SameBuffer(c, p, q);
    forall x | x in q.consumers && x != id
      ensures ConsumerInv(c, q, x)
    {
      assert ConsumerInv(c, p, x);
    }
    hide ConsumerInv;
  }

  lemma RegisterKeepsInvariant(c: Config, p: Producer, id: nat)
    requires ProducerInv(c, p)
    ensures ProducerInv(c, Drain(p, Register(id))) <==> Timely(p, Register(id))
  {
    hide Buffered;
    if id !in p.consumers {
      OthersKept(c, p, Drain(p, Register(id)), id);
      assert |p.buffer| <= p.nextIndex by {
        BufferIsShort(c, p);
      }
    }
  }

  lemma AckKeepsInvariant(c: Config, p: Producer, id: nat, k: int)
    requires ProducerInv(c, p)
    ensures ProducerInv(c, Drain(p, Ack(id, k))) <==> Timely(p, Ack(id, k))
  {
    hide Buffered;
    if id in p.consumers {
      assert ConsumerInv(c, p, id);
      OthersKept(c, p, Drain(p, Ack(id, k)), id);
    }
  }

  /** How far a sending pass gets for a consumer. */
  ghost function Reach(c: Config, consumers: map<nat, ConsumerState>, id: nat): int
    requires id in consumers
  {
    Max(consumers[id].lastSent, Limit(c, consumers[id], MinAcked(consumers)))
  }

  /** One sending pass, seen from one consumer. */
  lemma BuildConsumer(c: Config, p: Producer, id: nat)
    requires id in p.consumers && Pruned(c, p, MinAcked(p.consumers))
    ensures -1 <= p.consumers[id].lastSent
    ensures id in Build(c, p).consumers
    ensures Build(c, p).consumers[id] == p.consumers[id].(lastSent := Reach(c, p.consumers, id))
    ensures MessageTo(c, p, id) == Stream(c, p.consumers[id].lastSent + 1, Reach(c, p.consumers, id) + 1)
  {
    hide Pruned, FilledFor, Stream, Message, Sent, Limit, MinAcked, FillThrough, ConsumerInv;
    var m := MinAcked(p.consumers);
    FillServesRequests(c, p, m);
    SentConsumer(c, p, Filled(c, p), m, id);
    MessageIsWholeStretch(c, p, Filled(c, p), m, id);
    StreamEmpty(c, p.consumers[id].lastSent + 1);
  }

  /** Nobody below is left with both credit and room in the lag window. */
  predicate SentAllAllowed(c: Config, was: ConsumerState, now: ConsumerState, slowest: int) {
    && now.lastAcked == was.lastAcked
    && now.lastSent == Max(was.lastSent, Min(was.lastAcked + c.consumerBuffer, slowest + c.maxLag))
  }

  /**
   * One sending pass takes every consumer exactly as far as its credit and the lag window behind the
   * slowest acknowledgement allow, and sends it exactly the stretch of the stream up to there.
   */
  lemma PassUsesAllCredit(c: Config, p: Producer, id: nat, slowest: int)
    requires id in p.consumers && Pruned(c, p, slowest) && forall x :: x in p.consumers ==> slowest <= p.consumers[x].lastAcked
    requires exists x :: x in p.consumers && p.consumers[x].lastAcked == slowest
    ensures Build(c, p).consumers.Keys == p.consumers.Keys
    ensures SentAllAllowed(c, p.consumers[id], Build(c, p).consumers[id], slowest)
    ensures -1 <= p.consumers[id].lastSent
    ensures MessageTo(c, p, id) == Stream(c, p.consumers[id].lastSent + 1, Build(c, p).consumers[id].lastSent + 1)
  {
    hide Build, MessageTo, Stream, Pruned;
    assert MinAcked(p.consumers) == slowest;
    BuildConsumer(c, p, id);
    BuildKeepsInvariant(c, p);
    hide MinAcked;
  }

  lemma BuildKeepsInvariant(c: Config, p: Producer)
    requires p.consumers != map[] && Pruned(c, p, MinAcked(p.consumers))
    ensures ProducerInv(c, Build(c, p)) && Build(c, p).consumers.Keys == p.consumers.Keys
  {
    FillServesRequests(c, p, MinAcked(p.consumers));
    MarkSentKeepsInvariant(c, p, Filled(c, p), MinAcked(p.consumers));
  }
}

/**
 * The TensorSocket producer and its consumers joined by channels: per consumer one FIFO of data
 * and one FIFO of control messages. experiments/baselines/tensorsocket/producer.py and consumer.py.
 */
module TensorSocketProtocol {
  import opened Sequences
  import opened Text
  import opened TensorSocketProducer

  /** What a consumer tells the producer: that it has a batch, or that it closes. */
  datatype Note = Acked(index: int) | Leaving

  /** queue is the consumer's bounded buffer, received every batch its fetch thread accepted, in order. */
  datatype Client = Client(
    inbox: seq<SharedBatch>,
    control: seq<Note>,
    last: int,
    queue: seq<SharedBatch>,
    received: seq<SharedBatch>,
    closing: bool)

  datatype System = System(producer: Producer, clients: seq<Client>)

  /**
   * LoseData and LoseControl stand for channels that drop a message; the rest is the program's own
   * behaviour. After RequestClose the fetch thread may still take and acknowledge batches that it
   * had already received.
   */
  datatype Action =
    | Pass
    | Receive(client: nat)
    | Take(client: nat)
    | DeliverControl(client: nat)
    | RequestClose(client: nat)
    | LoseData(client: nat, at: nat)
    | LoseControl(client: nat, at: nat)

  datatype Setup = Setup(c: Config, clients: nat, queueSize: nat) {
    ghost predicate Ok() {
      c.Ok() && clients > 0 && queueSize > 0
    }
  }

  function Registered(n: nat): (m: map<nat, ConsumerState>)
    ensures forall i: nat :: i in m <==> i < n
    ensures forall i :: i in m ==> m[i] == ConsumerState(-1, -1)
  {
    if n == 0 then map[] else Registered(n - 1)[n - 1 := ConsumerState(-1, -1)]
  }

  /** Every consumer has registered and nothing has been sent. */
  function Init(u: Setup): System {
    System(Producer(Cursor(0, 0), 0, Registered(u.clients), [], map[]),
           seq(u.clients, _ => Client([], [], -1, [], [], false)))
  }

  predicate Enabled(u: Setup, s: System, a: Action) {
    match a
    case Pass => s.producer.consumers != map[]
    case Receive(i) =>
      && i < |s.clients| && s.clients[i].inbox != []
      && (s.clients[i].inbox[0].index > s.clients[i].last ==> |s.clients[i].queue| < u.queueSize)
    case Take(i) => i < |s.clients| && s.clients[i].queue != []
    case DeliverControl(i) => i < |s.clients| && s.clients[i].control != []
    case RequestClose(i) => i < |s.clients| && !s.clients[i].closing
    case LoseData(i, k) => i < |s.clients| && k < |s.clients[i].inbox|
    case LoseControl(i, k) => i < |s.clients| && k < |s.clients[i].control|
  }

  /** The fetch thread skips what it has seen, otherwise queues the batch and acknowledges it. */
  function Accept(cl: Client): Client
    requires cl.inbox != []
  {
    var b := cl.inbox[0];
    if b.index <= cl.last then cl.(inbox := cl.inbox[1..])
    else Client(cl.inbox[1..], cl.control + [Acked(b.index)], b.index, cl.queue + [b], cl.received + [b], cl.closing)
  }

  /** close, as far as the producer can see it */
  function Closed(cl: Client): Client {
    cl.(control := cl.control + [Leaving], closing := true)
  }

  function Dropped<T>(xs: seq<T>, k: nat): seq<T>
    requires k < |xs|
  {
    xs[..k] + xs[k + 1..]
  }

  /** The control message that a note of consumer i is sent as. */
  function Sending(i: nat, note: Note): Control {
    match note
    case Acked(k) => Ack(i, k)
    case Leaving => Close(i)
  }

  ghost function Push(u: Setup, p: Producer, i: nat, cl: Client): Client
    requires u.Ok()
  {
    if i in p.consumers then cl.(inbox := cl.inbox + MessageTo(u.c, p, i)) else cl
  }

  ghost function Apply(u: Setup, s: System, a: Action): (s': System)
    requires u.Ok() && Enabled(u, s, a)
    ensures |s'.clients| == |s.clients|
  {
    match a
    case Pass =>
      var p := Prune(s.producer);
      System(Build(u.c, p), seq(|s.clients|, i requires 0 <= i < |s.clients| => Push(u, p, i, s.clients[i])))
    case Receive(i) => s.(clients := s.clients[i := Accept(s.clients[i])])
    case Take(i) => s.(clients := s.clients[i := s.clients[i].(queue := s.clients[i].queue[1..])])
    case DeliverControl(i) =>
      System(Drain(s.producer, Sending(i, s.clients[i].control[0])),
             s.clients[i := s.clients[i].(control := s.clients[i].control[1..])])
    case RequestClose(i) => s.(clients := s.clients[i := Closed(s.clients[i])])
    case LoseData(i, k) => s.(clients := s.clients[i := s.clients[i].(inbox := Dropped(s.clients[i].inbox, k))])
    case LoseControl(i, k) => s.(clients := s.clients[i := s.clients[i].(control := Dropped(s.clients[i].control, k))])
  }

  ghost predicate ValidRun(u: Setup, s: System, run: seq<Action>)
    requires u.Ok()
    decreases |run|
  {
    run == [] || (Enabled(u, s, run[0]) && ValidRun(u, Apply(u, s, run[0]), run[1..]))
  }

  ghost function After(u: Setup, s: System, run: seq<Action>): System
    requires u.Ok() && ValidRun(u, s, run)
    decreases |run|
  {
    if run == [] then s else After(u, Apply(u, s, run[0]), run[1..])
  }

  // Over channels that may lose messages.

  predicate Increasing(bs: seq<SharedBatch>) {
    forall i, j :: 0 <= i < j < |bs| ==> bs[i].index < bs[j].index
  }

  ghost predicate Genuine(u: Setup, bs: seq<SharedBatch>)
    requires u.Ok()
  {
    forall i :: 0 <= i < |bs| ==> bs[i] == StreamAt(u.c, bs[i].index)
  }

  function StateOf(p: Producer, i: nat): Option<ConsumerState> {
    if i in p.consumers then Some(p.consumers[i]) else None
  }

  predicate Truthful(cl: Client, note: Note) {
    if note.Acked? then note.index <= cl.last else cl.closing
  }

  /** What survives any loss: true contents, no repeats, and acknowledgements never ahead of sends. */
  ghost predicate LossyClient(u: Setup, cl: Client, st: Option<ConsumerState>)
    requires u.Ok()
  {
    && Genuine(u, cl.inbox) && Genuine(u, cl.received) && Increasing(cl.received)
    && cl.last == (if cl.received == [] then -1 else cl.received[|cl.received| - 1].index)
    && |cl.queue| <= u.queueSize && |cl.queue| <= |cl.received|
    && cl.queue == cl.received[|cl.received| - |cl.queue|..]
    && (forall k :: 0 <= k < |cl.control| ==> Truthful(cl, cl.control[k]))
    && (st.Some? ==>
          && cl.last <= st.value.lastSent
          && forall k :: 0 <= k < |cl.inbox| ==> cl.inbox[k].index <= st.value.lastSent)
  }

  ghost predicate LossyInv(u: Setup, s: System) {
    && u.Ok() && ProducerInv(u.c, s.producer) && |s.clients| == u.clients
    && (forall i :: i in s.producer.consumers ==> i < |s.clients|)
    && (forall i :: 0 <= i < |s.clients| ==> LossyClient(u, s.clients[i], StateOf(s.producer, i)))
  }

  // Over reliable FIFO channels.

  /** The acknowledgements lo, lo + 1, ..., hi - 1. */
  function Span(lo: int, hi: int): seq<int>
    requires lo <= hi
  {
    seq(hi - lo, k requires 0 <= k => lo + k)
  }

  /** The acknowledgements among some notes. */
  function Acks(notes: seq<Note>): seq<int> {
    if notes == [] then []
    else Acks(notes[..|notes| - 1]) + if notes[|notes| - 1].Acked? then [notes[|notes| - 1].index] else []
  }

  lemma AcksAppend(notes: seq<Note>, note: Note)
    ensures Acks(notes + [note]) == Acks(notes) + if note.Acked? then [note.index] else []
  {
    assert (notes + [note])[..|notes|] == notes;
  }

  lemma {:induction false} AcksFront(notes: seq<Note>)
    requires notes != []
    ensures Acks(notes) == (if notes[0].Acked? then [notes[0].index] else []) + Acks(notes[1..])
  {
    var n := |notes| - 1;
    if n > 0 {
      AcksFront(notes[..n]);
      assert notes[..n][1..] == notes[1..][..n - 1] && notes[1..][n - 1] == notes[n];
    }
  }

  /**
   * Nothing is lost or repeated between the producer's counters and a registered consumer: in flight
   * are exactly the batches after the last received up to the last sent, and exactly the
   * acknowledgements after the last counted up to the last received; and a closing consumer is
   * registered only as long as its close message is on its way.
   */
  ghost predicate ReliableClient(u: Setup, cl: Client, st: Option<ConsumerState>)
    requires u.Ok()
  {
    && -1 <= cl.last && cl.received == Stream(u.c, 0, cl.last + 1)
    && cl.inbox == Stream(u.c, cl.last + 1, cl.last + 1 + |cl.inbox|)
    && (st.Some? ==>
          && st.value.lastAcked <= cl.last && cl.last + |cl.inbox| == st.value.lastSent
          && Acks(cl.control) == Span(st.value.lastAcked + 1, cl.last + 1)
          && (cl.closing <==> Leaving in cl.control))
    && (st.None? ==> cl.closing)
  }

  ghost predicate ReliableInv(u: Setup, s: System) {
    LossyInv(u, s) && forall i :: 0 <= i < |s.clients| ==> ReliableClient(u, s.clients[i], StateOf(s.producer, i))
  }

  lemma InitInv(u: Setup)
    requires u.Ok()
    ensures ReliableInv(u, Init(u))
  {
  }

  lemma PassProducer(u: Setup, p: Producer)
    requires u.Ok() && ProducerInv(u.c, p) && p.consumers != map[]
    ensures ProducerInv(u.c, Build(u.c, Prune(p))) && Build(u.c, Prune(p)).consumers.Keys == p.consumers.Keys
  {
    PruneStartsAtSlowest(u.c, p);
    BuildKeepsInvariant(u.c, Prune(p));
  }

  /** What one sending pass does for consumer i. */
  lemma PassConsumer(u: Setup, p: Producer, i: nat)
    requires u.Ok() && ProducerInv(u.c, p) && i in p.consumers
    ensures Prune(p).consumers == p.consumers
    ensures -1 <= p.consumers[i].lastSent
    ensures StateOf(Build(u.c, Prune(p)), i) == Some(p.consumers[i].(lastSent := Reach(u.c, p.consumers, i)))
    ensures MessageTo(u.c, Prune(p), i) == Stream(u.c, p.consumers[i].lastSent + 1, Reach(u.c, p.consumers, i) + 1)
  {
    hide Build, MessageTo, Prune, Stream, Reach, ProducerInv, Pruned;
    PruneStartsAtSlowest(u.c, p);
    BuildConsumer(u.c, Prune(p), i);
  }

  /** A sending pass appends to every registered consumer's channel the stretch up to its reach. */
  lemma PassClient(u: Setup, s: System, i: nat)
    requires LossyInv(u, s) && Enabled(u, s, Pass) && i < |s.clients|
    ensures StateOf(s.producer, i).None? ==>
              Apply(u, s, Pass).clients[i] == s.clients[i] && StateOf(Apply(u, s, Pass).producer, i).None?
    ensures StateOf(s.producer, i).Some? ==>
              var st := s.producer.consumers[i];
              && -1 <= st.lastSent <= Reach(u.c, s.producer.consumers, i)
              && Apply(u, s, Pass).clients[i] ==
                   s.clients[i].(inbox := s.clients[i].inbox + Stream(u.c, st.lastSent + 1, Reach(u.c, s.producer.consumers, i) + 1))
              && StateOf(Apply(u, s, Pass).producer, i) == Some(st.(lastSent := Reach(u.c, s.producer.consumers, i)))
  {
    if i in s.producer.consumers {
      PassConsumer(u, s.producer, i);
    } else {
      PassProducer(u, s.producer);
      PruneKeepsConsumers(s.producer);
    }
  }

  lemma PruneKeepsConsumers(p: Producer)
    ensures Prune(p).consumers == p.consumers
  {
    if p.consumers != map[] {
      DropKeepsConsumers(p, MinAcked(p.consumers));
    }
  }

  lemma {:induction false} DropKeepsConsumers(p: Producer, m: int)
    ensures DropThrough(p, m).consumers == p.consumers
    decreases |p.buffer|
  {
    if !(p.buffer == [] || p.buffer[0].index > m) {
      DropKeepsConsumers(p.(buffer := p.buffer[1..], byIndex := p.byIndex - {p.buffer[0].index as int}), m);
    }
  }

  lemma StretchIsGenuine(u: Setup, lo: nat, hi: nat)
    requires u.Ok() && lo <= hi
    ensures Genuine(u, Stream(u.c, lo, hi))
    ensures forall k :: 0 <= k < hi - lo ==> Stream(u.c, lo, hi)[k].index == lo + k
  {
    hide CursorAt, BatchAt;
    forall k | 0 <= k < hi - lo
      ensures Stream(u.c, lo, hi)[k] == StreamAt(u.c, lo + k) && StreamAt(u.c, lo + k).index == lo + k
    {
      StreamIndex(u.c, lo + k);
    }
    hide Stream, StreamAt;
  }

  lemma GenuineTogether(u: Setup, a: seq<SharedBatch>, b: seq<SharedBatch>)
    requires u.Ok() && Genuine(u, a) && Genuine(u, b)
    ensures Genuine(u, a + b)
  {
    hide StreamAt;
  }

  lemma SendKeepsLossy(u: Setup, cl: Client, st: ConsumerState, upto: int)
    requires u.Ok() && -1 <= st.lastSent <= upto && LossyClient(u, cl, Some(st))
    ensures LossyClient(u, cl.(inbox := cl.inbox + Stream(u.c, st.lastSent + 1, upto + 1)), Some(st.(lastSent := upto)))
  {
    hide Genuine, Increasing, Stream;
    StretchIsGenuine(u, st.lastSent + 1, upto + 1);
    GenuineTogether(u, cl.inbox, Stream(u.c, st.lastSent + 1, upto + 1));
  }

  lemma AcceptKeepsLossy(u: Setup, cl: Client, st: Option<ConsumerState>)
    requires u.Ok() && LossyClient(u, cl, st) && cl.inbox != []
    requires cl.inbox[0].index > cl.last ==> |cl.queue| < u.queueSize
    ensures LossyClient(u, Accept(cl), st)
  {
    if cl.inbox[0].index > cl.last {
      AcceptKeepsReceived(u, cl);
    }
  }

  lemma AcceptKeepsReceived(u: Setup, cl: Client)
    requires u.Ok() && cl.inbox != [] && cl.inbox[0].index > cl.last
    requires Genuine(u, cl.inbox) && Genuine(u, cl.received) && Increasing(cl.received)
    requires cl.last == (if cl.received == [] then -1 else cl.received[|cl.received| - 1].index)
    requires |cl.queue| <= |cl.received| && cl.queue == cl.received[|cl.received| - |cl.queue|..]
    ensures Genuine(u, Accept(cl).received) && Increasing(Accept(cl).received)
    ensures Accept(cl).queue == Accept(cl).received[|Accept(cl).received| - |Accept(cl).queue|..]
  {
    assert forall i :: 0 <= i < |cl.received| ==> cl.received[i].index <= cl.last;
  }

  lemma LoseKeepsLossy(u: Setup, cl: Client, st: Option<ConsumerState>, k: nat)
    requires u.Ok() && LossyClient(u, cl, st)
    ensures k < |cl.inbox| ==> LossyClient(u, cl.(inbox := Dropped(cl.inbox, k)), st)
    ensures k < |cl.control| ==> LossyClient(u, cl.(control := Dropped(cl.control, k)), st)
  {
    hide Increasing, StreamAt;
  }

  /** What the producer knows of a consumer after one of its notes has arrived. */
  function Noted(note: Note, st: Option<ConsumerState>): Option<ConsumerState> {
    if st.None? || note.Leaving? then None else Some(st.value.(lastAcked := Max(st.value.lastAcked, note.index)))
  }

  lemma NoteKeepsLossy(u: Setup, cl: Client, st: Option<ConsumerState>)
    requires u.Ok() && LossyClient(u, cl, st) && cl.control != []
    ensures LossyClient(u, cl.(control := cl.control[1..]), Noted(cl.control[0], st))
  {
    hide Increasing, Genuine;
  }

  lemma CloseKeepsLossy(u: Setup, cl: Client, st: Option<ConsumerState>)
    requires u.Ok() && LossyClient(u, cl, st)
    ensures LossyClient(u, Closed(cl), st)
  {
    hide Increasing, Genuine;
  }

  /** A step other than a sending pass concerns one consumer only. */
  lemma OthersUntouched(u: Setup, s: System, a: Action, i: nat)
    requires u.Ok() && Enabled(u, s, a) && !a.Pass? && i < |s.clients|
    ensures i != a.client ==> Apply(u, s, a).clients[i] == s.clients[i]
                              && StateOf(Apply(u, s, a).producer, i) == StateOf(s.producer, i)
    ensures a == DeliverControl(i) ==>
              StateOf(Apply(u, s, a).producer, i) == Noted(s.clients[i].control[0], StateOf(s.producer, i))
    ensures !a.DeliverControl? ==> StateOf(Apply(u, s, a).producer, i) == StateOf(s.producer, i)
  {
  }

  lemma TakeKeepsLossy(u: Setup, cl: Client, st: Option<ConsumerState>)
    requires u.Ok() && LossyClient(u, cl, st) && cl.queue != []
    ensures LossyClient(u, cl.(queue := cl.queue[1..]), st)
  {
    hide Genuine, Increasing;
  }

  lemma SendKeepsReliable(u: Setup, cl: Client, st: ConsumerState, upto: int)
    requires u.Ok() && -1 <= st.lastSent <= upto && ReliableClient(u, cl, Some(st))
    ensures ReliableClient(u, cl.(inbox := cl.inbox + Stream(u.c, st.lastSent + 1, upto + 1)), Some(st.(lastSent := upto)))
  {
    hide StreamAt, Acks, Span;
    StreamSplit(u.c, cl.last + 1, st.lastSent + 1, upto + 1);
  }

  lemma AcceptKeepsReliable(u: Setup, cl: Client, st: Option<ConsumerState>)
    requires u.Ok() && ReliableClient(u, cl, st) && cl.inbox != []
    ensures cl.inbox[0] == StreamAt(u.c, cl.last + 1)
    ensures ReliableClient(u, Accept(cl), st)
  {
    hide Acks;
    StreamSplit(u.c, cl.last + 1, cl.last + 2, cl.last + 1 + |cl.inbox|);
    StreamExtend(u.c, 0, cl.last + 1);
    assert cl.inbox[0] == StreamAt(u.c, cl.last + 1);
    AcksAppend(cl.control, Acked(cl.last + 1));
    if st.Some? {
      assert Span(st.value.lastAcked + 1, cl.last + 2) == Span(st.value.lastAcked + 1, cl.last + 1) + [cl.last + 1];
    }
  }

  lemma NoteKeepsReliable(u: Setup, cl: Client, st: Option<ConsumerState>)
    requires u.Ok() && ReliableClient(u, cl, st) && cl.control != [] && Truthful(cl, cl.control[0])
    ensures st.Some? && cl.control[0].Acked? ==> cl.control[0].index == st.value.lastAcked + 1
    ensures ReliableClient(u, cl.(control := cl.control[1..]), Noted(cl.control[0], st))
  {
    hide StreamAt, Acks, Stream;
    AcksFront(cl.control);
    if st.Some? && cl.control[0].Acked? {
      assert Acks(cl.control)[0] == st.value.lastAcked + 1;
      assert Acks(cl.control[1..]) == Acks(cl.control)[1..] == Span(st.value.lastAcked + 2, cl.last + 1);
    }
  }

  lemma CloseKeepsReliable(u: Setup, cl: Client, st: Option<ConsumerState>)
    requires u.Ok() && ReliableClient(u, cl, st)
    ensures ReliableClient(u, Closed(cl), st)
  {
    hide StreamAt, Acks, Stream, Span;
    AcksAppend(cl.control, Leaving);
  }

  lemma PassKeepsLossyClient(u: Setup, s: System, i: nat)
    requires LossyInv(u, s) && Enabled(u, s, Pass) && i < |s.clients|
    ensures LossyClient(u, Apply(u, s, Pass).clients[i], StateOf(Apply(u, s, Pass).producer, i))
  {
    hide Build, MessageTo, Prune, Stream, Reach, ProducerInv, Apply, LossyClient;
    assert LossyClient(u, s.clients[i], StateOf(s.producer, i));
    PassClient(u, s, i);
    if i in s.producer.consumers {
      SendKeepsLossy(u, s.clients[i], s.producer.consumers[i], Reach(u.c, s.producer.consumers, i));
    }
  }

  lemma StepKeepsLossyClient(u: Setup, s: System, a: Action, i: nat)
    requires u.Ok() && Enabled(u, s, a) && !a.Pass? && i < |s.clients|
    requires LossyClient(u, s.clients[i], StateOf(s.producer, i))
    ensures LossyClient(u, Apply(u, s, a).clients[i], StateOf(Apply(u, s, a).producer, i))
  {
    hide LossyClient;
    var cl, st := s.clients[i], StateOf(s.producer, i);
    OthersUntouched(u, s, a, i);
    if a.client == i {
      match a
      case Receive(_) => AcceptKeepsLossy(u, cl, st);
      case Take(_) => TakeKeepsLossy(u, cl, st);
      case DeliverControl(_) => NoteKeepsLossy(u, cl, st);
      case LoseData(_, k) => LoseKeepsLossy(u, cl, st, k);
      case LoseControl(_, k) => LoseKeepsLossy(u, cl, st, k);
      case RequestClose(_) => CloseKeepsLossy(u, cl, st);
    }
  }

  /** A consumer acknowledges only what it has been sent. */
  lemma NotesAreTimely(u: Setup, s: System, i: nat)
    requires LossyInv(u, s) && i < |s.clients| && s.clients[i].control != []
    ensures Timely(s.producer, Sending(i, s.clients[i].control[0]))
  {
    hide ProducerInv, Genuine, Increasing;
    assert LossyClient(u, s.clients[i], StateOf(s.producer, i)) && Truthful(s.clients[i], s.clients[i].control[0]);
  }

  lemma StepKeepsProducer(u: Setup, s: System, a: Action)
    requires LossyInv(u, s) && Enabled(u, s, a)
    ensures ProducerInv(u.c, Apply(u, s, a).producer)
    ensures forall i :: i in Apply(u, s, a).producer.consumers ==> i < |s.clients|
  {
    hide ProducerInv, LossyClient, Build, Prune, Timely, MessageTo;
    match a
    case Pass => PassProducer(u, s.producer);
      PruneKeepsConsumers(s.producer);
    case DeliverControl(i) =>
      NotesAreTimely(u, s, i);
      DrainKeepsInvariant(u.c, s.producer, Sending(i, s.clients[i].control[0]));
    case _ =>
  }

  lemma StepKeepsLossy(u: Setup, s: System, a: Action)
    requires LossyInv(u, s) && Enabled(u, s, a)
    ensures LossyInv(u, Apply(u, s, a))
  {
    StepKeepsProducer(u, s, a);
    forall i | 0 <= i < |s.clients|
      ensures LossyClient(u, Apply(u, s, a).clients[i], StateOf(Apply(u, s, a).producer, i))
    {
      if a.Pass? {
        PassKeepsLossyClient(u, s, i);
      } else {
        StepKeepsLossyClient(u, s, a, i);
      }
    }
  }

  lemma PassKeepsReliableClient(u: Setup, s: System, i: nat)
    requires ReliableInv(u, s) && Enabled(u, s, Pass) && i < |s.clients|
    ensures ReliableClient(u, Apply(u, s, Pass).clients[i], StateOf(Apply(u, s, Pass).producer, i))
  {
    hide Build, MessageTo, Prune, Stream, Reach, ProducerInv, Apply, LossyClient, ReliableClient;
    assert ReliableClient(u, s.clients[i], StateOf(s.producer, i));
    PassClient(u, s, i);
    if i in s.producer.consumers {
      SendKeepsReliable(u, s.clients[i], s.producer.consumers[i], Reach(u.c, s.producer.consumers, i));
    }
  }

  lemma StepKeepsReliableClient(u: Setup, s: System, a: Action, i: nat)
    requires u.Ok() && Enabled(u, s, a) && !a.Pass? && !IsLoss(a) && i < |s.clients|
    requires ReliableClient(u, s.clients[i], StateOf(s.producer, i)) && LossyClient(u, s.clients[i], StateOf(s.producer, i))
    ensures ReliableClient(u, Apply(u, s, a).clients[i], StateOf(Apply(u, s, a).producer, i))
  {
    hide Stream, Acks, Span, Genuine, Increasing;
    var cl, st := s.clients[i], StateOf(s.producer, i);
    OthersUntouched(u, s, a, i);
    if a.client == i {
      match a
      case Receive(_) => AcceptKeepsReliable(u, cl, st);
      case DeliverControl(_) =>
        assert Truthful(cl, cl.control[0]);
        NoteKeepsReliable(u, cl, st);
      case RequestClose(_) => CloseKeepsReliable(u, cl, st);
      case _ =>
    }
  }

  predicate IsLoss(a: Action) {
    a.LoseData? || a.LoseControl?
  }

  lemma StepKeepsReliable(u: Setup, s: System, a: Action)
    requires ReliableInv(u, s) && Enabled(u, s, a) && !IsLoss(a)
    ensures ReliableInv(u, Apply(u, s, a))
  {
    StepKeepsLossy(u, s, a);
    forall i | 0 <= i < |s.clients|
      ensures ReliableClient(u, Apply(u, s, a).clients[i], StateOf(Apply(u, s, a).producer, i))
    {
      if a.Pass? {
        PassKeepsReliableClient(u, s, i);
      } else {
        StepKeepsReliableClient(u, s, a, i);
      }
    }
  }

  lemma {:induction false} RunKeepsLossy(u: Setup, s: System, run: seq<Action>)
    requires LossyInv(u, s) && ValidRun(u, s, run)
    ensures LossyInv(u, After(u, s, run))
    decreases |run|
  {
    if run != [] {
      StepKeepsLossy(u, s, run[0]);
      RunKeepsLossy(u, Apply(u, s, run[0]), run[1..]);
    }
  }

  predicate LosesNothing(run: seq<Action>) {
    forall k :: 0 <= k < |run| ==> !IsLoss(run[k])
  }

  lemma {:induction false} RunKeepsReliable(u: Setup, s: System, run: seq<Action>)
    requires ReliableInv(u, s) && ValidRun(u, s, run) && LosesNothing(run)
    ensures ReliableInv(u, After(u, s, run))
    decreases |run|
  {
    if run != [] {
      StepKeepsReliable(u, s, run[0]);
      RunKeepsReliable(u, Apply(u, s, run[0]), run[1..]);
    }
  }

  /** Over reliable channels every consumer has received a gap-free prefix of the one shared stream. */
  lemma DeliveryIsAPrefix(u: Setup, run: seq<Action>, i: nat)
    requires u.Ok() && ValidRun(u, Init(u), run) && LosesNothing(run) && i < u.clients
    ensures |After(u, Init(u), run).clients| == u.clients
    ensures var got := After(u, Init(u), run).clients[i].received;
            got == Stream(u.c, 0, |got|)
  {
    InitInv(u);
    RunKeepsReliable(u, Init(u), run);
    assert ReliableClient(u, After(u, Init(u), run).clients[i], StateOf(After(u, Init(u), run).producer, i));
  }

  /** Over reliable channels the producer knows a consumer until its close message has arrived, and no longer. */
  lemma ClosedIsForgotten(u: Setup, run: seq<Action>, i: nat)
    requires u.Ok() && ValidRun(u, Init(u), run) && LosesNothing(run) && i < u.clients
    ensures |After(u, Init(u), run).clients| == u.clients
    ensures var s := After(u, Init(u), run);
            && (!s.clients[i].closing ==> i in s.producer.consumers)
            && (s.clients[i].closing && s.clients[i].control == [] ==> i !in s.producer.consumers)
  {
    InitInv(u);
    RunKeepsReliable(u, Init(u), run);
    assert ReliableClient(u, After(u, Init(u), run).clients[i], StateOf(After(u, Init(u), run).producer, i));
    hide *;
  }

  /** Even when messages of either kind are lost, what is received is strictly increasing and has the stream's contents. */
  lemma LossyDeliveryIsASubstream(u: Setup, run: seq<Action>, i: nat)
    requires u.Ok() && ValidRun(u, Init(u), run) && i < u.clients
    ensures |After(u, Init(u), run).clients| == u.clients
    ensures Increasing(After(u, Init(u), run).clients[i].received)
    ensures Genuine(u, After(u, Init(u), run).clients[i].received)
  {
    InitInv(u);
    RunKeepsLossy(u, Init(u), run);
    assert LossyClient(u, After(u, Init(u), run).clients[i], StateOf(After(u, Init(u), run).producer, i));
  }

  lemma BoundsFromInvariant(c: Config, p: Producer, i: nat, j: nat, k: int)
    requires ProducerInv(c, p)
    ensures Retained(c, p, i, k) && WithinBounds(c, p, i, j)
  {
    if i in p.consumers {
      assert ConsumerInv(c, p, i);
    }
    if j in p.consumers {
      assert ConsumerInv(c, p, j);
    }
  }

  /** Deque and index map hold the same stretch of the stream, and in it all that i has not acknowledged. */
  ghost predicate Retained(c: Config, p: Producer, i: nat, k: int)
    requires c.Ok()
  {
    && |p.buffer| <= p.nextIndex && p.buffer == Stream(c, p.nextIndex - |p.buffer|, p.nextIndex)
    && (forall x :: x in p.byIndex <==> p.nextIndex - |p.buffer| <= x < p.nextIndex)
    && (i in p.consumers && p.consumers[i].lastAcked < k < p.nextIndex ==>
          0 <= k && k in p.byIndex && p.byIndex[k] == StreamAt(c, k))
  }

  ghost predicate WithinBounds(c: Config, p: Producer, i: nat, j: nat) {
    && |p.buffer| <= c.maxLag
    && (i in p.consumers ==> 0 <= p.consumers[i].Outstanding() <= c.consumerBuffer)
    && (i in p.consumers && j in p.consumers ==> p.consumers[i].lastSent - p.consumers[j].lastAcked <= c.maxLag)
  }

  /**
   * Retention and flow control, whatever data, acknowledgements or close messages are lost:
   * everything a registered consumer has not acknowledged is still buffered, and the buffer, each
   * credit and the lag stay in bounds.
   */
  lemma RetentionAndBounds(u: Setup, run: seq<Action>, i: nat, j: nat, k: int)
    requires u.Ok() && ValidRun(u, Init(u), run)
    ensures Retained(u.c, After(u, Init(u), run).producer, i, k)
    ensures WithinBounds(u.c, After(u, Init(u), run).producer, i, j)
  {
    InitInv(u);
    RunKeepsLossy(u, Init(u), run);
    BoundsFromInvariant(u.c, After(u, Init(u), run).producer, i, j, k);
  }
}

/** Over reliable channels, and while nobody leaves, every consumer is eventually served every batch. */
module TensorSocketProgress {
  import opened Sequences
  import opened Text
  import opened TensorSocketProducer
  import opened TensorSocketProtocol

  predicate Open(s: System) {
    forall i :: 0 <= i < |s.clients| ==> i in s.producer.consumers && !s.clients[i].closing
  }

  /** A step that moves a batch or an acknowledgement; a sending pass without messages is only polling. */
  ghost predicate Productive(u: Setup, s: System, a: Action)
    requires u.Ok()
  {
    && Enabled(u, s, a)
    && match a
       case Pass => exists i :: 0 <= i < |s.clients| && i in s.producer.consumers
                                && Reach(u.c, s.producer.consumers, i) > s.producer.consumers[i].lastSent
       case Receive(_) => true
       case Take(_) => true
       case DeliverControl(_) => true
       case _ => false
  }

  ghost predicate ProductiveRun(u: Setup, s: System, run: seq<Action>)
    requires u.Ok()
    decreases |run|
  {
    run == [] || (Productive(u, s, run[0]) && ProductiveRun(u, Apply(u, s, run[0]), run[1..]))
  }

  lemma {:induction false} ProductiveRunIsValid(u: Setup, s: System, run: seq<Action>)
    requires u.Ok() && ProductiveRun(u, s, run)
    ensures ValidRun(u, s, run) && LosesNothing(run)
    decreases |run|
  {
    if run != [] {
      ProductiveRunIsValid(u, Apply(u, s, run[0]), run[1..]);
    }
  }

  /** How far a consumer has come: sent, received, taken and acknowledged batches. */
  function Score(cl: Client, st: Option<ConsumerState>): nat {
    if st.None? then 0
    else Max(0, st.value.lastSent + 1) + Max(0, cl.last + 1) + Max(0, |cl.received| - |cl.queue|)
         + Max(0, st.value.lastAcked + 1)
  }

  function Scores(s: System): (r: seq<nat>)
    ensures |r| == |s.clients|
  {
    seq(|s.clients|, i requires 0 <= i < |s.clients| => Score(s.clients[i], StateOf(s.producer, i)))
  }

  lemma AcceptScore(u: Setup, cl: Client, st: Option<ConsumerState>)
    requires u.Ok() && ReliableClient(u, cl, st) && st.Some? && |cl.queue| <= |cl.received| && cl.inbox != []
    ensures Score(Accept(cl), st) == Score(cl, st) + 1 && Accept(cl).closing == cl.closing
  {
    AcceptKeepsReliable(u, cl, st);
    StreamIndex(u.c, cl.last + 1);
  }

  lemma AckScore(u: Setup, cl: Client, st: Option<ConsumerState>)
    requires u.Ok() && ReliableClient(u, cl, st) && st.Some? && st.value.lastAcked >= -1
    requires cl.control != [] && cl.control[0].Acked? && Truthful(cl, cl.control[0])
    ensures Score(cl.(control := cl.control[1..]), Noted(cl.control[0], st)) == Score(cl, st) + 1
  {
    NoteKeepsReliable(u, cl, st);
    hide ReliableClient;
  }

  lemma ClientScore(u: Setup, s: System, a: Action, i: nat)
    requires ReliableInv(u, s) && Open(s) && Productive(u, s, a) && !a.Pass? && i < |s.clients|
    ensures i in Apply(u, s, a).producer.consumers && !Apply(u, s, a).clients[i].closing
    ensures Scores(Apply(u, s, a))[i] == Scores(s)[i] + if a.client == i then 1 else 0
  {
    var cl, st := s.clients[i], StateOf(s.producer, i);
    assert ReliableClient(u, cl, st);
    ClientInvBounds(u, s, i);
    hide ReliableInv, ReliableClient, Genuine, Increasing, ProducerInv;
    OthersUntouched(u, s, a, i);
    if a.client == i {
      if a.Receive? {
        AcceptScore(u, cl, st);
      } else if a.DeliverControl? {
        AckScore(u, cl, st);
      }
    }
  }

  lemma ClientInvBounds(u: Setup, s: System, i: nat)
    requires ReliableInv(u, s) && i in s.producer.consumers
    ensures -1 <= s.producer.consumers[i].lastAcked <= s.producer.consumers[i].lastSent
    ensures i < |s.clients| && -1 <= s.clients[i].last
    ensures |s.clients[i].queue| <= |s.clients[i].received|
    ensures !s.clients[i].closing && s.clients[i].control != [] ==>
              s.clients[i].control[0].Acked? && Truthful(s.clients[i], s.clients[i].control[0])
  {
    assert ConsumerInv(u.c, s.producer, i);
    assert ReliableClient(u, s.clients[i], StateOf(s.producer, i)) && LossyClient(u, s.clients[i], StateOf(s.producer, i));
  }

  lemma PassScore(u: Setup, s: System, i: nat)
    requires ReliableInv(u, s) && Open(s) && Enabled(u, s, Pass) && i < |s.clients|
    ensures Apply(u, s, Pass).clients[i].closing == s.clients[i].closing
    ensures i in Apply(u, s, Pass).producer.consumers
    ensures Scores(Apply(u, s, Pass))[i] == Scores(s)[i] + (Reach(u.c, s.producer.consumers, i) - s.producer.consumers[i].lastSent)
    ensures Reach(u.c, s.producer.consumers, i) >= s.producer.consumers[i].lastSent
  {
    hide Build, Prune, Stream, Reach, ProducerInv, LossyInv;
    PassClient(u, s, i);
    ClientInvBounds(u, s, i);
  }

  /** Whether step a is one that takes consumer i forward. */
  ghost predicate Advances(u: Setup, s: System, a: Action, i: nat)
    requires i in s.producer.consumers
  {
    if a.Pass? then Reach(u.c, s.producer.consumers, i) > s.producer.consumers[i].lastSent else a.client == i
  }

  lemma StepScoreAt(u: Setup, s: System, a: Action, i: nat)
    requires ReliableInv(u, s) && Open(s) && Productive(u, s, a) && i < |s.clients|
    ensures i in Apply(u, s, a).producer.consumers && !Apply(u, s, a).clients[i].closing
    ensures Scores(Apply(u, s, a))[i] >= Scores(s)[i] + if Advances(u, s, a, i) then 1 else 0
  {
    hide ReliableInv, Reach, Scores, Apply;
    if a.Pass? {
      PassScore(u, s, i);
    } else {
      ClientScore(u, s, a, i);
    }
  }

  lemma SomeoneAdvances(u: Setup, s: System, a: Action) returns (i: nat)
    requires u.Ok() && Open(s) && Productive(u, s, a)
    ensures i < |s.clients| && Advances(u, s, a, i)
  {
    if a.Pass? {
      i :| 0 <= i < |s.clients| && i in s.producer.consumers
           && Reach(u.c, s.producer.consumers, i) > s.producer.consumers[i].lastSent;
    } else {
      i := a.client;
    }
  }

  lemma ReliableMeansOk(u: Setup, s: System)
    requires ReliableInv(u, s)
    ensures u.Ok()
  {
  }

  lemma StepScore(u: Setup, s: System, a: Action)
    requires ReliableInv(u, s) && Open(s) && Productive(u, s, a)
    ensures Sum(Scores(Apply(u, s, a))) > Sum(Scores(s))
  {
    hide ReliableInv, Reach, Scores, Apply, Advances, Open;
    ReliableMeansOk(u, s);
    var one := SomeoneAdvances(u, s, a);
    var s' := Apply(u, s, a);
    forall i: nat | i < |s.clients|
      ensures Scores(s')[i] >= Scores(s)[i]
    {
      StepScoreAt(u, s, a, i);
    }
    StepScoreAt(u, s, a, one);
    SumMonotone(Scores(s), Scores(s'));
  }

  lemma StepStaysOpen(u: Setup, s: System, a: Action)
    requires ReliableInv(u, s) && Open(s) && Productive(u, s, a)
    ensures Open(Apply(u, s, a))
  {
    forall i: nat | i < |s.clients|
      ensures i in Apply(u, s, a).producer.consumers && !Apply(u, s, a).clients[i].closing
    {
      StepScoreAt(u, s, a, i);
    }
  }

  lemma {:induction false} RunScore(u: Setup, s: System, run: seq<Action>)
    requires ReliableInv(u, s) && Open(s) && ProductiveRun(u, s, run) && ValidRun(u, s, run)
    ensures Open(After(u, s, run)) && ReliableInv(u, After(u, s, run))
    ensures Sum(Scores(After(u, s, run))) >= Sum(Scores(s)) + |run|
    decreases |run|
  {
    if run != [] {
      StepScore(u, s, run[0]);
      StepStaysOpen(u, s, run[0]);
      StepKeepsReliable(u, s, run[0]);
      RunScore(u, Apply(u, s, run[0]), run[1..]);
    }
  }

  lemma LagBoundsScore(u: Setup, s: System, i: nat, j: nat, k: nat)
    requires ReliableInv(u, s) && i in s.producer.consumers && j in s.producer.consumers
    requires s.producer.consumers[i].lastAcked + 1 < k
    ensures j < |s.clients| && Score(s.clients[j], StateOf(s.producer, j)) <= 4 * (k + u.c.maxLag)
  {
    hide Buffered, LossyClient, Stream, Acks, Span;
    assert ConsumerInv(u.c, s.producer, i) && ConsumerInv(u.c, s.producer, j);
    assert ReliableClient(u, s.clients[j], StateOf(s.producer, j));
    hide ReliableInv;
  }

  /** While one consumer has acknowledged fewer than k batches, the lag window holds back all the others. */
  lemma LaggardBoundsScores(u: Setup, s: System, i: nat, k: nat)
    requires ReliableInv(u, s) && Open(s) && i < |s.clients| && s.producer.consumers[i].lastAcked + 1 < k
    ensures Sum(Scores(s)) <= |s.clients| * (4 * (k + u.c.maxLag))
  {
    hide ReliableInv, Score;
    forall j: nat | j < |s.clients|
      ensures Scores(s)[j] <= 4 * (k + u.c.maxLag)
    {
      LagBoundsScore(u, s, i, j, k);
    }
    hide Scores, Open;
    SumBound(Scores(s), 4 * (k + u.c.maxLag));
  }

  lemma SlowestClient(u: Setup, s: System) returns (i: nat)
    requires ReliableInv(u, s) && Open(s)
    ensures i in s.producer.consumers && i < |s.clients| && !s.clients[i].closing
    ensures s.producer.consumers[i].lastAcked == MinAcked(s.producer.consumers)
  {
    assert 0 in s.producer.consumers;
    i :| i in s.producer.consumers && s.producer.consumers[i].lastAcked == MinAcked(s.producer.consumers);
  }

  lemma IdleIsServed(u: Setup, s: System, i: nat)
    requires u.Ok() && i in s.producer.consumers && s.producer.consumers[i].lastAcked == MinAcked(s.producer.consumers)
    requires s.producer.consumers[i].lastAcked == s.producer.consumers[i].lastSent
    ensures Reach(u.c, s.producer.consumers, i) > s.producer.consumers[i].lastSent
  {
  }

  lemma NothingInFlight(u: Setup, cl: Client, st: ConsumerState)
    requires u.Ok() && ReliableClient(u, cl, Some(st)) && cl.inbox == [] && cl.control == []
    ensures st.lastAcked == st.lastSent
  {
    assert |Span(st.lastAcked + 1, cl.last + 1)| == 0;
  }

  lemma BusyIsProductive(u: Setup, s: System, i: nat) returns (a: Action)
    requires u.Ok() && i < |s.clients| && !s.clients[i].closing && (s.clients[i].inbox != [] || s.clients[i].control != [])
    ensures Productive(u, s, a)
  {
    var cl := s.clients[i];
    a := if cl.inbox == [] then DeliverControl(i) else if |cl.queue| < u.queueSize then Receive(i) else Take(i);
  }

  lemma PassIsProductive(u: Setup, s: System, i: nat)
    requires u.Ok() && i < |s.clients| && i in s.producer.consumers
    requires Reach(u.c, s.producer.consumers, i) > s.producer.consumers[i].lastSent
    ensures Productive(u, s, Pass)
  {
  }

  /** Some step always moves a batch or an acknowledgement of the slowest consumer. */
  lemma NeverStalls(u: Setup, s: System) returns (a: Action)
    requires ReliableInv(u, s) && Open(s)
    ensures Productive(u, s, a)
  {
    var i := SlowestClient(u, s);
    var cl := s.clients[i];
    assert u.Ok() && ReliableClient(u, cl, Some(s.producer.consumers[i]));
    hide *;
    if cl.inbox != [] || cl.control != [] {
      a := BusyIsProductive(u, s, i);
    } else {
      NothingInFlight(u, cl, s.producer.consumers[i]);
      IdleIsServed(u, s, i);
      PassIsProductive(u, s, i);
      a := Pass;
    }
  }

  lemma ReceivedSoFar(u: Setup, s: System, i: nat, k: nat)
    requires ReliableInv(u, s) && Open(s) && i < |s.clients| && k <= s.producer.consumers[i].lastAcked + 1
    ensures |s.clients[i].received| >= k && s.clients[i].received[..k] == Stream(u.c, 0, k)
  {
    assert ReliableClient(u, s.clients[i], StateOf(s.producer, i));
    StreamSplit(u.c, 0, k, s.clients[i].last + 1);
  }

  /**
   * Main theorem. However the steps interleave, after 4 * clients * (k + maxLag) productive steps
   * every consumer has received batches 0..k of the one shared stream, and a productive step is
   * always available.
   */
  lemma EveryConsumerGetsEveryBatch(u: Setup, run: seq<Action>, k: nat, i: nat) returns (next: Action)
    requires u.Ok() && ProductiveRun(u, Init(u), run) && i < u.clients
    requires |run| > u.clients * (4 * (k + u.c.maxLag))
    ensures ValidRun(u, Init(u), run) && |After(u, Init(u), run).clients| == u.clients
    ensures var got := After(u, Init(u), run).clients[i].received;
            |got| >= k && got[..k] == Stream(u.c, 0, k)
    ensures Productive(u, After(u, Init(u), run), next)
  {
    InitInv(u);
    ProductiveRunIsValid(u, Init(u), run);
    RunScore(u, Init(u), run);
    var s := After(u, Init(u), run);
    if s.producer.consumers[i].lastAcked + 1 < k {
      LaggardBoundsScores(u, s, i, k);
    }
    ReceivedSoFar(u, s, i, k);
    next := NeverStalls(u, s);
  }
}

/**
 * A consumer that registers once batches have been dropped is never sent anything, and while it
 * stays nobody else gets past the lag window either.
 */
module TensorSocketLatecomer {
  import opened Sequences
  import opened TensorSocketProducer

  /** What the producer's main loop does: handle a control message, or prune and send. */
  datatype Step = Handle(m: Control) | SendPass

  ghost function Next(c: Config, p: Producer, step: Step): Producer
    requires c.Ok()
  {
    match step
    case Handle(m) => Drain(p, m)
    case SendPass => if p.consumers == map[] then p else Build(c, Prune(p))
  }

  ghost function Following(c: Config, p: Producer, steps: seq<Step>): Producer
    requires c.Ok()
    decreases |steps|
  {
    if steps == [] then p else Following(c, Next(c, p, steps[0]), steps[1..])
  }

  /** The step is not a message of consumer id about having batches or closing. */
  predicate NotFrom(id: nat, step: Step) {
    step.Handle? && (step.m.Ack? || step.m.Close?) ==> step.m.id != id
  }

  /** The index map holds batches under their own numbers, and the first batch is neither there nor to come. */
  predicate FirstIsGone(p: Producer) {
    && 0 !in p.byIndex && p.nextIndex > 0
    && forall i :: i in p.byIndex ==> p.byIndex[i].index == i
  }

  /** Consumer id has registered and got nothing, and all others have been sent batches below top only. */
  ghost predicate Starved(c: Config, p: Producer, id: nat, top: int) {
    && c.Ok() && FirstIsGone(p) && id in p.consumers && p.consumers[id] == ConsumerState(-1, -1) && c.maxLag <= top
    && forall x :: x in p.consumers ==> -1 <= p.consumers[x].lastAcked && p.consumers[x].lastSent < top
  }

  lemma RegisteringLate(c: Config, p: Producer, id: nat)
    requires ProducerInv(c, p) && id !in p.consumers && |p.buffer| < p.nextIndex
    ensures Starved(c, Drain(p, Register(id)), id, Max(p.nextIndex, c.maxLag))
  {
    hide Stream, CursorAt;
    forall x | x in p.consumers
      ensures -1 <= p.consumers[x].lastAcked && p.consumers[x].lastSent < p.nextIndex
    {
      assert ConsumerInv(c, p, x);
    }
  }

  lemma {:induction false} DropKeepsFirstGone(p: Producer, m: int)
    requires FirstIsGone(p)
    ensures FirstIsGone(DropThrough(p, m)) && DropThrough(p, m).consumers == p.consumers
    decreases |p.buffer|
  {
    if !(p.buffer == [] || p.buffer[0].index > m) {
      DropKeepsFirstGone(p.(buffer := p.buffer[1..], byIndex := p.byIndex - {p.buffer[0].index as int}), m);
    }
  }

  lemma {:induction false} FillKeepsFirstGone(c: Config, p: Producer, k: int)
    requires c.Ok() && FirstIsGone(p)
    ensures FirstIsGone(FillThrough(c, p, k))
    decreases k + 1 - p.nextIndex
  {
    if p.nextIndex <= k {
      FillKeepsFirstGone(c, FillStep(c, p), k);
    }
  }

  lemma {:induction false} CollectStaysBelow(byIndex: map<int, SharedBatch>, lo: int, hi: int)
    requires forall i :: i in byIndex ==> byIndex[i].index == i
    ensures var message := Collect(byIndex, lo, hi);
            message != [] ==> message[|message| - 1].index <= hi
    decreases hi - lo
  {
    if lo <= hi && lo in byIndex {
      CollectStaysBelow(byIndex, lo + 1, hi);
    }
  }

  /** The latecomer's acknowledgements pin the lag window to the start of the stream. */
  lemma SlowestIsLatecomer(consumers: map<nat, ConsumerState>, id: nat)
    requires id in consumers && consumers[id].lastAcked == -1
    requires forall x :: x in consumers ==> -1 <= consumers[x].lastAcked
    ensures MinAcked(consumers) == -1
  {
  }

  lemma PassStarves(c: Config, p: Producer, id: nat, top: int)
    requires Starved(c, p, id, top)
    ensures MessageTo(c, Prune(p), id) == [] && Starved(c, Build(c, Prune(p)), id, top)
    ensures Prune(p).consumers == p.consumers
  {
    hide MinAcked, MaxNeeded, FillThrough, DropThrough;
    DropKeepsFirstGone(p, MinAcked(p.consumers));
    SlowestIsLatecomer(p.consumers, id);
    var q := Prune(p);
    var f := Filled(c, q);
    FillKeepsFirstGone(c, q, MaxNeeded(c, q.consumers, -1));
    forall x | x in f.consumers
      ensures Sent(c, f.byIndex, f.consumers[x], -1).lastSent < top
    {
      CollectStaysBelow(f.byIndex, f.consumers[x].lastSent + 1, Limit(c, f.consumers[x], -1));
    }
  }

  lemma StepStarves(c: Config, p: Producer, id: nat, top: int, step: Step)
    requires Starved(c, p, id, top) && NotFrom(id, step)
    ensures Starved(c, Next(c, p, step), id, top)
  {
    hide Build, Prune, FirstIsGone;
    match step
    case Handle(m) => HandlingKeepsFirstGone(p, m);
    case SendPass => PassStarves(c, p, id, top);
  }

  lemma HandlingKeepsFirstGone(p: Producer, m: Control)
    ensures FirstIsGone(p) <==> FirstIsGone(Drain(p, m))
  {
  }

  lemma {:induction false} StepsStarve(c: Config, p: Producer, id: nat, top: int, steps: seq<Step>)
    requires Starved(c, p, id, top) && forall k :: 0 <= k < |steps| ==> NotFrom(id, steps[k])
    ensures Starved(c, Following(c, p, steps), id, top)
    decreases |steps|
  {
    hide Starved, Next, NotFrom;
    if steps != [] {
      assert c.Ok() by {
        StarvedIsOk(c, p, id, top);
      }
      assert NotFrom(id, steps[0]);
      StepStarves(c, p, id, top, steps[0]);
      StepsStarve(c, Next(c, p, steps[0]), id, top, steps[1..]);
    }
  }

  lemma StarvedIsOk(c: Config, p: Producer, id: nat, top: int)
    requires Starved(c, p, id, top)
    ensures c.Ok() && id in p.consumers
  {
  }

  /**
   * A consumer registers when the first batch has been dropped. Whatever the producer does from then
   * on, for as long as that consumer stays it is sent nothing, and no consumer is ever sent a batch
   * beyond those already made and the first maxLag.
   */
  lemma LatecomerStarvesAll(c: Config, p: Producer, id: nat, steps: seq<Step>, x: nat)
    requires ProducerInv(c, p) && id !in p.consumers && |p.buffer| < p.nextIndex
    requires forall k :: 0 <= k < |steps| ==> NotFrom(id, steps[k])
    ensures var after := Following(c, Drain(p, Register(id)), steps);
            && id in after.consumers && Prune(after).consumers == after.consumers
            && MessageTo(c, Prune(after), id) == []
            && (x in after.consumers ==> after.consumers[x].lastSent < Max(p.nextIndex, c.maxLag))
  {
    hide ProducerInv, MessageTo, Prune, NotFrom, FirstIsGone;
    var top := Max(p.nextIndex, c.maxLag);
    RegisteringLate(c, p, id);
    StepsStarve(c, Drain(p, Register(id)), id, top, steps);
    PassStarves(c, Following(c, Drain(p, Register(id)), steps), id, top);
  }
}

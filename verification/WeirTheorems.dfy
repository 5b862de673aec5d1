/** What the weir pipeline promises, over every run. */
module WeirTheorems {
  import opened Streams
  import Slots
  import opened Weir
  import opened WeirInvariant
  import opened WeirSafety

  ghost predicate EachSlot(w: World) {
    forall i | 0 <= i < |w.slots| :: DeliveredAt(w, i) && SweptOk(w, i) && Noted(w, i) && MarkOk(w.slots[i])
  }

  ghost predicate EachVisible(c: Config, w: World) {
    c.bitmap ==> forall i | 0 <= i < |w.slots| :: Visible(w, i)
  }

  ghost predicate Inv(c: Config, w: World) {
    && Base(c, w) && EachSlot(w) && EachVisible(c, w)
    && PassOk(w) && ParkOk(c, w) && StopOk(w) && Conserved(w)
  }

  lemma InitInv(c: Config, threads: nat)
    requires Sane(c)
    ensures Inv(c, Init(c, threads))
  {
    var w := Init(c, threads);
    InitBase(c, threads);
    SumZero(Pushes(w.slots));
    SumZero(Drops(w.slots));
    SumZero(Uncounteds(w.threads));
  }

  lemma ProducerInv(c: Config, w: World, t: Tid, k: Choice)
    requires Inv(c, w) && t < |w.threads|
    ensures Inv(c, ProducerStep(c, w, t, k))
  {
    var w' := ProducerStep(c, w, t, k);
    ProducerBase(c, w, t, k);
    BaseFit(c, w, t);
    ParkProducer(c, w, t, k);
    ConservedProducer(c, w, t, k);
    hide Base, Conserved, Visible, Noted, DeliveredAt, Fit, ProducerPc, Produce;
    forall i | 0 <= i < |w'.slots| ensures DeliveredAt(w', i) && SweptOk(w', i) && Noted(w', i) && MarkOk(w'.slots[i]) {
      DeliveredProducer(c, w, t, k, i);
      NotedProducer(c, w, t, k, i);
      MarkProducer(c, w, t, k, i);
      SweptProducer(c, w, t, k, i);
    }
    if c.bitmap {
      forall i | 0 <= i < |w'.slots| ensures Visible(w', i) { VisibleProducer(c, w, t, k, i); }
    }
  }

  lemma SweptProducer(c: Config, w: World, t: Tid, k: Choice, i: nat)
    requires Fit(c, w, t) && i < |w.slots| && SweptOk(w, i)
    ensures SweptOk(ProducerStep(c, w, t, k), i)
  {
    var pc := w.threads[t];
    if AtSlot(w, pc) { ProduceFrame(c, t, pc, w.slots[pc.i]); }
  }

  lemma ConsumerInv(c: Config, w: World, k: Choice)
    requires Inv(c, w)
    ensures Inv(c, ConsumerStep(c, w, k))
  {
    var w' := ConsumerStep(c, w, k);
    ConsumerBase(c, w, k);
    ParkConsumer(c, w, k);
    ParkEntry(c, w, Target(c, w), k);
    PassConsumer(c, w, k);
    ConservedConsumer(c, w, k);
    BasePoised(c, w);
    hide Visible, Noted, DeliveredAt, SweptOk, ConsumerPc, Consume, Conserved, SlotOk, ThreadOk;
    forall i | 0 <= i < |w'.slots| ensures DeliveredAt(w', i) && SweptOk(w', i) && Noted(w', i) && MarkOk(w'.slots[i]) {
      DeliveredConsumer(c, w, k, i);
      NotedConsumer(c, w, k, i);
      if At(c.n, w.cpc) == i { MarkConsumer(c, w.cpc, w.slots[i]); }
      SweptConsumer(c, w, k, i);
    }
    if c.bitmap {
      forall i | 0 <= i < |w'.slots| ensures Visible(w', i) { VisibleConsumer(c, w, k, i); }
    }
  }

  lemma StopInv(c: Config, w: World, k: Choice)
    requires Inv(c, w)
    ensures Inv(c, StopStep(c, w, k))
  {
    var w' := StopStep(c, w, k);
    StopBase(c, w, k);
    StopFrame(c, w, k);
    assert Pushes(w'.slots) == Pushes(w.slots) && Drops(w'.slots) == Drops(w.slots);
    forall i | 0 <= i < |w'.slots| ensures DeliveredAt(w', i) && SweptOk(w', i) && Noted(w', i) && MarkOk(w'.slots[i]) {
      assert w'.slots[i] == w.slots[i].(stop := w'.slots[i].stop);
      assert DeliveredAt(w, i) && SweptOk(w, i) && Noted(w, i) && MarkOk(w.slots[i]);
    }
    forall i | 0 <= i < |w'.slots| && c.bitmap ensures Visible(w', i) {
      assert w'.slots[i] == w.slots[i].(stop := w'.slots[i].stop);
      assert Visible(w, i);
    }
  }

  // Only the consumer moves its own counter.
  lemma OthersLeave(c: Config, w: World, a: Actor, k: Choice)
    requires Acts(w, a) && !a.Consumer?
    ensures Step(c, w, a, k).cpc == w.cpc && |Step(c, w, a, k).slots| == |w.slots|
  {
  }

  lemma StepInv(c: Config, w: World, a: Actor, k: Choice)
    requires Inv(c, w) && Acts(w, a)
    ensures Inv(c, Step(c, w, a, k))
  {
    match a
    case Producer(t) => ProducerInv(c, w, t, k);
    case Consumer => ConsumerInv(c, w, k);
    case Stopper => StopInv(c, w, k);
  }

  lemma NextInv(c: Config, w: World, w': World)
    requires Inv(c, w) && Next(c, w, w')
    ensures Inv(c, w')
  {
    var a: Actor, k: Choice :| Acts(w, a) && w' == Step(c, w, a, k);
    StepInv(c, w, a, k);
  }

  lemma {:induction false} RunInv(c: Config, threads: nat, tr: seq<World>, j: nat)
    requires Run(c, threads, tr) && j < |tr|
    ensures Inv(c, tr[j])
  {
    if j == 0 {
      InitInv(c, threads);
    } else {
      RunInv(c, threads, tr, j - 1);
      assert NextAt(c, tr, j - 1);
      NextInv(c, tr[j - 1], tr[j]);
    }
  }

  // ------------------------------------------------------------ the consumer's sleep

  // A producer between its publication and the end of its signal, or of its notification.
  predicate InFlight(pc: Ppc) { pc.PushCount? || ((pc.SigLoad? || pc.SigOr?) && pc.why.AfterPush?) || Owes(pc) }

  /**
   * A consumer asleep with no token waiting and no producer in flight sleeps over
   * empty rings, whatever the backstop timer would do.
   */
  lemma NothingInvisible(c: Config, threads: nat, tr: seq<World>, j: nat, i: nat)
    requires Run(c, threads, tr) && j < |tr| && c.bitmap
    requires tr[j].cpc.Select? && !tr[j].token && (forall t | 0 <= t < |tr[j].threads| :: !InFlight(tr[j].threads[t]))
    ensures i < |tr[j].slots| ==> tr[j].slots[i].head == tr[j].slots[i].tail
  {
    RunInv(c, threads, tr, j);
    var w := tr[j];
    if i < |w.slots| {
      assert Visible(w, i) && SlotOk(c, w.slots[i]);
      assert forall t | 0 <= t < |w.threads| :: !Owes(w.threads[t]) by {
        forall t | 0 <= t < |w.threads| ensures !Owes(w.threads[t]) { assert !InFlight(w.threads[t]); }
      }
      assert w.active == {};
      if w.slots[i].owner < |w.threads| { assert !InFlight(w.threads[w.slots[i].owner]); }
    }
  }

  /** Once Stop has sent its token, no sleep outlasts it. */
  lemma StopWakes(c: Config, threads: nat, tr: seq<World>, j: nat)
    requires Run(c, threads, tr) && j < |tr| && tr[j].cpc.Select? && tr[j].spc.Stopped?
    ensures tr[j].token
  {
    RunInv(c, threads, tr, j);
  }

  // ------------------------------------------------------------ slots

  /** One handle a slot: two threads never hold the same one, and a free slot is nobody's, empty and without counts. */
  lemma ExclusiveHandle(c: Config, threads: nat, tr: seq<World>, j: nat, t: Tid, i: nat)
    requires Run(c, threads, tr) && j < |tr| && Owns(tr[j], t, i)
    ensures i < |tr[j].slots| && tr[j].slots[i].state.Active? && forall u :: Owns(tr[j], u, i) ==> u == t
  {
    RunInv(c, threads, tr, j);
    assert ThreadOk(c, tr[j], t);
    forall u | Owns(tr[j], u, i) ensures u == t { assert ThreadOk(c, tr[j], u); }
  }

  lemma FreeIsEmpty(c: Config, threads: nat, tr: seq<World>, j: nat, i: nat)
    requires Run(c, threads, tr) && j < |tr| && i < |tr[j].slots| && tr[j].slots[i].state.Free?
    ensures var s := tr[j].slots[i]; s.head == s.tail && s.pushed == 0 && s.dropped == 0 && forall t :: !Owns(tr[j], t, i)
  {
    RunInv(c, threads, tr, j);
    assert SlotOk(c, tr[j].slots[i]);
    forall t | Owns(tr[j], t, i) ensures tr[j].slots[i].state.Active? { OwnedIsActive(c, tr[j], t, i); }
  }

  lemma OwnedIsActive(c: Config, w: World, t: Tid, i: nat)
    requires Base(c, w) && Owns(w, t, i) && i < |w.slots|
    ensures w.slots[i].state.Active? && w.slots[i].owner == t
  {
    assert ThreadOk(c, w, t);
  }

  /** The stale indices of the rings, whoever pushes to them and however often they change hands. */
  lemma StaleIndices(c: Config, threads: nat, tr: seq<World>, j: nat, i: nat)
    requires Run(c, threads, tr) && j < |tr| && i < |tr[j].slots|
    ensures var s := tr[j].slots[i]; s.cachedHead <= s.head <= s.cachedTail <= s.tail <= s.cachedHead + c.cap
  {
    RunInv(c, threads, tr, j);
    assert SlotOk(c, tr[j].slots[i]);
  }

  // ------------------------------------------------------------ the cells

  /** What a live position's cell holds is what was published there, through every reuse of the cell and of the slot. */
  lemma LiveCellsHold(c: Config, threads: nat, tr: seq<World>, j: nat, i: nat, p: nat)
    requires Run(c, threads, tr) && j < |tr| && i < |tr[j].slots| && tr[j].slots[i].head <= p < tr[j].slots[i].tail
    ensures var s := tr[j].slots[i]; |s.cells| == c.cap > 0 && s.tail == |s.log| && s.cells[Slots.Slot(c.cap, p)] == s.log[p]
  {
    RunInv(c, threads, tr, j);
    assert SlotOk(c, tr[j].slots[i]) && LiveCell(tr[j].slots[i], p);
  }

  // A producer that writes slot i's cell, or has written it and not yet published it.
  predicate Writing(w: World, t: Tid, i: nat) {
    t < |w.threads| && (w.threads[t].PushWrite? || w.threads[t].PushStore?) && w.threads[t].i == i
  }

  /** A producer never writes over a live position, so the consumer never copies a cell that is being written. */
  lemma WritesOutsideTheRing(c: Config, threads: nat, tr: seq<World>, j: nat, t: Tid, i: nat, p: nat)
    requires Run(c, threads, tr) && j < |tr| && Writing(tr[j], t, i)
    ensures i < |tr[j].slots| && c.cap > 0
    ensures tr[j].slots[i].head <= p < tr[j].slots[i].tail ==> Slots.Slot(c.cap, p) != Slots.Slot(c.cap, tr[j].slots[i].tail)
    ensures tr[j].cpc.PopCopy? && At(c.n, tr[j].cpc) == i ==>
      Slots.Slot(c.cap, tr[j].slots[i].head + |tr[j].cpc.batch|) != Slots.Slot(c.cap, tr[j].slots[i].tail)
  {
    RunInv(c, threads, tr, j);
    var w := tr[j];
    assert ThreadOk(c, w, t);
    var s := w.slots[i];
    assert SlotOk(c, s);
    if s.head <= p < s.tail { WriteIsFresh(c, s, p); }
    if w.cpc.PopCopy? && At(c.n, w.cpc) == i { WriteIsFresh(c, s, s.head + |w.cpc.batch|); }
  }

  /** What has been copied out, cell by cell, is the next piece of what was published. */
  lemma BatchIsPublished(c: Config, threads: nat, tr: seq<World>, j: nat)
    requires Run(c, threads, tr) && j < |tr| && (tr[j].cpc.PopCopy? || tr[j].cpc.PopHead?)
    ensures var i := At(c.n, tr[j].cpc); i < |tr[j].slots|
    ensures var s, batch := tr[j].slots[At(c.n, tr[j].cpc)], tr[j].cpc.batch;
      s.head + |batch| <= |s.log| && batch == s.log[s.head..s.head + |batch|]
  {
    RunInv(c, threads, tr, j);
  }

  // ------------------------------------------------------------ conservation

  // No push is between its publication and its count, and no count on its way to the total.
  predicate Settled(w: World) {
    && !w.cpc.RecAddPushed? && !w.cpc.RecAddDropped?
    && forall t | 0 <= t < |w.threads| :: !w.threads[t].PushCount?
  }

  /** Stats adds up: retired totals and live counters are all the pushes and all the drops there have been. */
  lemma StatsAddUp(c: Config, threads: nat, tr: seq<World>, j: nat)
    requires Run(c, threads, tr) && j < |tr| && Settled(tr[j])
    ensures tr[j].retiredPushed + Sum(Pushes(tr[j].slots)) == tr[j].published
    ensures tr[j].retiredDropped + Sum(Drops(tr[j].slots)) == tr[j].refused
  {
    RunInv(c, threads, tr, j);
    SumZero(Uncounteds(tr[j].threads));
  }

  // ------------------------------------------------------------ delivery

  /** The sink holds a prefix of what was published on each slot: nothing lost, repeated, reordered or invented. */
  lemma SinkIsPrefix(c: Config, threads: nat, tr: seq<World>, j: nat, i: nat)
    requires Run(c, threads, tr) && j < |tr| && i < |tr[j].slots|
    ensures Proj(tr[j].sink, i) <= tr[j].slots[i].log
  {
    RunInv(c, threads, tr, j);
    var w := tr[j];
    assert DeliveredAt(w, i);
    ProjAppend(w.sink, w.staged, i);
  }

  /** One owner's events all come out before the next owner's. */
  lemma OwnersInTurn(c: Config, threads: nat, tr: seq<World>, j: nat, i: nat, a: nat, b: nat)
    requires Run(c, threads, tr) && j < |tr| && i < |tr[j].slots| && a < b < |Proj(tr[j].sink, i)|
    ensures Proj(tr[j].sink, i)[a].gen <= Proj(tr[j].sink, i)[b].gen
  {
    RunInv(c, threads, tr, j);
    SinkIsPrefix(c, threads, tr, j, i);
    assert SlotOk(c, tr[j].slots[i]);
    var log := tr[j].slots[i].log;
    assert Proj(tr[j].sink, i)[a] == log[a] && Proj(tr[j].sink, i)[b] == log[b];
  }

  // ------------------------------------------------------------ the closing drain

  // What a step does to the history of slot i.
  ghost predicate Onward(w: World, w': World, i: nat) {
    && i < |w.slots| == |w'.slots| && w.slots[i].log <= w'.slots[i].log && w.sink <= w'.sink
    && (w'.running ==> w.running)
    && (w.running && !w'.running ==> w'.slots[i].stop == |w'.slots[i].log|)
    && (!w.running ==> w'.slots[i].stop == w.slots[i].stop)
  }

  lemma StepOnward(c: Config, w: World, a: Actor, k: Choice, i: nat)
    requires Base(c, w) && StopOk(w) && Acts(w, a) && i < |w.slots|
    ensures Onward(w, Step(c, w, a, k), i)
  {
    match a
    case Producer(t) =>
      BaseFit(c, w, t);
      ProducerOnward(c, w, t, k, i);
    case Consumer =>
      BlankOk(c);
      ConsumeFrame(c, w.cpc, Target(c, w));
      ConsumerOnward(c, w, k, i);
    case Stopper =>
  }

  lemma ProducerOnward(c: Config, w: World, t: Tid, k: Choice, i: nat)
    requires Fit(c, w, t) && i < |w.slots|
    ensures Onward(w, ProducerStep(c, w, t, k), i)
  {
    var pc := w.threads[t];
    if AtSlot(w, pc) {
      ProduceFrame(c, t, pc, w.slots[pc.i]);
      LogGrows(c, t, w.slots[pc.i], Produce(t, pc, w.slots[pc.i]));
    }
  }

  lemma ConsumerOnward(c: Config, w: World, k: Choice, i: nat)
    requires i < |w.slots| && ByConsumer(Target(c, w), Consume(w.cpc, Target(c, w)))
    ensures Onward(w, ConsumerStep(c, w, k), i)
  {
  }

  lemma NextOnward(c: Config, w: World, w': World, i: nat)
    requires Inv(c, w) && Next(c, w, w') && i < |w.slots|
    ensures Onward(w, w', i)
  {
    var a: Actor, k: Choice :| Acts(w, a) && w' == Step(c, w, a, k);
    StepOnward(c, w, a, k, i);
  }

  // log was published while the pipeline ran: it lies before the mark.
  ghost predicate Marked(log: seq<Event>, w: World, i: nat) {
    && i < |w.slots| && w.slots[i].stop <= |w.slots[i].log| && log <= w.slots[i].log
    && (!w.running ==> |log| <= w.slots[i].stop)
  }

  lemma MarkedStep(log: seq<Event>, w: World, w': World, i: nat)
    requires Marked(log, w, i) && Onward(w, w', i) && w'.slots[i].stop <= |w'.slots[i].log|
    ensures Marked(log, w', i)
  {
  }

  lemma SlotBounds(c: Config, threads: nat, tr: seq<World>, j: nat, i: nat)
    requires Run(c, threads, tr) && j < |tr| && i < c.n
    ensures i < |tr[j].slots| && tr[j].slots[i].stop <= |tr[j].slots[i].log|
  {
    RunInv(c, threads, tr, j);
    assert SlotOk(c, tr[j].slots[i]);
  }

  lemma RunOnward(c: Config, threads: nat, tr: seq<World>, j: nat, i: nat)
    requires Run(c, threads, tr) && j + 1 < |tr| && i < c.n
    ensures Onward(tr[j], tr[j + 1], i)
  {
    RunInv(c, threads, tr, j);
    assert NextAt(c, tr, j);
    NextOnward(c, tr[j], tr[j + 1], i);
  }

  lemma {:induction false} RunMarks(c: Config, threads: nat, tr: seq<World>, j: nat, l: nat, i: nat)
    requires Run(c, threads, tr) && j <= l < |tr| && tr[j].running && i < c.n
    ensures i < |tr[j].slots| && Marked(tr[j].slots[i].log, tr[l], i)
    decreases l
  {
    SlotBounds(c, threads, tr, j, i);
    if j < l {
      RunMarks(c, threads, tr, j, l - 1, i);
      RunOnward(c, threads, tr, l - 1, i);
      SlotBounds(c, threads, tr, l, i);
      MarkedStep(tr[j].slots[i].log, tr[l - 1], tr[l], i);
    }
  }

  /**
   * Everything published on slot i at a moment when the pipeline was still running
   * is in the sink when the consumer is done, once and in order.
   */
  lemma ClosingDrainIsComplete(c: Config, threads: nat, tr: seq<World>, j: nat, l: nat, i: nat)
    requires Run(c, threads, tr) && j <= l < |tr| && tr[j].running && tr[l].cpc.Done? && i < c.n
    ensures i < |tr[j].slots| && i < |tr[l].slots| && tr[j].slots[i].log <= Proj(tr[l].sink, i) <= tr[l].slots[i].log
  {
    RunInv(c, threads, tr, l);
    RunMarks(c, threads, tr, j, l, i);
    var w := tr[l];
    assert DeliveredAt(w, i) && SweptOk(w, i);
    assert w.sink + w.staged == w.sink;
    assert tr[j].slots[i].log == w.slots[i].log[..|tr[j].slots[i].log|];
  }

  /** What the sink has been given is never taken back. */
  lemma {:induction false} SinkOnlyGrows(c: Config, threads: nat, tr: seq<World>, j: nat, l: nat)
    requires Run(c, threads, tr) && j <= l < |tr|
    ensures tr[j].sink <= tr[l].sink
    decreases l
  {
    if j < l {
      SinkOnlyGrows(c, threads, tr, j, l - 1);
      RunOnward(c, threads, tr, l - 1, 0);
    }
  }
}

/** What the second of the closing loops is for: it delivers what was published during the first. */
module WeirLastPass {
  import opened Streams
  import opened Weir
  import opened WeirInvariant
  import opened WeirSafety
  import opened WeirTheorems

  predicate LastPass(pc: Cpc) { Drains(pc) && pc.why.Final? && pc.why.pass > 0 }

  // The second loop has not begun.
  predicate BeforeLast(pc: Cpc) { !LastPass(pc) && !Swept(pc) }

  // The first m events of slot i are out, unless the consumer has yet to come by.
  predicate Reaches(w: World, i: nat, m: nat) {
    && i < |w.slots| && m <= |w.slots[i].log|
    && (LastPass(w.cpc) ==> StillToSee(w.cpc, i) || m <= w.slots[i].head)
    && (Swept(w.cpc) ==> m <= w.slots[i].head)
  }

  // The second loop begins with a whole pass.
  lemma LastBegins(c: Config, w: World, s: Slot, k: Choice)
    requires BeforeLast(w.cpc)
    ensures var pc' := ConsumerPc(c, w, s, k); !Swept(pc') && (LastPass(pc') ==> pc' == Scan(true, Final(1), Order(c.n, 0), 0))
  {
    if Drains(w.cpc) { LastBeginsDrain(c, w.cpc, s, |w.staged|, w.rotate); }
    else if Clears(w.cpc) { SweepKindClear(c, w.cpc, s, w.active, w.rotate); }
    else if Reclaims(w.cpc) { SweepKindReclaim(w.cpc, c.n, s); }
    else { SweepKindLoop(c, w, k); }
    hide DrainPc, ClearPc, ReclaimPc, LoopPc;
  }

  lemma LastBeginsDrain(c: Config, pc: Cpc, s: Slot, staged: nat, r: nat)
    requires Drains(pc) && BeforeLast(pc)
    ensures var pc' := DrainPc(c, pc, s, staged, r); !Swept(pc') && (LastPass(pc') ==> pc' == Scan(true, Final(1), Order(c.n, 0), 0))
  {
  }

  lemma LastGoesOn(c: Config, pc: Cpc, s: Slot, staged: nat, r: nat)
    requires LastPass(pc)
    ensures LastPass(DrainPc(c, pc, s, staged, r)) || DrainPc(c, pc, s, staged, r).LastFlush?
  {
  }

  // The mark is history.
  lemma MarkUnseen(c: Config, pc: Cpc, s: Slot, m: nat, staged: nat, r: nat)
    ensures DrainPc(c, pc, s.(stop := m), staged, r) == DrainPc(c, pc, s, staged, r)
    ensures Consume(pc, s.(stop := m)) == Consume(pc, s).(stop := m)
  {
  }

  // The pass moves on from slot i only when the first m events are out.
  lemma LastDrain(c: Config, pc: Cpc, s: Slot, staged: nat, r: nat, i: nat, m: nat)
    requires Sane(c) && r < c.n && i < c.n && Ranged(c.n, pc) && LastPass(pc) && StillToSee(pc, i)
    requires SlotOk(c, s) && RoomOk(c, pc, staged) && (pc.PopHead? ==> pc.batch != []) && (pc.Flush? ==> pc.total > 0)
    requires At(c.n, pc) == i ==> m <= s.tail
    ensures var pc' := DrainPc(c, pc, s, staged, r);
      (pc'.LastFlush? || !StillToSee(pc', i)) ==> At(c.n, pc) == i && m <= Consume(pc, s).head
  {
    LastGoesOn(c, pc, s, staged, r);
    var marked := if At(c.n, pc) == i then s.(stop := m) else s;
    MarkUnseen(c, pc, s, m, staged, r);
    assert SlotOk(c, marked) by { hide DrainPc, Consume; MarkFits(c, s, m); }
    SweepDrain(c, pc, marked, staged, r, i);
    hide DrainPc, Consume, SlotOk, StillToSee;
  }

  lemma MarkFits(c: Config, s: Slot, m: nat)
    requires SlotOk(c, s)
    ensures m <= s.tail ==> SlotOk(c, s.(stop := m))
  {
    if m <= s.tail {
      forall p | s.head <= p < s.tail ensures LiveCell(s.(stop := m), p) { assert LiveCell(s, p); }
    }
  }

  // What a step of the consumer does to slot i, and where it goes.
  lemma ConsumerAt(c: Config, w: World, k: Choice, i: nat)
    requires i < |w.slots|
    ensures var w' := ConsumerStep(c, w, k);
      && |w'.slots| == |w.slots| && w'.cpc == ConsumerPc(c, w, Target(c, w), k)
      && w'.slots[i] == if At(c.n, w.cpc) == i then Consume(w.cpc, w.slots[i]) else w.slots[i]
  {
    hide ConsumerPc, Consume, Flushes, StagedAfter, ActiveAfter, RotateAfter, At;
  }

  lemma ReachesDrain(c: Config, w: World, k: Choice, i: nat, m: nat)
    requires Poised(c, w) && i < c.n && PassOk(w) && LastPass(w.cpc) && StillToSee(w.cpc, i) && Reaches(w, i, m)
    ensures Reaches(ConsumerStep(c, w, k), i, m)
  {
    var s := Target(c, w);
    ConsumeFrame(c, w.cpc, s);
    LastGoesOn(c, w.cpc, s, |w.staged|, w.rotate);
    ConsumerAt(c, w, k, i);
    assert At(c.n, w.cpc) == i ==> m <= s.tail;
    hide DrainPc, Consume, SlotOk, ThreadOk, Owned, StillToSee, ConsumerStep, Ranged, At;
    LastDrain(c, w.cpc, s, |w.staged|, w.rotate, i, m);
  }

  lemma ReachesConsumer(c: Config, w: World, k: Choice, i: nat, m: nat)
    requires Base(c, w) && PassOk(w) && Reaches(w, i, m)
    ensures Reaches(ConsumerStep(c, w, k), i, m)
  {
    BasePoised(c, w);
    hide Base;
    if LastPass(w.cpc) && StillToSee(w.cpc, i) { ReachesDrain(c, w, k, i, m); }
    else {
      ConsumeFrame(c, w.cpc, Target(c, w));
      OrderCovers(c.n, 0, i);
      if BeforeLast(w.cpc) { LastBegins(c, w, Target(c, w), k); }
      hide ConsumerPc, Consume, SlotOk, ThreadOk, Owned;
    }
  }

  lemma ReachesNext(c: Config, w: World, w': World, i: nat, m: nat)
    requires Inv(c, w) && Next(c, w, w') && Reaches(w, i, m)
    ensures Reaches(w', i, m)
  {
    NextOnward(c, w, w', i);
    var a: Actor, k: Choice :| Acts(w, a) && w' == Step(c, w, a, k);
    match a
    case Producer(t) => ReachesProducer(c, w, t, k, i, m);
    case Consumer => ReachesConsumer(c, w, k, i, m);
    case Stopper =>
  }

  lemma ReachesProducer(c: Config, w: World, t: Tid, k: Choice, i: nat, m: nat)
    requires Base(c, w) && t < |w.threads| && Reaches(w, i, m)
    ensures Reaches(ProducerStep(c, w, t, k), i, m)
  {
    BaseFit(c, w, t);
    ProducerOnward(c, w, t, k, i);
    var pc := w.threads[t];
    if AtSlot(w, pc) { ProduceFrame(c, t, pc, w.slots[pc.i]); }
    hide Produce, ProducerPc;
  }

  // One step of a run.
  lemma ReachesOn(c: Config, threads: nat, tr: seq<World>, l: nat, i: nat, m: nat)
    requires Run(c, threads, tr) && l + 1 < |tr| && i < c.n && Reaches(tr[l], i, m)
    ensures Reaches(tr[l + 1], i, m) && i < |tr[l].slots| && i < |tr[l + 1].slots| && tr[l].slots[i].log <= tr[l + 1].slots[i].log
  {
    hide Inv, Next, Reaches;
    RunOnward(c, threads, tr, l, i);
    RunInv(c, threads, tr, l);
    assert NextAt(c, tr, l);
    ReachesNext(c, tr[l], tr[l + 1], i, m);
  }

  lemma {:induction false} RunReaches(c: Config, threads: nat, tr: seq<World>, j: nat, l: nat, i: nat)
    requires Run(c, threads, tr) && j <= l < |tr| && i < c.n && BeforeLast(tr[j].cpc)
    ensures i < |tr[j].slots| && i < |tr[l].slots|
    ensures Reaches(tr[l], i, |tr[j].slots[i].log|) && tr[j].slots[i].log <= tr[l].slots[i].log
    decreases l
  {
    SlotBounds(c, threads, tr, j, i);
    if j < l {
      hide Run, Reaches, BeforeLast;
      RunReaches(c, threads, tr, j, l - 1, i);
      ReachesOn(c, threads, tr, l - 1, i, |tr[j].slots[i].log|);
    }
  }

  /**
   * Everything published on slot i before the consumer began the second of its
   * closing loops, after the stop too, is in the sink when it is done, once and
   * in order.
   */
  lemma LastPassDelivers(c: Config, threads: nat, tr: seq<World>, j: nat, l: nat, i: nat)
    requires Run(c, threads, tr) && j <= l < |tr| && BeforeLast(tr[j].cpc) && tr[l].cpc.Done? && i < c.n
    ensures i < |tr[j].slots| && tr[j].slots[i].log <= Proj(tr[l].sink, i)
  {
    RunReaches(c, threads, tr, j, l, i);
    RunInv(c, threads, tr, l);
    var w := tr[l];
    assert DeliveredAt(w, i);
    assert w.sink + w.staged == w.sink;
    assert tr[j].slots[i].log == w.slots[i].log[..|tr[j].slots[i].log|];
  }
}

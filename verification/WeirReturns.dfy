/** What Push tells its caller, over every run of the weir pipeline. */
module WeirReturns {
  import opened Weir
  import opened WeirInvariant
  import opened WeirTheorems

  // ------------------------------------------------------------ one call

  // The thread is in Push.
  predicate InPush(pc: Ppc) { Pushing(pc) || (Signalling(pc) && pc.why.AfterPush?) }

  // Before the publication, with the event in hand.
  predicate Offering(pc: Ppc) { pc.PushAccept? || pc.PushLook? || pc.PushHead? || pc.PushWrite? || pc.PushStore? }

  // After the publication.
  predicate Landed(pc: Ppc) { pc.PushCount? || (Signalling(pc) && pc.why.AfterPush?) }

  // How one step may move a thread, as far as Push goes.
  predicate Moves(pc: Ppc, pc': Ppc) {
    || pc' == pc
    || ((Offering(pc') ==> if pc.Ready? then pc'.PushAccept? else Offering(pc) && pc'.v == pc.v)
        && (pc.PushStore? <==> Landed(pc') && !Landed(pc))
        && (Landed(pc) ==> Landed(pc') || pc' == Ready(pc.i, Pushed))
        && (Offering(pc) || pc.PushDrop? ==> Offering(pc') || pc'.PushDrop? || Landed(pc') || pc' == Ready(pc.i, Refused))
        && (pc'.Ready? && pc'.last.Pushed? ==> Landed(pc)))
  }

  lemma SlotMoves(c: Config, pc: Ppc, s: Slot, k: Choice)
    requires TouchesSlot(pc)
    ensures Moves(pc, SlotPc(c, pc, s, k))
  {
  }

  lemma WordMoves(c: Config, w: World, pc: Ppc, k: Choice)
    requires !TouchesSlot(pc)
    ensures Moves(pc, WordPc(c, w, pc, k))
  {
  }

  // Thread t's step moves its own counter only, and publishes only by storing the tail.
  ghost predicate Acted(w: World, w': World, t: Tid) {
    && t < |w.threads| == |w'.threads|
    && Moves(w.threads[t], w'.threads[t])
    && (Publishes(w, w', t) ==> w.threads[t].PushStore? && Landed(w'.threads[t]) && Fresh(w, w', t) == w.threads[t].v)
    && (w.threads[t].PushStore? && Landed(w'.threads[t]) ==> Publishes(w, w', t))
  }

  // The slot of thread t's handle has one more published event.
  predicate Publishes(w: World, w': World, t: Tid) {
    && t < |w.threads| && Owning(w.threads[t])
    && var i := w.threads[t].i; i < |w.slots| && i < |w'.slots| && |w.slots[i].log| < |w'.slots[i].log|
  }

  function Fresh(w: World, w': World, t: Tid): Value
    requires Publishes(w, w', t)
  {
    var i := w.threads[t].i;
    w'.slots[i].log[|w.slots[i].log|].v
  }

  lemma OwnActed(c: Config, w: World, t: Tid, k: Choice)
    requires Base(c, w) && t < |w.threads|
    ensures Acted(w, ProducerStep(c, w, t, k), t)
  {
    var pc := w.threads[t];
    assert ThreadOk(c, w, t);
    if AtSlot(w, pc) {
      SlotMoves(c, pc, w.slots[pc.i], k);
      StepAt(c, w, t, k);
      LogOnlyStored(t, pc, w.slots[pc.i]);
      hide SlotPc, Produce, ProducerStep;
    } else {
      if !TouchesSlot(pc) { WordMoves(c, w, pc, k); }
      hide WordPc;
    }
  }

  lemma LogOnlyStored(t: Tid, pc: Ppc, s: Slot)
    requires TouchesSlot(pc)
    ensures Produce(t, pc, s).log == if pc.PushStore? then s.log + [Event(s.gen, pc.v)] else s.log
  {
  }

  // The step leaves thread t where it is, and the log of its slot.
  ghost predicate Passes(w: World, w': World, t: Tid) {
    && |w'.threads| == |w.threads| && |w'.slots| == |w.slots| && t < |w.threads| && w'.threads[t] == w.threads[t]
    && (Owning(w.threads[t]) && w.threads[t].i < |w.slots| ==> w'.slots[w.threads[t].i].log == w.slots[w.threads[t].i].log)
  }

  lemma ProducerPasses(c: Config, w: World, u: Tid, k: Choice, t: Tid)
    requires t < |w.threads| && u < |w.threads| && u != t && ThreadOk(c, w, t) && ThreadOk(c, w, u)
    ensures Passes(w, ProducerStep(c, w, u, k), t)
  {
    var pc := w.threads[u];
    if AtSlot(w, pc) {
      StepAt(c, w, u, k);
      LogOnlyStored(u, pc, w.slots[pc.i]);
      hide SlotPc, Produce, ProducerStep;
    } else {
      hide ProducerPc, Produce;
    }
  }

  lemma ConsumerPasses(c: Config, w: World, k: Choice, t: Tid)
    requires t < |w.threads|
    ensures Passes(w, ConsumerStep(c, w, k), t)
  {
    hide ConsumerPc, StagedAfter, RotateAfter, ActiveAfter, Flushes;
  }

  // Another actor publishes nothing on a slot that t holds.
  lemma OtherActed(c: Config, w: World, a: Actor, k: Choice, t: Tid)
    requires Base(c, w) && Acts(w, a) && t < |w.threads| && a != Producer(t)
    ensures Acted(w, Step(c, w, a, k), t) && Step(c, w, a, k).threads[t] == w.threads[t]
  {
    assert ThreadOk(c, w, t);
    assert Passes(w, Step(c, w, a, k), t) by {
      match a
      case Producer(u) =>
        assert ThreadOk(c, w, u);
        ProducerPasses(c, w, u, k, t);
        hide ProducerStep;
      case Consumer =>
        ConsumerPasses(c, w, k, t);
        hide ConsumerStep;
      case Stopper =>
    }
    hide Step, Base;
  }

  lemma OwnStep(c: Config, w: World, t: Tid, k: Choice)
    requires t < |w.threads|
    ensures Step(c, w, Producer(t), k) == ProducerStep(c, w, t, k)
    ensures ProducerStep(c, w, t, k).threads == w.threads[t := ProducerPc(c, w, w.threads[t], k)]
  {
    hide ProducerPc, Produce;
  }

  // Only its own steps move a thread.
  lemma MovesItself(c: Config, w: World, w': World, t: Tid) returns (k: Choice)
    requires Base(c, w) && Next(c, w, w') && t < |w.threads|
    ensures |w'.threads| == |w.threads|
    ensures w'.threads[t] == w.threads[t] || w'.threads[t] == ProducerPc(c, w, w.threads[t], k)
  {
    hide Base, Step, ProducerPc, ProducerStep, Acted;
    var a: Actor, l: Choice :| Acts(w, a) && w' == Step(c, w, a, l);
    k := l;
    NextThreads(c, w, w');
    if a == Producer(t) { OwnStep(c, w, t, k); } else { OtherActed(c, w, a, k, t); }
  }

  lemma NextActed(c: Config, w: World, w': World, t: Tid)
    requires Base(c, w) && Next(c, w, w') && t < |w.threads|
    ensures Acted(w, w', t)
  {
    hide Base, Acted, Step;
    var a: Actor, k: Choice :| Acts(w, a) && w' == Step(c, w, a, k);
    if a == Producer(t) {
      OwnStep(c, w, t, k);
      OwnActed(c, w, t, k);
    } else {
      OtherActed(c, w, a, k, t);
    }
  }

  // ------------------------------------------------------------ the calls of a run

  /** The value of thread t's latest Push. */
  function Asked(tr: seq<World>, j: nat, t: Tid): Value
    requires j < |tr|
  {
    if j == 0 then 0
    else if t < |tr[j - 1].threads| && t < |tr[j].threads| && tr[j - 1].threads[t].Ready? && tr[j].threads[t].PushAccept?
    then tr[j].threads[t].v
    else Asked(tr, j - 1, t)
  }

  // In the step from w to w', thread t's Push returns.
  predicate Returns(w: World, w': World, t: Tid) {
    t < |w.threads| && t < |w'.threads| && InPush(w.threads[t]) && w'.threads[t].Ready?
  }

  /** The values of thread t's pushes that returned true, in order. */
  function Accepted(tr: seq<World>, j: nat, t: Tid): seq<Value>
    requires j < |tr|
  {
    if j == 0 then []
    else
      var told := Returns(tr[j - 1], tr[j], t) && tr[j].threads[t].last.Pushed?;
      Accepted(tr, j - 1, t) + (if told then [Asked(tr, j - 1, t)] else [])
  }

  /** What has been published on the slots of thread t's handles, in order. */
  function Published(tr: seq<World>, j: nat, t: Tid): seq<Value>
    requires j < |tr|
  {
    if j == 0 then []
    else Published(tr, j - 1, t) + (if Publishes(tr[j - 1], tr[j], t) then [Fresh(tr[j - 1], tr[j], t)] else [])
  }

  function Pending(tr: seq<World>, j: nat, t: Tid): seq<Value>
    requires j < |tr|
  {
    if t < |tr[j].threads| && Landed(tr[j].threads[t]) then [Asked(tr, j, t)] else []
  }

  predicate Holding(tr: seq<World>, j: nat, t: Tid)
    requires j < |tr|
  {
    t < |tr[j].threads| && Offering(tr[j].threads[t]) ==> tr[j].threads[t].v == Asked(tr, j, t)
  }

  lemma ActedTells(tr: seq<World>, j: nat, t: Tid)
    requires 0 < j < |tr| && Acted(tr[j - 1], tr[j], t) && Holding(tr, j - 1, t)
    requires Accepted(tr, j - 1, t) + Pending(tr, j - 1, t) == Published(tr, j - 1, t)
    ensures Holding(tr, j, t) && Accepted(tr, j, t) + Pending(tr, j, t) == Published(tr, j, t)
  {
    hide Publishes, Fresh;
  }

  lemma StepOf(c: Config, threads: nat, tr: seq<World>, j: nat)
    requires Run(c, threads, tr) && 0 < j < |tr|
    ensures Base(c, tr[j - 1]) && Next(c, tr[j - 1], tr[j]) && |tr[j - 1].threads| == |tr[j].threads| == threads
  {
    RunInv(c, threads, tr, j - 1);
    RunThreads(c, threads, tr, j - 1);
    RunThreads(c, threads, tr, j);
    assert NextAt(c, tr, j - 1);
    hide Base, Next, Run;
  }

  lemma AfterStart(c: Config, threads: nat, tr: seq<World>, j: nat, t: Tid)
    requires Run(c, threads, tr) && j < |tr| && t < |tr[j].threads| && !tr[j].threads[t].Out?
    ensures j > 0
  {
  }

  lemma RunActed(c: Config, threads: nat, tr: seq<World>, j: nat, t: Tid)
    requires Run(c, threads, tr) && 0 < j < |tr| && t < threads
    ensures |tr[j - 1].threads| == threads && Acted(tr[j - 1], tr[j], t)
  {
    StepOf(c, threads, tr, j);
    NextActed(c, tr[j - 1], tr[j], t);
  }

  lemma {:induction false} RunThreads(c: Config, threads: nat, tr: seq<World>, j: nat)
    requires Run(c, threads, tr) && j < |tr|
    ensures |tr[j].threads| == threads
  {
    if j > 0 {
      RunThreads(c, threads, tr, j - 1);
      assert NextAt(c, tr, j - 1);
      NextThreads(c, tr[j - 1], tr[j]);
    }
  }

  lemma NextThreads(c: Config, w: World, w': World)
    requires Next(c, w, w')
    ensures |w'.threads| == |w.threads|
  {
  }

  /**
   * True and false are exact: the pushes of a thread that returned true, and the
   * one that has published and not returned yet, are the events published on its
   * slots, value for value and in order; so one that returned false has published
   * nothing.
   */
  lemma {:induction false} TrueIsPublished(c: Config, threads: nat, tr: seq<World>, j: nat, t: Tid)
    requires Run(c, threads, tr) && j < |tr| && t < threads
    ensures Accepted(tr, j, t) + Pending(tr, j, t) == Published(tr, j, t)
    ensures Holding(tr, j, t)
  {
    if j > 0 {
      TrueIsPublished(c, threads, tr, j - 1, t);
      RunActed(c, threads, tr, j, t);
      ActedTells(tr, j, t);
    }
  }

  // ------------------------------------------------------------ refusals

  predicate Full(c: Config, w: World, i: nat) { i < |w.slots| && w.slots[i].tail == w.slots[i].head + c.cap }

  lemma DropFrom(c: Config, w: World, w': World, t: Tid)
    requires Base(c, w) && Next(c, w, w') && t < |w.threads| == |w'.threads|
    requires w'.threads[t].PushDrop? && w.threads[t] != w'.threads[t]
    ensures w.threads[t].PushHead? && w.threads[t].i == w'.threads[t].i && Full(c, w, w.threads[t].i)
  {
    hide Base, Next;
    var k := MovesItself(c, w, w', t);
  }

  lemma RefusedFrom(c: Config, w: World, w': World, t: Tid)
    requires Base(c, w) && Next(c, w, w') && Returns(w, w', t) && w'.threads[t].last.Refused?
    ensures w.threads[t].PushDrop? || (w.threads[t].PushAccept? && !w.accepting)
  {
    hide Base, Next;
    var k := MovesItself(c, w, w', t);
  }

  // Thread t has been at PushDrop(i) since the load that found the ring full at state m.
  ghost predicate FoundFull(c: Config, tr: seq<World>, m: nat, j: nat, t: Tid, i: nat) {
    && m < j < |tr| && t < |tr[m].threads| && tr[m].threads[t].PushHead? && tr[m].threads[t].i == i && Full(c, tr[m], i)
    && forall l | m < l <= j :: t < |tr[l].threads| && tr[l].threads[t] == PushDrop(i)
  }

  /** A push gives its event up only after a load of the head that found the ring full. */
  lemma {:induction false} DropIsTruthful(c: Config, threads: nat, tr: seq<World>, j: nat, t: Tid) returns (m: nat)
    requires Run(c, threads, tr) && j < |tr| && t < threads && t < |tr[j].threads| && tr[j].threads[t].PushDrop?
    ensures FoundFull(c, tr, m, j, t, tr[j].threads[t].i)
  {
    AfterStart(c, threads, tr, j, t);
    StepOf(c, threads, tr, j);
    hide Run, Next, Base, Full;
    if tr[j - 1].threads[t] == tr[j].threads[t] {
      m := DropIsTruthful(c, threads, tr, j - 1, t);
    } else {
      m := j - 1;
      DropFrom(c, tr[j - 1], tr[j], t);
    }
  }

  /** False means one of two things: the pipeline was not accepting at the load, or the ring was full at the load of its head. */
  lemma FalseIsTruthful(c: Config, threads: nat, tr: seq<World>, j: nat, t: Tid)
    requires Run(c, threads, tr) && j + 1 < |tr| && t < threads && Returns(tr[j], tr[j + 1], t) && tr[j + 1].threads[t].last.Refused?
    ensures (tr[j].threads[t].PushAccept? && !tr[j].accepting) || exists m: nat :: FoundFull(c, tr, m, j, t, tr[j].threads[t].i)
  {
    StepOf(c, threads, tr, j + 1);
    RefusedFrom(c, tr[j], tr[j + 1], t);
    hide Run, Next, Base;
    if tr[j].threads[t].PushDrop? {
      var m := DropIsTruthful(c, threads, tr, j, t);
    }
  }

  /** Every call returns one or the other. */
  lemma PushReplies(c: Config, threads: nat, tr: seq<World>, j: nat, t: Tid)
    requires Run(c, threads, tr) && j + 1 < |tr| && t < threads && Returns(tr[j], tr[j + 1], t)
    ensures !tr[j + 1].threads[t].last.Registered?
    ensures tr[j + 1].threads[t].last.Pushed? <==> Landed(tr[j].threads[t])
  {
    RunActed(c, threads, tr, j + 1, t);
  }

  // ------------------------------------------------------------ registering

  // Thread t, looking for a free slot since state m, found slot k taken then.
  ghost predicate FoundTaken(tr: seq<World>, m: nat, j: nat, t: Tid, k: nat) {
    && m < j < |tr| && t < |tr[m].threads| && tr[m].threads[t] == RegTry(k) && k < |tr[m].slots| && !tr[m].slots[k].state.Free?
    && forall l | m <= l <= j :: t < |tr[l].threads| && tr[l].threads[t].RegTry?
  }

  lemma RegFrom(c: Config, w: World, w': World, t: Tid)
    requires Base(c, w) && Next(c, w, w') && t < |w.threads| == |w'.threads|
    requires w'.threads[t].RegTry? && w.threads[t] != w'.threads[t]
    ensures w'.threads[t].i == 0 || (w.threads[t] == RegTry(w'.threads[t].i - 1) && w.threads[t].i < |w.slots| && !w.slots[w.threads[t].i].state.Free?)
  {
    hide Base, Next;
    var k := MovesItself(c, w, w', t);
  }

  /** A registration passes a slot over only after a look that found it taken; so one that fails has found every slot taken. */
  lemma {:induction false} RegistryFull(c: Config, threads: nat, tr: seq<World>, j: nat, t: Tid, k: nat) returns (m: nat)
    requires Run(c, threads, tr) && j < |tr| && t < threads && t < |tr[j].threads| && tr[j].threads[t].RegTry? && k < tr[j].threads[t].i
    ensures FoundTaken(tr, m, j, t, k)
  {
    AfterStart(c, threads, tr, j, t);
    StepOf(c, threads, tr, j);
    hide Run, Next, Base;
    if tr[j - 1].threads[t] != tr[j].threads[t] { RegFrom(c, tr[j - 1], tr[j], t); }
    if tr[j - 1].threads[t] == RegTry(k) && tr[j].threads[t] != RegTry(k) {
      m := j - 1;
    } else {
      m := RegistryFull(c, threads, tr, j - 1, t, k);
    }
  }
}

/** What every step of the weir pipeline keeps: one slot, one thread, and the consumer at a time. */
module WeirInvariant {
  import Slots
  import opened Weir

  // ------------------------------------------------------------ slots

  /**
   * The ring's indices with their stale copies; a free slot is empty and holds no
   * counts; one owner's events precede the next one's; the live cells hold what
   * was published.
   */
  ghost predicate SlotOk(c: Config, s: Slot) {
    && s.cachedHead <= s.head <= s.cachedTail <= s.tail <= s.cachedHead + c.cap
    && (s.state.Free? ==> s.head == s.tail && s.pushed == 0 && s.dropped == 0)
    && s.stop <= s.tail == |s.log|
    && Generations(s) && Stored(c, s)
  }

  ghost predicate Stored(c: Config, s: Slot) {
    c.cap > 0 && |s.cells| == c.cap && s.tail == |s.log| && forall p | s.head <= p < s.tail :: LiveCell(s, p)
  }

  predicate LiveCell(s: Slot, p: nat) { p < |s.log| && s.cells != [] && CellAt(s, p) == s.log[p] }

  ghost predicate Generations(s: Slot) {
    && (forall k | 0 <= k < |s.log| :: s.log[k].gen <= s.gen)
    && (forall j, k | 0 <= j < k < |s.log| :: s.log[j].gen <= s.log[k].gen)
  }

  // ------------------------------------------------------------ producers

  predicate Pushing(pc: Ppc) { pc.PushAccept? || pc.PushLook? || pc.PushHead? || pc.PushWrite? || pc.PushStore? || pc.PushCount? || pc.PushDrop? }

  predicate Signalling(pc: Ppc) { pc.SigLoad? || pc.SigOr? || pc.SigParked? || pc.SigNotify? }

  /** The thread holds the handle of slot pc.i. */
  predicate Owning(pc: Ppc) {
    || pc.RegPushed? || pc.RegDropped? || pc.Ready? || Pushing(pc) || pc.RetState?
    || (Signalling(pc) && pc.why.AfterPush?)
  }

  predicate Owns(w: World, t: Tid, i: nat) { t < |w.threads| && Owning(w.threads[t]) && w.threads[t].i == i }

  // What is true of thread t at pc, of slot i, s.
  predicate PcOk(c: Config, t: Tid, pc: Ppc, s: Slot) {
    && s.state.Active? && s.owner == t
    && (pc.PushWrite? || pc.PushStore? ==> s.tail < s.cachedHead + c.cap)
    && (pc.PushStore? ==> CellAt(s, s.tail) == Event(s.gen, pc.v))
    && (pc.RegPushed? || pc.RegDropped? ==> s.pushed == 0 && s.dropped == 0)
  }

  predicate ThreadOk(c: Config, w: World, t: Tid)
    requires t < |w.threads|
  {
    var pc := w.threads[t];
    && (!pc.Out? && !pc.RegTry? ==> pc.i < |w.slots|)
    && (Owning(pc) ==> PcOk(c, t, pc, w.slots[pc.i]))
  }

  predicate Owned(w: World, i: nat)
    requires i < |w.slots|
  {
    w.slots[i].state.Active? ==> Owns(w, w.slots[i].owner, i)
  }

  // ------------------------------------------------------------ the consumer

  predicate Below(s: seq<nat>, n: nat) { forall k | 0 <= k < |s| :: s[k] < n }

  // The consumer's counter names only slots that exist.
  predicate Ranged(n: nat, pc: Cpc) {
    && (pc.Scan? || pc.Room? || pc.PopTail? || pc.PopCopy? || pc.PopHead? ==> Below(pc.todo, n))
    && (pc.Room? || pc.PopTail? || pc.PopCopy? || pc.PopHead? ==> pc.todo != [])
    && (pc.RecEmpty? || Emptied(pc) ==> pc.i < n)
    && (pc.ClrEmpty? || pc.ClrAnd? || pc.ClrAgain? || pc.ClrState? || pc.ClrOr? ==> Below(pc.m, n))
    && (pc.ClrAnd? || pc.ClrAgain? || pc.ClrState? || pc.ClrOr? ==> pc.m != [])
  }

  predicate Emptied(pc: Cpc) {
    pc.RecPushed? || pc.RecAddPushed? || pc.RecDropped? || pc.RecAddDropped? || pc.RecClear? || pc.RecFree?
  }

  // The slot the consumer is busy with.
  predicate Busy(pc: Cpc) { pc.PopCopy? || pc.PopHead? || pc.RecEmpty? || Emptied(pc) }

  // What it knows of it.
  predicate HandOk(pc: Cpc, s: Slot) {
    && (pc.PopCopy? ==> |pc.batch| < pc.n && s.head + pc.n <= s.cachedTail && BatchOf(s, pc.batch))
    && (pc.PopHead? ==> s.head + |pc.batch| <= s.cachedTail && BatchOf(s, pc.batch) && pc.batch != [])
    && (pc.RecEmpty? ==> s.state.Retiring?)
    && (Emptied(pc) ==> RetiredOk(pc, s))
  }

  predicate BatchOf(s: Slot, batch: seq<Event>) {
    s.head + |batch| <= |s.log| && batch == s.log[s.head..s.head + |batch|]
  }

  predicate RetiredOk(pc: Cpc, s: Slot) {
    && s.state.Retiring? && s.head == s.tail
    && (Emptied(pc) && !pc.RecPushed? ==> s.pushed == 0)
    && (pc.RecAddDropped? || pc.RecClear? || pc.RecFree? ==> s.dropped == 0)
  }

  // The stage never overflows, and a batch that has begun has room.
  predicate RoomOk(c: Config, pc: Cpc, staged: nat) {
    && staged <= c.stage
    && (pc.PopTail? ==> staged < c.stage && pc.got < c.batch)
    && (pc.PopCopy? ==> staged + pc.n <= c.stage && pc.got + pc.n <= c.batch)
    && (pc.PopHead? ==> staged + |pc.batch| <= c.stage)
  }

  predicate ConsumerOk(c: Config, w: World) {
    && w.rotate < c.n && Ranged(c.n, w.cpc) && RoomOk(c, w.cpc, |w.staged|)
    && (Busy(w.cpc) ==> At(c.n, w.cpc) < |w.slots| && HandOk(w.cpc, w.slots[At(c.n, w.cpc)]))
  }

  ghost predicate Base(c: Config, w: World) {
    && Sane(c) && |w.slots| == c.n
    && (forall i | 0 <= i < |w.slots| :: SlotOk(c, w.slots[i]) && Owned(w, i))
    && (forall t | 0 <= t < |w.threads| :: ThreadOk(c, w, t))
    && ConsumerOk(c, w)
    && forall a | a in w.active :: a < c.n
  }

  // ------------------------------------------------------------ a producer's step

  // How thread t changes a slot: it claims a free one, or works on its own.
  ghost predicate ByProducer(t: Tid, s: Slot, s': Slot) {
    || s' == s
    || (s.state.Free? && s' == s.(state := Active, owner := t, gen := s.gen + 1))
    || (s.state.Active? && s.owner == t && s' == s.(state := s'.state, cells := s'.cells, tail := s'.tail, cachedHead := s'.cachedHead,
                                                   log := s'.log, pushed := s'.pushed, dropped := s'.dropped)
        && !s'.state.Free? && s.log <= s'.log && s.tail <= s'.tail)
  }

  lemma ProduceFrame(c: Config, t: Tid, pc: Ppc, s: Slot)
    requires TouchesSlot(pc) && SlotOk(c, s) && (Owning(pc) ==> PcOk(c, t, pc, s))
    ensures var s' := Produce(t, pc, s); ByProducer(t, s, s') && SlotOk(c, s')
  {
    ProduceStored(c, t, pc, s);
    hide Stored, CellAt;
  }

  /** The cell at the tail is no live position's, as long as the ring has room. */
  lemma WriteIsFresh(c: Config, s: Slot, p: nat)
    requires c.cap > 0 && |s.cells| == c.cap && s.cachedHead <= s.head <= p < s.tail < s.cachedHead + c.cap
    ensures Slots.Slot(c.cap, p) != Slots.Slot(c.cap, s.tail)
  {
    if Slots.Slot(c.cap, p) == Slots.Slot(c.cap, s.tail) { Slots.SameSlot(c.cap, p, s.tail); }
  }

  lemma ProduceStored(c: Config, t: Tid, pc: Ppc, s: Slot)
    requires Stored(c, s) && s.cachedHead <= s.head <= s.tail && (Owning(pc) ==> PcOk(c, t, pc, s))
    ensures Stored(c, Produce(t, pc, s))
  {
    var s' := Produce(t, pc, s);
    forall p | s'.head <= p < s'.tail ensures LiveCell(s', p) {
      if p < s.tail {
        assert LiveCell(s, p);
        if pc.PushWrite? { WriteIsFresh(c, s, p); }
      }
    }
  }

  lemma ProducePlace(c: Config, t: Tid, pc: Ppc, s: Slot, k: Choice)
    requires TouchesSlot(pc) && SlotOk(c, s) && (Owning(pc) ==> PcOk(c, t, pc, s))
    ensures var s', pc' := Produce(t, pc, s), SlotPc(c, pc, s, k);
      && (!pc'.Out? && !pc'.RegTry? ==> pc'.i == pc.i) && (Owning(pc') ==> PcOk(c, t, pc', s'))
      && (s'.state.Active? && (s' != s || Owning(pc)) ==> s'.owner == t && Owning(pc'))
  {
  }

  lemma WordPlace(c: Config, w: World, pc: Ppc, k: Choice)
    requires !TouchesSlot(pc)
    ensures var pc' := WordPc(c, w, pc, k);
      && (!pc'.Out? && !pc'.RegTry? ==> !pc.Out? && pc'.i == pc.i)
      && (Owning(pc') <==> Owning(pc)) && !pc'.PushWrite? && !pc'.PushStore? && !pc'.RegPushed? && !pc'.RegDropped?
  {
  }

  // Another thread's place is unaffected.
  lemma OthersKeep(c: Config, w: World, w': World, t: Tid, i: nat, u: Tid)
    requires |w'.slots| == |w.slots| && |w'.threads| == |w.threads| && i < |w.slots| && w'.slots == w.slots[i := w'.slots[i]]
    requires ByProducer(t, w.slots[i], w'.slots[i])
    requires u < |w.threads| && u != t && w'.threads[u] == w.threads[u] && ThreadOk(c, w, u)
    ensures ThreadOk(c, w', u)
  {
  }

  lemma BatchKeeps(t: Tid, s: Slot, s': Slot, batch: seq<Event>)
    requires ByProducer(t, s, s') && BatchOf(s, batch)
    ensures BatchOf(s', batch) && s'.head == s.head && s'.cachedTail == s.cachedTail
  {
    assert s.log <= s'.log;
    assert s'.log[s.head..s.head + |batch|] == s.log[s.head..s.head + |batch|];
  }

  lemma ConsumerUnmoved(c: Config, w: World, w': World, t: Tid, i: nat)
    requires |w'.slots| == |w.slots| && i < |w.slots| && w'.slots == w.slots[i := w'.slots[i]]
    requires ByProducer(t, w.slots[i], w'.slots[i]) && w'.cpc == w.cpc && w'.staged == w.staged && w'.rotate == w.rotate && ConsumerOk(c, w)
    ensures ConsumerOk(c, w')
  {
    if (w.cpc.PopCopy? || w.cpc.PopHead?) && At(c.n, w.cpc) == i { BatchKeeps(t, w.slots[i], w'.slots[i], w.cpc.batch); }
  }

  lemma ProducerPlace(c: Config, w: World, t: Tid, k: Choice)
    requires t < |w.threads| && ThreadOk(c, w, t) && (AtSlot(w, w.threads[t]) ==> SlotOk(c, w.slots[w.threads[t].i]))
    ensures ThreadOk(c, ProducerStep(c, w, t, k), t)
  {
    hide Produce, SlotPc, WordPc, SlotOk;
    if AtSlot(w, w.threads[t]) { ProducerPlaceAt(c, w, t, k); } else { ProducerPlaceOff(c, w, t, k); }
    hide ProducerStep, ThreadOk;
  }

  lemma ProducerPlaceAt(c: Config, w: World, t: Tid, k: Choice)
    requires t < |w.threads| && ThreadOk(c, w, t) && AtSlot(w, w.threads[t]) && SlotOk(c, w.slots[w.threads[t].i])
    ensures ThreadOk(c, ProducerStep(c, w, t, k), t)
  {
    var pc := w.threads[t];
    ProducePlace(c, t, pc, w.slots[pc.i], k);
    StepAt(c, w, t, k);
    hide Produce, SlotPc, SlotOk, PcOk, ProducerStep;
  }

  lemma ProducerPlaceOff(c: Config, w: World, t: Tid, k: Choice)
    requires t < |w.threads| && ThreadOk(c, w, t) && !AtSlot(w, w.threads[t])
    ensures ThreadOk(c, ProducerStep(c, w, t, k), t)
  {
    hide WordPc;
    if !TouchesSlot(w.threads[t]) { WordPlace(c, w, w.threads[t], k); }
  }

  lemma StepAt(c: Config, w: World, t: Tid, k: Choice)
    requires t < |w.threads| && AtSlot(w, w.threads[t])
    ensures var w', pc := ProducerStep(c, w, t, k), w.threads[t];
      && w'.threads == w.threads[t := SlotPc(c, pc, w.slots[pc.i], k)]
      && w'.slots == w.slots[pc.i := Produce(t, pc, w.slots[pc.i])]
  {
    hide Produce, SlotPc;
  }

  lemma ProducerOwnedAt(c: Config, w: World, t: Tid, k: Choice)
    requires t < |w.threads| && ThreadOk(c, w, t) && AtSlot(w, w.threads[t])
    requires var i := w.threads[t].i; SlotOk(c, w.slots[i]) && Owned(w, i)
    ensures var w', i := ProducerStep(c, w, t, k), w.threads[t].i; SlotOk(c, w'.slots[i]) && Owned(w', i)
  {
    var pc := w.threads[t];
    ProduceFrame(c, t, pc, w.slots[pc.i]);
    ProducePlace(c, t, pc, w.slots[pc.i], k);
    StepAt(c, w, t, k);
    hide SlotOk, Produce, SlotPc, ThreadOk, PcOk, ProducerStep;
  }

  lemma ProducerOwnedElsewhere(c: Config, w: World, t: Tid, k: Choice, i: nat)
    requires t < |w.threads| && ThreadOk(c, w, t) && i < |w.slots| && Owned(w, i) && !(AtSlot(w, w.threads[t]) && w.threads[t].i == i)
    ensures var w' := ProducerStep(c, w, t, k); w'.slots[i] == w.slots[i] && Owned(w', i)
  {
    hide SlotOk, Produce, SlotPc, WordPc;
    if !TouchesSlot(w.threads[t]) { WordPlace(c, w, w.threads[t], k); }
  }

  lemma ProducerOwned(c: Config, w: World, t: Tid, k: Choice, i: nat)
    requires t < |w.threads| && ThreadOk(c, w, t) && i < |w.slots| && SlotOk(c, w.slots[i]) && Owned(w, i)
    ensures var w' := ProducerStep(c, w, t, k); SlotOk(c, w'.slots[i]) && Owned(w', i)
  {
    hide SlotOk, Owned, ThreadOk;
    if AtSlot(w, w.threads[t]) && w.threads[t].i == i { ProducerOwnedAt(c, w, t, k); }
    else { ProducerOwnedElsewhere(c, w, t, k, i); }
  }

  lemma ProducerBase(c: Config, w: World, t: Tid, k: Choice)
    requires Base(c, w) && t < |w.threads|
    ensures Base(c, ProducerStep(c, w, t, k))
  {
    var w' := ProducerStep(c, w, t, k);
    var pc := w.threads[t];
    assert ThreadOk(c, w, t);
    forall u | 0 <= u < |w'.threads| ensures ThreadOk(c, w', u) {
      if u == t { ProducerPlace(c, w, t, k); }
      else if AtSlot(w, pc) {
        ProduceFrame(c, t, pc, w.slots[pc.i]);
        OthersKeep(c, w, w', t, pc.i, u);
      } else { assert ThreadOk(c, w, u); }
    }
    forall i | 0 <= i < |w'.slots| ensures SlotOk(c, w'.slots[i]) && Owned(w', i) { ProducerOwned(c, w, t, k, i); }
    if AtSlot(w, pc) {
      ProduceFrame(c, t, pc, w.slots[pc.i]);
      ConsumerUnmoved(c, w, w', t, pc.i);
    }
  }

  // ------------------------------------------------------------ the consumer's step

  // How the consumer changes a slot.
  ghost predicate ByConsumer(s: Slot, s': Slot) {
    && s' == s.(state := s'.state, head := s'.head, cachedTail := s'.cachedTail, pushed := s'.pushed, dropped := s'.dropped, missed := s'.missed)
    && s.head <= s'.head
    && (s'.state == s.state || (s.state.Retiring? && s'.state.Free?))
    && (!s.state.Retiring? ==> s'.pushed == s.pushed && s'.dropped == s.dropped)
  }

  lemma ConsumeFrame(c: Config, pc: Cpc, s: Slot)
    requires SlotOk(c, s) && HandOk(pc, s)
    ensures ByConsumer(s, Consume(pc, s)) && SlotOk(c, Consume(pc, s))
  {
    ConsumeStored(c, pc, s);
    hide Stored;
  }

  lemma ConsumeStored(c: Config, pc: Cpc, s: Slot)
    requires Stored(c, s)
    ensures Stored(c, Consume(pc, s))
  {
    var s' := Consume(pc, s);
    forall p | s'.head <= p < s'.tail ensures LiveCell(s', p) { assert LiveCell(s, p); }
  }

  lemma AmongSound(order: seq<nat>, m: set<nat>, n: nat)
    requires Below(order, n)
    ensures Below(Among(order, m), n)
  {
    if order != [] { assert Below(order[1..], n); AmongSound(order[1..], m, n); }
  }

  lemma OrderBelow(n: nat, r: nat)
    requires r < n
    ensures Below(Order(n, r), n)
  {
  }

  lemma DrainRanged(c: Config, pc: Cpc, s: Slot, staged: nat, r: nat)
    requires Sane(c) && r < c.n && Ranged(c.n, pc) && Drains(pc)
    ensures Ranged(c.n, DrainPc(c, pc, s, staged, r))
  {
    OrderBelow(c.n, 0);
    OrderBelow(c.n, r);
    OrderBelow(c.n, Rotated(c, r));
  }

  lemma ReclaimRanged(n: nat, pc: Cpc, s: Slot)
    requires Ranged(n, pc) && Reclaims(pc)
    ensures Ranged(n, ReclaimPc(pc, n, s))
  {
  }

  lemma ClearRanged(c: Config, pc: Cpc, s: Slot, active: set<nat>, r: nat)
    requires Sane(c) && r < c.n && Ranged(c.n, pc) && Clears(pc)
    ensures Ranged(c.n, ClearPc(c, pc, s, active, r))
  {
    OrderBelow(c.n, 0);
    OrderBelow(c.n, r);
    AmongSound(Order(c.n, 0), active, c.n);
  }

  lemma LoopRanged(c: Config, w: World, k: Choice)
    requires Sane(c) && w.rotate < c.n && Ranged(c.n, w.cpc)
    ensures Ranged(c.n, LoopPc(c, w, k))
  {
    OrderBelow(c.n, 0);
    OrderBelow(c.n, w.rotate);
    AmongSound(Order(c.n, w.rotate), w.active, c.n);
  }

  lemma ConsumerRanged(c: Config, w: World, s: Slot, k: Choice)
    requires Sane(c) && w.rotate < c.n && Ranged(c.n, w.cpc)
    ensures Ranged(c.n, ConsumerPc(c, w, s, k)) && RotateAfter(c, w) < c.n
  {
    if Drains(w.cpc) { DrainRanged(c, w.cpc, s, |w.staged|, w.rotate); }
    else if Reclaims(w.cpc) { ReclaimRanged(c.n, w.cpc, s); }
    else if Clears(w.cpc) { ClearRanged(c, w.cpc, s, w.active, w.rotate); }
    else { LoopRanged(c, w, k); }
  }

  /** A live cell read into a batch makes it one longer piece of what was published. */
  lemma CopyIs(c: Config, s: Slot, batch: seq<Event>)
    requires Stored(c, s) && BatchOf(s, batch) && s.head + |batch| < s.tail
    ensures BatchOf(s, batch + [CellAt(s, s.head + |batch|)])
  {
    assert LiveCell(s, s.head + |batch|);
  }

  // The room in the stage after a step.
  function StagedAt(c: Config, pc: Cpc, staged: nat): nat {
    if pc.PopHead? then staged + |pc.batch|
    else if pc.Flush? || pc.LastFlush? || (pc.Room? && pc.got < c.batch && staged == c.stage) then 0
    else staged
  }

  lemma DrainRoom(c: Config, pc: Cpc, s: Slot, staged: nat, r: nat)
    requires Sane(c) && Drains(pc) && SlotOk(c, s) && RoomOk(c, pc, staged) && (Busy(pc) ==> HandOk(pc, s))
    ensures RoomOk(c, DrainPc(c, pc, s, staged, r), StagedAt(c, pc, staged))
  {
    hide Stored, Generations;
  }

  lemma DrainHand(c: Config, pc: Cpc, s: Slot, staged: nat, r: nat)
    requires Sane(c) && Ranged(c.n, pc) && Drains(pc) && SlotOk(c, s) && RoomOk(c, pc, staged) && (Busy(pc) ==> HandOk(pc, s))
    ensures var pc' := DrainPc(c, pc, s, staged, r); Busy(pc') ==> At(c.n, pc') == At(c.n, pc) && HandOk(pc', Consume(pc, s))
  {
    if pc.PopTail? { TailHand(c, pc, s, staged, r); }
    else if pc.PopCopy? { CopyHand(c, pc, s, staged, r); }
    else { OnlyPopTakesHold(c, pc, s, staged, r); }
    hide DrainPc, Consume, HandOk, SlotOk;
  }

  lemma TailHand(c: Config, pc: Cpc, s: Slot, staged: nat, r: nat)
    requires Sane(c) && Ranged(c.n, pc) && pc.PopTail? && SlotOk(c, s) && RoomOk(c, pc, staged)
    ensures var pc' := DrainPc(c, pc, s, staged, r); Busy(pc') ==> At(c.n, pc') == At(c.n, pc) && HandOk(pc', Consume(pc, s))
  {
    hide Stored, Generations;
  }

  lemma CopyHand(c: Config, pc: Cpc, s: Slot, staged: nat, r: nat)
    requires Ranged(c.n, pc) && pc.PopCopy? && SlotOk(c, s) && HandOk(pc, s)
    ensures var pc' := DrainPc(c, pc, s, staged, r); Busy(pc') ==> At(c.n, pc') == At(c.n, pc) && HandOk(pc', Consume(pc, s))
  {
    CopyIs(c, s, pc.batch);
    hide Stored, Generations, CellAt;
  }

  lemma OnlyPopTakesHold(c: Config, pc: Cpc, s: Slot, staged: nat, r: nat)
    requires Drains(pc) && !pc.PopTail? && !pc.PopCopy?
    ensures !Busy(DrainPc(c, pc, s, staged, r))
  {
  }

  lemma ReclaimHand(c: Config, pc: Cpc, s: Slot)
    requires Reclaims(pc) && Ranged(c.n, pc) && SlotOk(c, s) && (Busy(pc) ==> HandOk(pc, s))
    ensures var pc' := ReclaimPc(pc, c.n, s); Busy(pc') ==> At(c.n, pc) < c.n && At(c.n, pc') == At(c.n, pc) && HandOk(pc', Consume(pc, s))
  {
  }

  lemma NoHand(c: Config, w: World, s: Slot, k: Choice)
    requires !Drains(w.cpc) && !Reclaims(w.cpc) && RoomOk(c, w.cpc, |w.staged|)
    ensures !Busy(ConsumerPc(c, w, s, k)) && RoomOk(c, ConsumerPc(c, w, s, k), |StagedAfter(c, w)|)
  {
  }

  // The slot the consumer's step is on.
  function Target(c: Config, w: World): Slot {
    var i := At(c.n, w.cpc);
    if i < |w.slots| then w.slots[i] else Blank(c)
  }

  lemma BlankOk(c: Config)
    requires Sane(c)
    ensures SlotOk(c, Blank(c))
  {
  }

  lemma StagedLength(c: Config, w: World)
    requires Ranged(c.n, w.cpc)
    ensures |StagedAfter(c, w)| == StagedAt(c, w.cpc, |w.staged|)
  {
  }

  lemma ConsumerHand(c: Config, w: World, k: Choice)
    requires Sane(c) && |w.slots| == c.n && ConsumerOk(c, w) && SlotOk(c, Target(c, w))
    ensures var s, pc' := Target(c, w), ConsumerPc(c, w, Target(c, w), k);
      && RoomOk(c, pc', |StagedAfter(c, w)|)
      && (Busy(pc') ==> At(c.n, w.cpc) < c.n && At(c.n, pc') == At(c.n, w.cpc) && HandOk(pc', Consume(w.cpc, s)))
  {
    var s := Target(c, w);
    StagedLength(c, w);
    if Drains(w.cpc) {
      DrainRoom(c, w.cpc, s, |w.staged|, w.rotate);
      DrainHand(c, w.cpc, s, |w.staged|, w.rotate);
    }
    else if Reclaims(w.cpc) { ReclaimHand(c, w.cpc, s); }
    else { NoHand(c, w, s, k); }
  }

  lemma ThreadUnmoved(c: Config, w: World, w': World, i: nat, t: Tid)
    requires |w'.slots| == |w.slots| && w'.threads == w.threads && i < |w.slots| && w'.slots == w.slots[i := w'.slots[i]]
    requires ByConsumer(w.slots[i], w'.slots[i]) && t < |w.threads| && ThreadOk(c, w, t)
    ensures ThreadOk(c, w', t)
  {
  }

  lemma ActiveBelow(c: Config, w: World)
    requires Ranged(c.n, w.cpc) && (forall a | a in w.active :: a < c.n)
    ensures forall a | a in ActiveAfter(w.cpc, w.active) :: a < c.n
  {
  }

  lemma ConsumerBase(c: Config, w: World, k: Choice)
    requires Base(c, w)
    ensures Base(c, ConsumerStep(c, w, k))
  {
    var w' := ConsumerStep(c, w, k);
    var i := At(c.n, w.cpc);
    var s := Target(c, w);
    BlankOk(c);
    ConsumerRanged(c, w, s, k);
    ConsumerHand(c, w, k);
    ActiveBelow(c, w);
    if i < |w.slots| {
      ConsumeFrame(c, w.cpc, s);
      forall t | 0 <= t < |w'.threads| ensures ThreadOk(c, w', t) { ThreadUnmoved(c, w, w', i, t); }
      forall j | 0 <= j < |w'.slots| ensures SlotOk(c, w'.slots[j]) && Owned(w', j) { assert Owned(w, j); }
    } else {
      forall t | 0 <= t < |w'.threads| ensures ThreadOk(c, w', t) { assert ThreadOk(c, w, t); }
      forall j | 0 <= j < |w'.slots| ensures SlotOk(c, w'.slots[j]) && Owned(w', j) { assert Owned(w, j); }
    }
  }

  // ------------------------------------------------------------ the stopper's step

  // It marks the tails and leaves producers and consumer alone.
  ghost predicate Restopped(w: World, w': World) {
    && w'.threads == w.threads && w'.cpc == w.cpc && w'.rotate == w.rotate && w'.staged == w.staged && w'.active == w.active
    && w'.sink == w.sink
    && |w'.slots| == |w.slots|
    && forall j | 0 <= j < |w.slots| :: w'.slots[j] == w.slots[j].(stop := w'.slots[j].stop)
  }

  lemma StopFrame(c: Config, w: World, k: Choice)
    ensures Restopped(w, StopStep(c, w, k))
    ensures forall j | 0 <= j < |w.slots| :: var x := StopStep(c, w, k).slots[j].stop; x == w.slots[j].stop || x == w.slots[j].tail
  {
  }

  lemma RestoppedThread(c: Config, w: World, w': World, t: Tid)
    requires Restopped(w, w') && t < |w.threads| && ThreadOk(c, w, t)
    ensures ThreadOk(c, w', t)
  {
    var pc := w.threads[t];
    if Owning(pc) { assert w'.slots[pc.i] == w.slots[pc.i].(stop := w'.slots[pc.i].stop); }
  }

  lemma RestoppedSlot(c: Config, w: World, w': World, j: nat)
    requires Restopped(w, w') && j < |w.slots| && SlotOk(c, w.slots[j]) && Owned(w, j) && w'.slots[j].stop <= w.slots[j].tail
    ensures SlotOk(c, w'.slots[j]) && Owned(w', j)
  {
    var s, s' := w.slots[j], w'.slots[j];
    assert s' == s.(stop := s'.stop);
    forall p | s'.head <= p < s'.tail ensures LiveCell(s', p) { assert LiveCell(s, p); }
  }

  lemma StopBase(c: Config, w: World, k: Choice)
    requires Base(c, w)
    ensures Base(c, StopStep(c, w, k))
  {
    var w' := StopStep(c, w, k);
    StopFrame(c, w, k);
    forall t | 0 <= t < |w'.threads| ensures ThreadOk(c, w', t) { RestoppedThread(c, w, w', t); }
    forall j | 0 <= j < |w'.slots| ensures SlotOk(c, w'.slots[j]) && Owned(w', j) {
      assert SlotOk(c, w.slots[j]);
      RestoppedSlot(c, w, w', j);
    }
    var i := At(c.n, w.cpc);
    if Busy(w.cpc) { assert w'.slots[i] == w.slots[i].(stop := w'.slots[i].stop); }
  }

  lemma StepBase(c: Config, w: World, a: Actor, k: Choice)
    requires Base(c, w) && Acts(w, a)
    ensures Base(c, Step(c, w, a, k))
  {
    match a
    case Producer(t) => ProducerBase(c, w, t, k);
    case Consumer => ConsumerBase(c, w, k);
    case Stopper => StopBase(c, w, k);
  }

  lemma InitBase(c: Config, threads: nat)
    requires Sane(c)
    ensures Base(c, Init(c, threads))
  {
    BlankOk(c);
  }
}

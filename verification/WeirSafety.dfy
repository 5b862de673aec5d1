/** The weir pipeline hides no event from a sleeping consumer, loses none and counts every one. */
module WeirSafety {
  import opened Streams
  import opened Weir
  import opened WeirInvariant

  // ------------------------------------------------------------ no event is invisible

  // The owner has published and not yet made sure that the bit is set.
  predicate Announcing(pc: Ppc, i: nat) {
    (pc.PushCount? || ((pc.SigLoad? || pc.SigOr?) && pc.why.AfterPush?)) && pc.i == i
  }

  // The consumer has cleared bit i and is looking again.
  predicate Rechecks(pc: Cpc, i: nat) { (pc.ClrAgain? || pc.ClrOr?) && pc.m != [] && pc.m[0] == i }

  predicate Visible(w: World, i: nat)
    requires i < |w.slots|
  {
    var s := w.slots[i];
    s.head < s.tail ==>
      i in w.active || (s.owner < |w.threads| && Announcing(w.threads[s.owner], i)) || Rechecks(w.cpc, i)
  }

  // What a producer's step needs to know of its thread and slot.
  ghost predicate Fit(c: Config, w: World, t: Tid) {
    && t < |w.threads| && ThreadOk(c, w, t)
    && (AtSlot(w, w.threads[t]) ==> SlotOk(c, w.slots[w.threads[t].i]))
  }

  lemma BaseFit(c: Config, w: World, t: Tid)
    requires Base(c, w) && t < |w.threads|
    ensures Fit(c, w, t)
  {
  }

  lemma VisibleProducer(c: Config, w: World, t: Tid, k: Choice, i: nat)
    requires Fit(c, w, t) && c.bitmap && i < |w.slots| && Visible(w, i)
    ensures Visible(ProducerStep(c, w, t, k), i)
  {
  }

  // What the consumer's step means for bit i.
  lemma RechecksStep(c: Config, w: World, s: Slot, k: Choice, i: nat)
    requires Ranged(c.n, w.cpc)
    ensures i in w.active && i !in ActiveAfter(w.cpc, w.active) ==>
      Rechecks(ConsumerPc(c, w, s, k), i) || (w.cpc.RecClear? && w.cpc.i == i)
    ensures Rechecks(w.cpc, i) ==>
      || i in ActiveAfter(w.cpc, w.active) || Rechecks(ConsumerPc(c, w, s, k), i)
      || (At(c.n, w.cpc) == i && s.head == s.tail)
  {
  }

  lemma VisibleConsumer(c: Config, w: World, k: Choice, i: nat)
    requires Base(c, w) && i < |w.slots| && Visible(w, i)
    ensures Visible(ConsumerStep(c, w, k), i)
  {
    var s := Target(c, w);
    RechecksStep(c, w, s, k, i);
    BlankOk(c);
    ConsumeFrame(c, w.cpc, s);
    var w' := ConsumerStep(c, w, k);
    assert w'.slots[i].owner == w.slots[i].owner && w'.slots[i].log == w.slots[i].log && w.slots[i].head <= w'.slots[i].head;
  }

  // ------------------------------------------------------------ parking

  // It owes the sleeping consumer a token.
  predicate Owes(pc: Ppc) { pc.SigParked? || pc.SigNotify? }

  ghost predicate WakeComing(w: World) { w.token || exists t | 0 <= t < |w.threads| :: Owes(w.threads[t]) }

  ghost predicate ParkOk(c: Config, w: World) {
    && (w.cpc.ParkActive? || w.cpc.ParkRunning? || w.cpc.Select? ==> w.parked)
    && (w.cpc.ParkRunning? || w.cpc.Select? ==> w.active == {} || WakeComing(w))
    && (c.cond && w.token ==> w.cpc.Select?)
  }

  // Stop sends its token after it has said so.
  ghost predicate StopOk(w: World) {
    && (w.running <==> w.spc.Running? || w.spc.StopAccepting? || w.spc.Draining? || w.spc.StopRunning?)
    && (w.cpc.Select? && !w.running ==> w.token || w.spc.StopWake?)
    && (w.accepting <==> w.spc.Running? || w.spc.StopAccepting?)
  }

  lemma ParkProducer(c: Config, w: World, t: Tid, k: Choice)
    requires t < |w.threads| && ParkOk(c, w)
    ensures ParkOk(c, ProducerStep(c, w, t, k))
  {
    OthersOwe(c, w, ProducerStep(c, w, t, k), t);
  }

  // Another thread's debt stands.
  lemma OthersOwe(c: Config, w: World, w': World, t: Tid)
    requires t < |w.threads| == |w'.threads| && w'.threads == w.threads[t := w'.threads[t]] && w'.cpc == w.cpc && w'.parked == w.parked
    requires ParkOk(c, w) && (w.token ==> w'.token) && (c.cond && w'.token ==> w.cpc.Select?)
    requires (w.cpc.ParkRunning? || w.cpc.Select?) && Owes(w.threads[t]) && w.parked ==> w'.token || Owes(w'.threads[t])
    requires w.active == {} && w'.active != {} ==> Owes(w'.threads[t])
    ensures ParkOk(c, w')
  {
    if WakeComing(w) && !w'.token && (w.cpc.ParkRunning? || w.cpc.Select?) {
      var u :| 0 <= u < |w.threads| && Owes(w.threads[u]);
      assert Owes(w'.threads[u]);
    }
  }

  lemma ParkConsumer(c: Config, w: World, k: Choice)
    requires ParkOk(c, w)
    ensures ParkOk(c, ConsumerStep(c, w, k))
  {
    ParkEntry(c, w, Target(c, w), k);
  }

  // How the consumer gets to sleep.
  lemma ParkEntry(c: Config, w: World, s: Slot, k: Choice)
    ensures var pc' := ConsumerPc(c, w, s, k);
      && (pc'.ParkActive? ==> w.cpc.ParkSet?)
      && (pc'.ParkRunning? ==> w.cpc.ParkActive? && w.active == {})
      && (pc'.Select? ==> (w.cpc.ParkRunning? && w.running) || (w.cpc.Select? && !w.token && !k.Timeout?))
  {
    if Drains(w.cpc) { DrainAwake(c, w.cpc, s, |w.staged|, w.rotate); }
    else if Reclaims(w.cpc) { ReclaimAwake(w.cpc, c.n, s); }
    else if Clears(w.cpc) { ClearAwake(c, w.cpc, s, w.active, w.rotate); }
  }

  predicate Parking(pc: Cpc) { pc.ParkActive? || pc.ParkRunning? || pc.Select? }

  lemma DrainAwake(c: Config, pc: Cpc, s: Slot, staged: nat, r: nat)
    requires Drains(pc)
    ensures !Parking(DrainPc(c, pc, s, staged, r))
  {
  }

  lemma ReclaimAwake(pc: Cpc, n: nat, s: Slot)
    requires Reclaims(pc)
    ensures !Parking(ReclaimPc(pc, n, s))
  {
  }

  lemma ClearAwake(c: Config, pc: Cpc, s: Slot, active: set<nat>, r: nat)
    requires Clears(pc)
    ensures !Parking(ClearPc(c, pc, s, active, r))
  {
  }

  // ------------------------------------------------------------ retired slots

  // A reclaiming scan has slot i still before it.
  predicate Ahead(pc: Cpc, i: nat) { Reclaims(pc) && pc.i <= i }

  // A retired slot is on its way to be free, unless a scan came while events were left in it.
  predicate Noted(w: World, i: nat)
    requires i < |w.slots|
  {
    var s := w.slots[i];
    s.state.Retiring? && !s.missed ==>
      w.retirePending || (s.owner < |w.threads| && w.threads[s.owner] == RetPending(i)) || Ahead(w.cpc, i)
  }

  lemma NotedProducer(c: Config, w: World, t: Tid, k: Choice, i: nat)
    requires Fit(c, w, t) && i < |w.slots| && Noted(w, i)
    ensures Noted(ProducerStep(c, w, t, k), i)
  {
  }

  // A scan leaves slot i behind only after it has looked at it.
  lemma AheadStep(c: Config, w: World, s: Slot, k: Choice, i: nat)
    requires i < c.n && (w.cpc.RecEmpty? ==> s.state.Retiring?)
    ensures var pc' := ConsumerPc(c, w, s, k); var s' := Consume(w.cpc, s);
      Ahead(w.cpc, i) && !Ahead(pc', i) ==> At(c.n, w.cpc) == i && (!s'.state.Retiring? || s'.missed)
    ensures w.cpc.SwapPending? && w.retirePending ==> Ahead(ConsumerPc(c, w, s, k), i)
  {
  }

  lemma NotedConsumer(c: Config, w: World, k: Choice, i: nat)
    requires Base(c, w) && i < |w.slots| && Noted(w, i)
    ensures Noted(ConsumerStep(c, w, k), i)
  {
    var s := Target(c, w);
    AheadStep(c, w, s, k, i);
    BlankOk(c);
    ConsumeFrame(c, w.cpc, s);
    var w' := ConsumerStep(c, w, k);
    MissedStays(w.cpc, s);
    hide ConsumerPc, SlotOk, ThreadOk, Owned, Consume;
  }

  // Only a retired slot is marked.
  predicate MarkOk(s: Slot) { s.missed ==> s.state.Retiring? }

  lemma MarkProducer(c: Config, w: World, t: Tid, k: Choice, i: nat)
    requires Fit(c, w, t) && i < |w.slots| && MarkOk(w.slots[i])
    ensures MarkOk(ProducerStep(c, w, t, k).slots[i])
  {
    var pc := w.threads[t];
    if AtSlot(w, pc) { ProduceFrame(c, t, pc, w.slots[pc.i]); }
    hide Produce, ProducerPc, SlotOk;
  }

  lemma MarkConsumer(c: Config, pc: Cpc, s: Slot)
    requires MarkOk(s) && HandOk(pc, s)
    ensures MarkOk(Consume(pc, s))
  {
  }

  lemma MissedStays(pc: Cpc, s: Slot)
    ensures s.missed && !Consume(pc, s).missed ==> Consume(pc, s).state.Free?
  {
  }

  // ------------------------------------------------------------ delivery

  predicate DeliveredAt(w: World, i: nat)
    requires i < |w.slots|
  {
    w.slots[i].head <= |w.slots[i].log| && Proj(w.sink + w.staged, i) == w.slots[i].log[..w.slots[i].head]
  }

  lemma DeliveredProducer(c: Config, w: World, t: Tid, k: Choice, i: nat)
    requires Fit(c, w, t) && i < |w.slots| && DeliveredAt(w, i)
    ensures DeliveredAt(ProducerStep(c, w, t, k), i)
  {
    var pc := w.threads[t];
    if AtSlot(w, pc) && pc.i == i {
      ProduceFrame(c, t, pc, w.slots[i]);
      LogGrows(c, t, w.slots[i], Produce(t, pc, w.slots[i]));
    }
  }

  lemma LogGrows(c: Config, t: Tid, s: Slot, s': Slot)
    requires ByProducer(t, s, s') && s.head <= |s.log|
    ensures s.log <= s'.log && s'.head == s.head && s'.log[..s.head] == s.log[..s.head]
  {
  }

  // What has left the rings, flushed or staged.
  lemma OutAfter(c: Config, w: World, k: Choice)
    requires Base(c, w)
    ensures var w' := ConsumerStep(c, w, k);
      w'.sink + w'.staged == w.sink + w.staged + (if w.cpc.PopHead? then Tag(At(c.n, w.cpc), w.cpc.batch) else [])
  {
    var w' := ConsumerStep(c, w, k);
    if Flushes(c, w) { assert w'.sink + w'.staged == w.sink + w.staged; }
    else if w.cpc.PopHead? { assert w'.sink + w'.staged == w.sink + w.staged + Tag(At(c.n, w.cpc), w.cpc.batch); }
  }

  lemma DeliveredConsumer(c: Config, w: World, k: Choice, i: nat)
    requires Base(c, w) && i < |w.slots| && DeliveredAt(w, i)
    ensures DeliveredAt(ConsumerStep(c, w, k), i)
  {
    var w' := ConsumerStep(c, w, k);
    BasePoised(c, w);
    OutAfter(c, w, k);
    hide ConsumerPc, Base, SlotOk, StagedAfter;
    if w.cpc.PopHead? { DeliveredPop(w, w', At(c.n, w.cpc), w.cpc.batch, i); }
    else {
      HeadMoves(w.cpc, Target(c, w));
      assert w'.sink + w'.staged == w.sink + w.staged;
    }
  }

  lemma DeliveredPop(w: World, w': World, j: nat, batch: seq<Event>, i: nat)
    requires j < |w.slots| && i < |w.slots| && DeliveredAt(w, i) && BatchOf(w.slots[j], batch)
    requires w'.slots == w.slots[j := w.slots[j].(head := w.slots[j].head + |batch|)]
    requires w'.sink + w'.staged == w.sink + w.staged + Tag(j, batch)
    ensures DeliveredAt(w', i)
  {
    ProjAppend(w.sink + w.staged, Tag(j, batch), i);
    ProjTag(j, batch, i);
    var s := w.slots[j];
    assert s.log[..s.head] + batch == s.log[..s.head + |batch|];
  }

  // Only PopHead moves the head.
  lemma HeadMoves(pc: Cpc, s: Slot)
    ensures Consume(pc, s).log == s.log && Consume(pc, s).head == s.head + (if pc.PopHead? then |pc.batch| else 0)
  {
  }

  // ------------------------------------------------------------ the closing loops

  // What was in the ring when the pipeline stopped running has been taken out.
  predicate Past(w: World, i: nat)
    requires i < |w.slots|
  {
    w.slots[i].stop <= w.slots[i].head
  }

  predicate Closing(pc: Cpc) { Sweeping(pc) || Swept(pc) }

  predicate Sweeping(pc: Cpc) { Drains(pc) && pc.why.Final? }

  predicate Swept(pc: Cpc) { pc.LastFlush? || (Reclaims(pc) && pc.last) || pc.Done? }

  // Events taken so far in this pass.
  function Tally(pc: Cpc): nat
    requires Drains(pc)
  {
    match pc
    case Scan(_, _, _, total) => total
    case Room(_, _, _, total, got) => total + got
    case PopTail(_, _, _, total, got) => total + got
    case PopCopy(_, _, _, total, got, _, _) => total + got
    case PopHead(_, _, _, total, got, batch) => total + got + |batch|
    case Flush(_, _, total) => total
  }

  // A pass that has taken nothing still has slot i before it.
  predicate StillToSee(pc: Cpc, i: nat)
    requires Drains(pc)
  {
    Tally(pc) > 0 || pc.Flush? || i in pc.todo
  }

  predicate SweptOk(w: World, i: nat)
    requires i < |w.slots|
  {
    && (Sweeping(w.cpc) ==> StillToSee(w.cpc, i) || Past(w, i))
    && (Swept(w.cpc) ==> Past(w, i))
  }

  predicate PassOk(w: World) {
    && (Closing(w.cpc) ==> !w.running)
    && (w.cpc.Flush? ==> w.cpc.total > 0)
    && (Swept(w.cpc) && !w.cpc.LastFlush? ==> w.staged == [])
    && (Sweeping(w.cpc) && !w.cpc.Flush? ==> w.cpc.full)
  }

  lemma OrderCovers(n: nat, r: nat, i: nat)
    requires i < n && r < n
    ensures i in Order(n, r)
  {
    var k := if r <= i then i - r else i + n - r;
    assert Order(n, r)[k] == i;
  }

  // A pass moves on from slot i only when nothing from before the stop is left in it.
  lemma SweepDrain(c: Config, pc: Cpc, s: Slot, staged: nat, r: nat, i: nat)
    requires Sane(c) && r < c.n && i < c.n && Ranged(c.n, pc) && Sweeping(pc) && StillToSee(pc, i)
    requires SlotOk(c, s) && RoomOk(c, pc, staged) && (pc.PopHead? ==> pc.batch != []) && (pc.Flush? ==> pc.total > 0)
    ensures var pc' := DrainPc(c, pc, s, staged, r);
      && (pc'.LastFlush? || (Sweeping(pc') && !StillToSee(pc', i)) ==>
            At(c.n, pc) == i && Consume(pc, s).stop <= Consume(pc, s).head)
  {
    OrderCovers(c.n, 0, i);
    OrderCovers(c.n, Rotated(c, r), i);
  }

  lemma SweepKind(c: Config, w: World, s: Slot, k: Choice)
    requires Ranged(c.n, w.cpc) && PassOk(w) && RoomOk(c, w.cpc, |w.staged|)
    ensures var pc' := ConsumerPc(c, w, s, k);
      && (Sweeping(pc') ==> Sweeping(w.cpc) || (w.cpc.Loop? && !w.running && pc' == Scan(true, Final(0), Order(c.n, 0), 0)))
      && (Swept(pc') ==> Swept(w.cpc) || (Sweeping(w.cpc) && pc'.LastFlush?))
      && (pc'.Flush? ==> pc'.total > 0)
      && (Sweeping(pc') && !pc'.Flush? ==> pc'.full)
      && (Swept(pc') && !pc'.LastFlush? ==> w.cpc.LastFlush? || (Swept(w.cpc) && !w.cpc.LastFlush?))
  {
    if Drains(w.cpc) { SweepKindDrain(c, w.cpc, s, |w.staged|, w.rotate); }
    else if Clears(w.cpc) { SweepKindClear(c, w.cpc, s, w.active, w.rotate); }
    else if !Reclaims(w.cpc) { SweepKindLoop(c, w, k); }
    else { SweepKindReclaim(w.cpc, c.n, s); }
  }

  lemma SweepKindDrain(c: Config, pc: Cpc, s: Slot, staged: nat, r: nat)
    requires Drains(pc) && (Sweeping(pc) && !pc.Flush? ==> pc.full)
    ensures var pc' := DrainPc(c, pc, s, staged, r);
      && (Sweeping(pc') ==> Sweeping(pc)) && (Swept(pc') ==> Sweeping(pc) && pc'.LastFlush?)
      && (pc'.Flush? ==> pc'.total > 0) && (Sweeping(pc') && !pc'.Flush? ==> pc'.full)
  {
  }

  lemma SweepKindClear(c: Config, pc: Cpc, s: Slot, active: set<nat>, r: nat)
    requires Clears(pc)
    ensures !Closing(ClearPc(c, pc, s, active, r)) && !ClearPc(c, pc, s, active, r).Flush?
  {
  }

  lemma SweepKindReclaim(pc: Cpc, n: nat, s: Slot)
    requires Reclaims(pc)
    ensures var pc' := ReclaimPc(pc, n, s); !Sweeping(pc') && !pc'.Flush? && !pc'.LastFlush? && (Swept(pc') ==> Swept(pc))
  {
  }

  lemma SweepKindLoop(c: Config, w: World, k: Choice)
    requires !Drains(w.cpc) && !Reclaims(w.cpc) && !Clears(w.cpc)
    ensures var pc' := LoopPc(c, w, k);
      && (Sweeping(pc') ==> w.cpc.Loop? && !w.running && pc' == Scan(true, Final(0), Order(c.n, 0), 0))
      && (Swept(pc') ==> Swept(w.cpc)) && !pc'.Flush? && (pc'.LastFlush? ==> false)
  {
  }

  lemma PastStays(c: Config, w: World, k: Choice, i: nat)
    requires i < |w.slots| && ByConsumer(Target(c, w), Consume(w.cpc, Target(c, w)))
    ensures Past(w, i) ==> Past(ConsumerStep(c, w, k), i)
    ensures At(c.n, w.cpc) == i && Consume(w.cpc, w.slots[i]).stop <= Consume(w.cpc, w.slots[i]).head ==> Past(ConsumerStep(c, w, k), i)
  {
    hide Consume, ConsumerPc;
  }

  // Where a pass begins, every slot is before it.
  lemma SweepStart(c: Config, w: World, s: Slot, k: Choice, i: nat)
    requires Sane(c) && i < c.n && !Sweeping(w.cpc) && Ranged(c.n, w.cpc) && PassOk(w) && RoomOk(c, w.cpc, |w.staged|)
    ensures var pc' := ConsumerPc(c, w, s, k); (Sweeping(pc') ==> StillToSee(pc', i)) && (Swept(pc') ==> Swept(w.cpc))
  {
    SweepKind(c, w, s, k);
    OrderCovers(c.n, 0, i);
    hide ConsumerPc;
  }

  // What a consumer's step needs to know of its place and slot.
  ghost predicate Poised(c: Config, w: World) {
    && Sane(c) && |w.slots| == c.n && ConsumerOk(c, w)
    && SlotOk(c, Target(c, w)) && HandOk(w.cpc, Target(c, w))
  }

  lemma BasePoised(c: Config, w: World)
    requires Base(c, w)
    ensures Poised(c, w)
  {
    BlankOk(c);
  }

  lemma SweptDrain(c: Config, w: World, k: Choice, i: nat)
    requires Poised(c, w) && i < c.n && PassOk(w) && Sweeping(w.cpc) && StillToSee(w.cpc, i)
    ensures SweptOk(ConsumerStep(c, w, k), i)
  {
    ConsumeFrame(c, w.cpc, Target(c, w));
    PastStays(c, w, k, i);
    SweepKind(c, w, Target(c, w), k);
    SweepDrain(c, w.cpc, Target(c, w), |w.staged|, w.rotate, i);
    hide DrainPc, Consume, SlotOk, ThreadOk, Owned, StillToSee;
  }

  lemma SweptConsumer(c: Config, w: World, k: Choice, i: nat)
    requires Base(c, w) && i < |w.slots| && PassOk(w) && SweptOk(w, i)
    ensures SweptOk(ConsumerStep(c, w, k), i)
  {
    BasePoised(c, w);
    hide Base;
    if Sweeping(w.cpc) && StillToSee(w.cpc, i) { SweptDrain(c, w, k, i); }
    else {
      ConsumeFrame(c, w.cpc, Target(c, w));
      PastStays(c, w, k, i);
      if !Sweeping(w.cpc) { SweepStart(c, w, Target(c, w), k, i); }
      hide ConsumerPc, Consume, SlotOk, ThreadOk, Owned, StillToSee, Past;
    }
  }

  // A slot once behind the pass is seen again only by the next one.
  lemma SweptStays(c: Config, pc: Cpc, s: Slot, staged: nat, r: nat, i: nat)
    requires Sweeping(pc)
    ensures Sweeping(DrainPc(c, pc, s, staged, r)) || DrainPc(c, pc, s, staged, r).LastFlush?
  {
  }

  lemma PassConsumer(c: Config, w: World, k: Choice)
    requires Base(c, w) && PassOk(w)
    ensures PassOk(ConsumerStep(c, w, k))
  {
    hide ConsumerPc, SlotOk, ThreadOk, Owned;
    SweepKind(c, w, Target(c, w), k);
  }

  // ------------------------------------------------------------ conservation

  function Sum(xs: seq<nat>): nat { if xs == [] then 0 else Sum(xs[..|xs| - 1]) + xs[|xs| - 1] }

  lemma {:induction false} SumUpdate(xs: seq<nat>, i: nat, x: nat)
    requires i < |xs|
    ensures Sum(xs[i := x]) + xs[i] == Sum(xs) + x
  {
    var last := |xs| - 1;
    if i == last { assert xs[i := x][..last] == xs[..last]; }
    else {
      assert xs[i := x][..last] == xs[..last][i := x];
      SumUpdate(xs[..last], i, x);
    }
  }

  lemma {:induction false} SumZero(xs: seq<nat>)
    requires forall k | 0 <= k < |xs| :: xs[k] == 0
    ensures Sum(xs) == 0
  {
    if xs != [] { SumZero(xs[..|xs| - 1]); }
  }

  function Pushes(slots: seq<Slot>): seq<nat> { seq(|slots|, (i: nat) requires i < |slots| => slots[i].pushed) }

  function Drops(slots: seq<Slot>): seq<nat> { seq(|slots|, (i: nat) requires i < |slots| => slots[i].dropped) }

  // Published, and not yet in its slot's counter.
  function Uncounted(pc: Ppc): nat { if pc.PushCount? then 1 else 0 }

  function Uncounteds(threads: seq<Ppc>): seq<nat> {
    seq(|threads|, (t: nat) requires t < |threads| => Uncounted(threads[t]))
  }

  // Taken from a retired slot's counter, and not yet in the total.
  function PushCarry(pc: Cpc): nat { if pc.RecAddPushed? then pc.x else 0 }

  function DropCarry(pc: Cpc): nat { if pc.RecAddDropped? then pc.x else 0 }

  /** Every publication is in exactly one place: a total, a live counter, or on its way. */
  predicate Conserved(w: World) {
    && w.published == w.retiredPushed + Sum(Pushes(w.slots)) + PushCarry(w.cpc) + Sum(Uncounteds(w.threads))
    && w.refused == w.retiredDropped + Sum(Drops(w.slots)) + DropCarry(w.cpc)
  }

  lemma SlotSums(slots: seq<Slot>, i: nat, s: Slot)
    requires i < |slots|
    ensures Sum(Pushes(slots[i := s])) + slots[i].pushed == Sum(Pushes(slots)) + s.pushed
    ensures Sum(Drops(slots[i := s])) + slots[i].dropped == Sum(Drops(slots)) + s.dropped
  {
    assert Pushes(slots[i := s]) == Pushes(slots)[i := s.pushed];
    assert Drops(slots[i := s]) == Drops(slots)[i := s.dropped];
    SumUpdate(Pushes(slots), i, s.pushed);
    SumUpdate(Drops(slots), i, s.dropped);
  }

  lemma ThreadSums(threads: seq<Ppc>, t: Tid, pc: Ppc)
    requires t < |threads|
    ensures Sum(Uncounteds(threads[t := pc])) + Uncounted(threads[t]) == Sum(Uncounteds(threads)) + Uncounted(pc)
  {
    assert Uncounteds(threads[t := pc]) == Uncounteds(threads)[t := Uncounted(pc)];
    SumUpdate(Uncounteds(threads), t, Uncounted(pc));
  }

  // One producer's step: what it publishes and what it counts.
  lemma CountsAtSlot(c: Config, t: Tid, pc: Ppc, s: Slot, k: Choice)
    requires TouchesSlot(pc) && (Owning(pc) ==> PcOk(c, t, pc, s))
    ensures Produce(t, pc, s).pushed + Uncounted(SlotPc(c, pc, s, k)) == s.pushed + Uncounted(pc) + (if pc.PushStore? then 1 else 0)
    ensures Produce(t, pc, s).dropped == s.dropped + (if pc.PushDrop? then 1 else 0)
  {
  }

  lemma CountsAtWord(c: Config, w: World, pc: Ppc, k: Choice)
    requires !TouchesSlot(pc)
    ensures Uncounted(WordPc(c, w, pc, k)) == Uncounted(pc) == 0
  {
  }

  lemma ConservedProducer(c: Config, w: World, t: Tid, k: Choice)
    requires Fit(c, w, t) && Conserved(w)
    ensures Conserved(ProducerStep(c, w, t, k))
  {
    hide Sum, Pushes, Drops, Uncounteds, SlotPc, WordPc, Produce, SlotOk;
    var pc := w.threads[t];
    ThreadSums(w.threads, t, ProducerPc(c, w, pc, k));
    if AtSlot(w, pc) {
      SlotSums(w.slots, pc.i, Produce(t, pc, w.slots[pc.i]));
      CountsAtSlot(c, t, pc, w.slots[pc.i], k);
    } else if !TouchesSlot(pc) { CountsAtWord(c, w, pc, k); }
  }

  lemma CountsReclaimed(c: Config, w: World, s: Slot, k: Choice)
    ensures var s', pc' := Consume(w.cpc, s), ConsumerPc(c, w, s, k);
      && s'.pushed + PushCarry(pc') == s.pushed + (if w.cpc.RecAddPushed? then 0 else PushCarry(w.cpc))
      && s'.dropped + DropCarry(pc') == s.dropped + (if w.cpc.RecAddDropped? then 0 else DropCarry(w.cpc))
  {
    if !Reclaims(w.cpc) {
      CountsKept(w.cpc, s);
      NoCarry(c, w, s, k);
      hide ConsumerPc, Consume;
    }
  }

  lemma CountsKept(pc: Cpc, s: Slot)
    requires !Reclaims(pc)
    ensures Consume(pc, s).pushed == s.pushed && Consume(pc, s).dropped == s.dropped
  {
  }

  lemma NoCarry(c: Config, w: World, s: Slot, k: Choice)
    requires !Reclaims(w.cpc)
    ensures var pc' := ConsumerPc(c, w, s, k); !pc'.RecAddPushed? && !pc'.RecAddDropped?
  {
    hide DrainPc, ClearPc;
    if Drains(w.cpc) { DrainCarries(c, w.cpc, s, |w.staged|, w.rotate); }
    else if Clears(w.cpc) { ClearCarries(c, w.cpc, s, w.active, w.rotate); }
  }

  lemma DrainCarries(c: Config, pc: Cpc, s: Slot, staged: nat, r: nat)
    requires Drains(pc)
    ensures !Reclaims(DrainPc(c, pc, s, staged, r))
  {
  }

  lemma ClearCarries(c: Config, pc: Cpc, s: Slot, active: set<nat>, r: nat)
    requires Clears(pc)
    ensures !Reclaims(ClearPc(c, pc, s, active, r))
  {
  }

  lemma ConservedConsumer(c: Config, w: World, k: Choice)
    requires Ranged(c.n, w.cpc) && |w.slots| == c.n && Conserved(w)
    ensures Conserved(ConsumerStep(c, w, k))
  {
    hide Sum, Pushes, Drops, Uncounteds, ConsumerPc, Consume;
    var i := At(c.n, w.cpc);
    var s := Target(c, w);
    CountsReclaimed(c, w, s, k);
    if i < |w.slots| { SlotSums(w.slots, i, Consume(w.cpc, s)); }
  }
}

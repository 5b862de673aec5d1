/** A consumer of the sharded queue never sleeps over a published event, nor past a close. */
module ShardedSleep {
  import opened Slots
  import opened Sharded
  import opened ShardedSafety

  /** Ring RingOf(i, k) is consumer i's. */
  lemma {:induction false} OwnerIs(c: Config, i: nat, k: nat)
    requires Sane(c) && i < c.cons
    ensures OwnerOf(c, RingOf(c, i, k)) == i
    decreases k
  {
    if k > 0 { OwnerIs(c, i, k - 1); }
  }

  // ------------------------------------------------------------ where the threads are

  predicate Rechecking(pc: Cpc) { Looks(pc) && !pc.AllDone? && pc.site.Recheck? }

  // Found its rings empty and on its way to sleep, or asleep.
  predicate Committed(pc: Cpc) { pc.Decide? || pc.Test? || pc.WaitOn? || pc.Blocked? }

  // It has a key: past prepare_wait, and neither out of wait nor cancelled.
  predicate Keyed(pc: Cpc) { Rechecking(pc) || Committed(pc) }

  function Key(pc: Cpc): nat
    requires Keyed(pc) || pc.Enlist? || pc.Unpend?
  {
    if Rechecking(pc) then pc.site.key else pc.key
  }

  // Counted in waiters_.
  predicate Counted(pc: Cpc) { pc.Unpend? || Keyed(pc) || pc.Delist? || pc.Cancel? }

  // Since it announced itself it has seen its k-th ring empty.
  predicate Passed(c: Config, a: Consumer, k: nat) {
    || Committed(a.pc)
    || (a.pc.AnyClosed? && a.pc.site.Recheck?)
    || (Rechecking(a.pc) && exists j | 0 <= j < a.pc.k :: Turn(c, a.next, j) == k)
  }

  // A notification of a consumer, up to the advance of the epoch.
  predicate BeforeAdvance(pc: Ppc) { pc.LoadWaiters? || pc.LoadPending? || pc.SwapPending? || pc.Advance? }

  predicate Notifying(pc: Ppc) { BeforeAdvance(pc) || pc.WakeOne? }

  ghost predicate SomeAdvance(c: Config, w: World, i: nat) {
    exists p | 0 <= p < |w.prods| :: Serves(c, p, i) && w.prods[p].pc.Advance?
  }

  predicate Serves(c: Config, p: nat, i: nat) { c.cons > 0 && Slot(c.cons, p) == i }

  ghost predicate SomeBefore(c: Config, w: World, i: nat) {
    exists p | 0 <= p < |w.prods| :: Serves(c, p, i) && BeforeAdvance(w.prods[p].pc)
  }

  ghost predicate SomeWake(c: Config, w: World, i: nat) {
    (w.closer.Waking? && w.closer.i == i) || exists p | 0 <= p < |w.prods| :: Serves(c, p, i) && w.prods[p].pc.WakeOne?
  }

  // ------------------------------------------------------------ the invariant

  ghost predicate WaitOk(c: Config, w: World, i: nat)
    requires i < |w.cons| == |w.waits|
  {
    var pc, e := w.cons[i].pc, w.waits[i];
    && e.waiters == (if Counted(pc) then 1 else 0)
    && (Keyed(pc) || pc.Enlist? || pc.Unpend? ==> Key(pc) <= e.epoch)
    && (Keyed(pc) && e.pending ==> Key(pc) < e.epoch || SomeAdvance(c, w, i))
    && (e.asleep ==> pc.Blocked?)
    && (e.asleep && Key(pc) < e.epoch ==> SomeWake(c, w, i))
  }

  // Why a ring passed over is no reason not to sleep.
  ghost predicate RingPassed(c: Config, w: World, i: nat, k: nat)
    requires i < |w.cons| == |w.waits| && RingOf(c, i, k) < |w.rings|
  {
    var r := w.rings[RingOf(c, i, k)];
    Passed(c, w.cons[i], k) && r.head < r.tail && Keyed(w.cons[i].pc) ==>
      Key(w.cons[i].pc) < w.waits[i].epoch || SomeBefore(c, w, i)
  }

  // Once close has advanced the epoch, a consumer that found a ring open before
  // that will not fall asleep.
  predicate CloseOk(w: World, i: nat)
    requires i < |w.cons| == |w.waits|
  {
    var pc, e := w.cons[i].pc, w.waits[i];
    && (e.bumped && (Committed(pc) || (Rechecking(pc) && pc.AnyClosed? && pc.k > 0)) ==> Key(pc) < e.epoch)
    && (e.bumped ==> !w.closer.Open? && !w.closer.Closing?)
    && (w.closer.Shut? || (w.closer.Rousing? && i < w.closer.i) || (w.closer.Waking? && i <= w.closer.i) ==> e.bumped)
    && (w.closer.Shut? || ((w.closer.Rousing? || w.closer.Waking?) && i < w.closer.i) ==> !e.asleep)
  }

  // What must be so of consumer i before the head of one of its rings is passed.
  ghost predicate SleepInv(c: Config, w: World) {
    && Inv(c, w)
    && (forall i | 0 <= i < |w.cons| :: WaitOk(c, w, i) && CloseOk(w, i))
    && (forall i, k | 0 <= i < |w.cons| && 0 <= k < c.owned && RingOf(c, i, k) < |w.rings| :: RingPassed(c, w, i, k))
  }

  // ------------------------------------------------------------ a producer's step

  // Another producer is where it was.
  lemma OthersNotify(c: Config, w: World, p: nat, k: Choice, i: nat)
    requires Sane(c) && p < |w.prods| && p < |w.rings|
    ensures var w' := ProducerStep(c, w, p, k);
      && (SomeAdvance(c, w, i) ==> SomeAdvance(c, w', i) || (Serves(c, p, i) && w.prods[p].pc.Advance?))
      && (SomeBefore(c, w, i) ==> SomeBefore(c, w', i) || (Serves(c, p, i) && BeforeAdvance(w.prods[p].pc)))
      && (SomeWake(c, w, i) ==> SomeWake(c, w', i) || (Serves(c, p, i) && w.prods[p].pc.WakeOne?))
  {
    hide ProducerPc, Produce, Tries, Slot;
    var w' := ProducerStep(c, w, p, k);
    if SomeAdvance(c, w, i) {
      var q :| 0 <= q < |w.prods| && Serves(c, q, i) && w.prods[q].pc.Advance?;
      assert q != p ==> w'.prods[q] == w.prods[q];
    }
    if SomeBefore(c, w, i) {
      var q :| 0 <= q < |w.prods| && Serves(c, q, i) && BeforeAdvance(w.prods[q].pc);
      assert q != p ==> w'.prods[q] == w.prods[q];
    }
    if SomeWake(c, w, i) && !(w.closer.Waking? && w.closer.i == i) {
      var q :| 0 <= q < |w.prods| && Serves(c, q, i) && w.prods[q].pc.WakeOne?;
      assert q != p ==> w'.prods[q] == w.prods[q];
    }
  }

  // The stepping producer, where it notifies consumer i.
  lemma NotifierAt(c: Config, w: World, p: nat, k: Choice, i: nat)
    requires Sane(c) && p < |w.prods| && p < |w.rings| && Serves(c, p, i) && i < |w.waits|
    ensures var w' := ProducerStep(c, w, p, k); var pc, pc', e := w.prods[p].pc, w'.prods[p].pc, w.waits[i];
      && w'.waits == w.waits[i := Notify(pc, e)] && w'.cons == w.cons && w'.closer == w.closer
      && (pc'.Advance? ==> SomeAdvance(c, w', i)) && (BeforeAdvance(pc') ==> SomeBefore(c, w', i)) && (pc'.WakeOne? ==> SomeWake(c, w', i))
      && (pc.LoadWaiters? && e.waiters != 0 ==> pc'.LoadPending?)
      && (pc.LoadPending? && !e.pending ==> pc'.SwapPending?)
      && (pc.SwapPending? && !e.pending ==> pc'.Advance?)
      && (pc.Advance? ==> pc'.WakeOne?)
  {
    hide Produce, Tries, Slot;
  }

  lemma WaitOkProducer(c: Config, w: World, p: nat, k: Choice, i: nat)
    requires Sane(c) && p < |w.prods| && p < |w.rings| && i < |w.cons| == |w.waits| && WaitOk(c, w, i)
    ensures WaitOk(c, ProducerStep(c, w, p, k), i)
  {
    OthersNotify(c, w, p, k, i);
    if Serves(c, p, i) { NotifierAt(c, w, p, k, i); }
    else { NotServing(c, w, p, k, i); }
    hide ProducerStep, SomeAdvance, SomeWake, SomeBefore, Serves;
  }

  lemma NotServing(c: Config, w: World, p: nat, k: Choice, i: nat)
    requires Sane(c) && p < |w.prods| && p < |w.rings| && !Serves(c, p, i) && i < |w.cons| == |w.waits|
    ensures var w' := ProducerStep(c, w, p, k); |w'.waits| == |w.waits| && w'.waits[i] == w.waits[i] && w'.cons == w.cons && w'.closer == w.closer
  {
    hide ProducerPc, Produce, Tries, Slot;
  }

  lemma CloseOkProducer(c: Config, w: World, p: nat, k: Choice, i: nat)
    requires Sane(c) && p < |w.prods| && p < |w.rings| && i < |w.cons| == |w.waits| && CloseOk(w, i)
    ensures CloseOk(ProducerStep(c, w, p, k), i)
  {
    if Serves(c, p, i) { NotifierAt(c, w, p, k, i); }
    else { NotServing(c, w, p, k, i); }
    hide ProducerStep, SomeAdvance, SomeWake, SomeBefore, Serves;
  }

  // A publication puts its producer at the start of a notification.
  lemma PublishNotifies(c: Config, w: World, p: nat, k: Choice)
    requires Sane(c) && p < |w.prods| && p < |w.rings|
    ensures var w' := ProducerStep(c, w, p, k);
      && |w'.rings| == |w.rings| && (forall q | 0 <= q < |w.rings| && q != p :: w'.rings[q] == w.rings[q])
      && w'.rings[p].head == w.rings[p].head
      && (w'.rings[p].tail != w.rings[p].tail ==> w'.prods[p].pc.LoadWaiters?)
  {
    hide Tries, Slot;
  }

  lemma RingPassedProducer(c: Config, w: World, p: nat, ch: Choice, i: nat, k: nat)
    requires Sane(c) && p < |w.prods| && p < |w.rings| && i < |w.cons| == |w.waits| && i < c.cons && RingOf(c, i, k) < |w.rings|
    requires WaitOk(c, w, i) && RingPassed(c, w, i, k)
    ensures RingPassed(c, ProducerStep(c, w, p, ch), i, k)
  {
    PublishNotifies(c, w, p, ch);
    OthersNotify(c, w, p, ch, i);
    OwnerIs(c, i, k);
    if Serves(c, p, i) {
      NotifierAt(c, w, p, ch, i);
      if SomeAdvance(c, w, i) { AdvanceElsewhere(c, w, p, ch, i); }
    } else { NotServing(c, w, p, ch, i); }
    hide ProducerStep, SomeAdvance, SomeWake, SomeBefore, Passed;
  }

  // A producer about to advance the epoch still is, unless it is the one that steps.
  lemma AdvanceElsewhere(c: Config, w: World, p: nat, ch: Choice, i: nat)
    requires Sane(c) && p < |w.prods| && p < |w.rings| && SomeAdvance(c, w, i)
    ensures w.prods[p].pc.Advance? || SomeBefore(c, ProducerStep(c, w, p, ch), i)
  {
    hide ProducerPc, Produce, Tries, Slot;
    var q :| 0 <= q < |w.prods| && Serves(c, q, i) && w.prods[q].pc.Advance?;
    if q != p {
      assert ProducerStep(c, w, p, ch).prods[q] == w.prods[q] && BeforeAdvance(w.prods[q].pc);
    }
  }

  // ------------------------------------------------------------ a consumer's step

  lemma ConsumerAt(c: Config, w: World, i: nat, ch: Choice)
    requires Sane(c) && i < |w.cons| == |w.waits|
    ensures var w' := ConsumerStep(c, w, i, ch);
      && w'.prods == w.prods && w'.closer == w.closer && |w'.cons| == |w'.waits| == |w.cons|
      && w'.waits == w.waits[i := Attend(w.cons[i].pc, w.waits[i], ch)]
      && (forall j | 0 <= j < |w.cons| && j != i :: w'.cons[j] == w.cons[j])
      && (forall j :: SomeAdvance(c, w', j) == SomeAdvance(c, w, j) && SomeBefore(c, w', j) == SomeBefore(c, w, j) && SomeWake(c, w', j) == SomeWake(c, w, j))
  {
    hide After, Consume, RingOf;
  }

  // The step from pc with event count e, apart from the rings.
  lemma AttendOk(c: Config, i: nat, a: Consumer, r: Ring, e: Wait, ch: Choice)
    requires Sane(c)
    requires e.waiters == (if Counted(a.pc) then 1 else 0) && (e.asleep ==> a.pc.Blocked?)
    requires Keyed(a.pc) || a.pc.Enlist? || a.pc.Unpend? ==> Key(a.pc) <= e.epoch
    ensures var pc', e' := ConsumerPc(c, i, a, r, e, ch), Attend(a.pc, e, ch);
      && e'.waiters == (if Counted(pc') then 1 else 0) && (e'.asleep ==> pc'.Blocked?)
      && e'.epoch == e.epoch && e'.bumped == e.bumped
      && (Keyed(pc') || pc'.Enlist? || pc'.Unpend? ==> Key(pc') <= e'.epoch)
      && (Keyed(pc') ==> if Keyed(a.pc) then Key(pc') == Key(a.pc) && e'.pending == e.pending else a.pc.Unpend? && !e'.pending)
      && (e'.asleep && !e.asleep ==> Key(pc') == e.epoch)
  {
    if Looks(a.pc) { LookAttends(c, i, a, r, ch); } else { WaitAttends(a.pc, e, ch); }
    hide LookPc, WaitPc;
  }

  // A look leaves the event count alone, and keeps its key.
  lemma LookAttends(c: Config, i: nat, a: Consumer, r: Ring, ch: Choice)
    requires Sane(c) && Looks(a.pc)
    ensures var pc' := LookPc(c, i, a, r, ch);
      && Counted(pc') == Counted(a.pc) && !pc'.Blocked? && !pc'.Enlist? && !pc'.Unpend?
      && (Keyed(pc') ==> Keyed(a.pc) && Key(pc') == Key(a.pc))
  {
  }

  lemma WaitAttends(pc: Cpc, e: Wait, ch: Choice)
    requires !Looks(pc)
    requires e.waiters == (if Counted(pc) then 1 else 0) && (e.asleep ==> pc.Blocked?)
    requires Keyed(pc) || pc.Enlist? || pc.Unpend? ==> Key(pc) <= e.epoch
    ensures var pc', e' := WaitPc(pc, e, ch), Attend(pc, e, ch);
      && e'.waiters == (if Counted(pc') then 1 else 0) && (e'.asleep ==> pc'.Blocked?)
      && e'.epoch == e.epoch && e'.bumped == e.bumped
      && (Keyed(pc') || pc'.Enlist? || pc'.Unpend? ==> Key(pc') <= e'.epoch)
      && (Keyed(pc') ==> if Keyed(pc) then Key(pc') == Key(pc) && e'.pending == e.pending else pc.Unpend? && !e'.pending)
      && (e'.asleep && !e.asleep ==> Key(pc') == e.epoch)
  {
  }

  lemma WaitOkConsumer(c: Config, w: World, i: nat, ch: Choice, j: nat)
    requires Sane(c) && i < |w.cons| == |w.waits| && j < |w.cons| && WaitOk(c, w, j)
    ensures j < |ConsumerStep(c, w, i, ch).cons| == |ConsumerStep(c, w, i, ch).waits| && WaitOk(c, ConsumerStep(c, w, i, ch), j)
  {
    ConsumerAt(c, w, i, ch);
    var a := w.cons[i];
    var on := OnRing(c, a.pc) && At(c, i, a) < |w.rings|;
    if i == j { AttendOk(c, i, a, if on then w.rings[At(c, i, a)] else NoRing, w.waits[i], ch); }
    hide SomeAdvance, SomeBefore, SomeWake, ConsumerPc, Attend, Keyed, Key, Counted;
  }

  // A consumer moves on from a look that found its first ring open.
  lemma CommitSeesOpen(c: Config, i: nat, a: Consumer, r: Ring, e: Wait, ch: Choice)
    requires Sane(c)
    ensures var pc' := ConsumerPc(c, i, a, r, e, ch);
      Committed(pc') || (Rechecking(pc') && pc'.AnyClosed? && pc'.k > 0) ==>
        && Keyed(a.pc) && Key(pc') == Key(a.pc)
        && (Committed(a.pc) || (Rechecking(a.pc) && a.pc.AnyClosed? && (a.pc.k > 0 || (OnRing(c, a.pc) && !r.closed))))
  {
  }

  lemma CloseOkConsumer(c: Config, w: World, i: nat, ch: Choice, j: nat)
    requires Inv(c, w) && i < |w.cons| && j < |w.cons| && WaitOk(c, w, j) && CloseOk(w, j)
    ensures j < |ConsumerStep(c, w, i, ch).cons| == |ConsumerStep(c, w, i, ch).waits| && CloseOk(ConsumerStep(c, w, i, ch), j)
  {
    ConsumerAt(c, w, i, ch);
    var a := w.cons[i];
    assert Bounded(c, a);
    var on := OnRing(c, a.pc) && At(c, i, a) < |w.rings|;
    var r := if on then w.rings[At(c, i, a)] else NoRing;
    if i == j {
      AttendOk(c, i, a, r, w.waits[i], ch);
      CommitSeesOpen(c, i, a, r, w.waits[i], ch);
      if OnRing(c, a.pc) {
        OnOwnRing(c, i, a);
        assert ClosedOk(w, At(c, i, a));
      }
    }
    hide Inv, SomeAdvance, SomeBefore, SomeWake, ConsumerPc, Attend, Bounded, RingOf;
  }

  /** Taking turns, a consumer looks at each of its rings. */
  lemma TurnCovers(c: Config, next: nat, k: nat) returns (j: nat)
    requires next < c.owned && k < c.owned
    ensures j < c.owned && Turn(c, next, j) == k
  {
    j := if next <= k then k - next else k + c.owned - next;
  }

  // A ring newly passed over was seen empty in this step.
  lemma PassedStep(c: Config, i: nat, a: Consumer, r: Ring, e: Wait, ch: Choice, k: nat)
    requires Sane(c) && Bounded(c, a) && k < c.owned
    ensures var a' := After(c, i, a, r, e, ch);
      Keyed(a'.pc) && Passed(c, a', k) ==>
        || (Keyed(a.pc) && Key(a'.pc) == Key(a.pc) && Passed(c, a, k))
        || (a.pc.Refresh? && Rechecking(a.pc) && Key(a'.pc) == Key(a.pc) && Turn(c, a.next, a.pc.k) == k && r.head == r.tail)
  {
    var a' := After(c, i, a, r, e, ch);
    if Keyed(a'.pc) && Passed(c, a', k) && !Committed(a.pc) && a.pc.Try? && a.pc.site.Recheck? && a.pc.k >= c.owned {
      var j := TurnCovers(c, a.next, k);
    }
  }

  lemma RingPassedConsumer(c: Config, w: World, i: nat, ch: Choice, j: nat, k: nat)
    requires Inv(c, w) && i < |w.cons| && j < |w.cons| && k < c.owned && RingOf(c, j, k) < |w.rings|
    requires RingPassed(c, w, j, k)
    ensures var w' := ConsumerStep(c, w, i, ch);
      j < |w'.cons| == |w'.waits| && RingOf(c, j, k) < |w'.rings| && RingPassed(c, w', j, k)
  {
    ConsumerAt(c, w, i, ch);
    var a := w.cons[i];
    assert Bounded(c, a);
    var p := RingOf(c, j, k);
    RingAfter(c, w, i, ch, p);
    var on := OnRing(c, a.pc) && At(c, i, a) < |w.rings|;
    var r := if on then w.rings[At(c, i, a)] else NoRing;
    if i == j {
      AttendOk0(w.cons[i].pc, w.waits[i], ch);
      PassedStep(c, i, a, r, w.waits[i], ch, k);
      if OnRing(c, a.pc) { OnOwnRing(c, i, a); }
    }
    hide Inv, SomeAdvance, SomeBefore, SomeWake, Passed, RingOk, ProducerOk, ConsumerPc;
  }

  lemma AttendOk0(pc: Cpc, e: Wait, ch: Choice)
    ensures Attend(pc, e, ch).epoch == e.epoch
  {
  }

  // ------------------------------------------------------------ the closer's step

  lemma CloserAt(c: Config, w: World, ch: Choice)
    ensures var w' := CloserStep(w, ch);
      && w'.prods == w.prods && w'.cons == w.cons && |w'.waits| == |w.waits| && |w'.rings| == |w.rings|
      && (forall p | 0 <= p < |w.rings| :: w'.rings[p].head == w.rings[p].head && w'.rings[p].tail == w.rings[p].tail)
      && (forall j :: SomeAdvance(c, w', j) == SomeAdvance(c, w, j) && SomeBefore(c, w', j) == SomeBefore(c, w, j))
  {
  }

  lemma WaitOkCloser(c: Config, w: World, ch: Choice, i: nat)
    requires i < |w.cons| == |w.waits| && WaitOk(c, w, i)
    ensures WaitOk(c, CloserStep(w, ch), i)
  {
    CloserAt(c, w, ch);
    CloserWakes(c, w, ch, i);
    hide SomeAdvance, SomeBefore, SomeWake, Keyed, Key, Counted;
  }

  lemma CloserWakes(c: Config, w: World, ch: Choice, i: nat)
    requires i < |w.waits|
    ensures var w' := CloserStep(w, ch); var e, e' := w.waits[i], w'.waits[i];
      && e'.waiters == e.waiters && e'.pending == e.pending && (e'.asleep ==> e.asleep)
      && (e'.epoch == e.epoch || (e'.epoch == e.epoch + 1 && SomeWake(c, w', i)))
      && (SomeWake(c, w, i) ==> SomeWake(c, w', i) || !e'.asleep)
  {
    var w' := CloserStep(w, ch);
    if SomeWake(c, w, i) && !(w.closer.Waking? && w.closer.i == i) {
      var q :| 0 <= q < |w.prods| && Serves(c, q, i) && w.prods[q].pc.WakeOne?;
      assert w'.prods[q].pc.WakeOne?;
    }
  }

  lemma CloseOkCloser(c: Config, w: World, ch: Choice, i: nat)
    requires i < |w.cons| == |w.waits| && WaitOk(c, w, i) && CloseOk(w, i)
    ensures CloseOk(CloserStep(w, ch), i)
  {
    hide SomeAdvance, SomeBefore, SomeWake;
  }

  lemma RingPassedCloser(c: Config, w: World, ch: Choice, i: nat, k: nat)
    requires i < |w.cons| == |w.waits| && RingOf(c, i, k) < |w.rings| && RingPassed(c, w, i, k)
    ensures RingPassed(c, CloserStep(w, ch), i, k)
  {
    CloserAt(c, w, ch);
    CloserWakes(c, w, ch, i);
    hide SomeAdvance, SomeBefore, SomeWake, Passed;
  }

  // ------------------------------------------------------------ runs

  lemma StepSleep(c: Config, w: World, a: Actor, ch: Choice)
    requires SleepInv(c, w) && Acts(w, a)
    ensures SleepInv(c, Step(c, w, a, ch))
  {
    var w' := Step(c, w, a, ch);
    StepInv(c, w, a, ch);
    hide WaitOk, CloseOk, RingPassed, ProducerStep, ConsumerStep, CloserStep;
    forall i | 0 <= i < |w'.cons| ensures WaitOk(c, w', i) && CloseOk(w', i) {
      match a
      case Prod(p) =>
        WaitOkProducer(c, w, p, ch, i);
        CloseOkProducer(c, w, p, ch, i);
      case Cons(j) =>
        WaitOkConsumer(c, w, j, ch, i);
        CloseOkConsumer(c, w, j, ch, i);
      case Close =>
        WaitOkCloser(c, w, ch, i);
        CloseOkCloser(c, w, ch, i);
    }
    forall i, k | 0 <= i < |w'.cons| && 0 <= k < c.owned && RingOf(c, i, k) < |w'.rings| ensures RingPassed(c, w', i, k) {
      match a
      case Prod(p) => RingPassedProducer(c, w, p, ch, i, k);
      case Cons(j) => RingPassedConsumer(c, w, j, ch, i, k);
      case Close => RingPassedCloser(c, w, ch, i, k);
    }
  }

  lemma InitSleep(c: Config)
    requires Sane(c)
    ensures SleepInv(c, Init(c))
  {
    InitInv(c);
  }

  lemma NextSleep(c: Config, w: World, w': World)
    requires SleepInv(c, w) && Next(c, w, w')
    ensures SleepInv(c, w')
  {
    var a: Actor, k: Choice :| Acts(w, a) && w' == Step(c, w, a, k);
    StepSleep(c, w, a, k);
  }

  lemma {:induction false} RunSleep(c: Config, tr: seq<World>, j: nat)
    requires Run(c, tr) && j < |tr|
    ensures SleepInv(c, tr[j])
  {
    if j == 0 {
      InitSleep(c);
    } else {
      RunSleep(c, tr, j - 1);
      assert NextAt(c, tr, j - 1);
      NextSleep(c, tr[j - 1], tr[j]);
    }
  }

  // ------------------------------------------------------------ what follows

  predicate Asleep(w: World, i: nat) { i < |w.cons| && i < |w.waits| && w.waits[i].asleep }

  ghost predicate WakeUnderWay(c: Config, w: World, i: nat) {
    (w.closer.Waking? && w.closer.i == i) || exists p | 0 <= p < |w.prods| :: Serves(c, p, i) && Notifying(w.prods[p].pc)
  }

  /** A consumer asleep while one of its rings holds an event has a notification under way, coalesced wakes and spurious ones included. */
  lemma NeverStranded(c: Config, tr: seq<World>, j: nat, i: nat, k: nat)
    requires Run(c, tr) && j < |tr| && Asleep(tr[j], i) && k < c.owned
    requires RingOf(c, i, k) < |tr[j].rings| && tr[j].rings[RingOf(c, i, k)].head < tr[j].rings[RingOf(c, i, k)].tail
    ensures WakeUnderWay(c, tr[j], i)
  {
    RunSleep(c, tr, j);
    var w := tr[j];
    assert WaitOk(c, w, i) && RingPassed(c, w, i, k);
    if SomeBefore(c, w, i) {
      var p :| 0 <= p < |w.prods| && Serves(c, p, i) && BeforeAdvance(w.prods[p].pc);
      assert Notifying(w.prods[p].pc);
    } else if !(w.closer.Waking? && w.closer.i == i) {
      var p :| 0 <= p < |w.prods| && Serves(c, p, i) && w.prods[p].pc.WakeOne?;
      assert Notifying(w.prods[p].pc);
    }
  }

  /** When close has returned nobody is asleep, and whoever is on the way to sleep has a stale key and will not. */
  lemma CloseWakesAll(c: Config, tr: seq<World>, j: nat, i: nat)
    requires Run(c, tr) && j < |tr| && tr[j].closer.Shut? && i < |tr[j].cons|
    ensures !Asleep(tr[j], i) && (Committed(tr[j].cons[i].pc) ==> i < |tr[j].waits| && Key(tr[j].cons[i].pc) < tr[j].waits[i].epoch)
  {
    RunSleep(c, tr, j);
    assert WaitOk(c, tr[j], i) && CloseOk(tr[j], i);
  }
}

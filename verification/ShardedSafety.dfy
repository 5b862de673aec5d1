/** In the sharded queue a publication and a close are one decision, and drained means drained. */
module ShardedSafety {
  import opened Slots
  import opened Streams
  import opened Sharded

  // ------------------------------------------------------------ which ring is whose

  lemma {:induction false} RingBelow(c: Config, i: nat, k: nat)
    requires i < c.cons && k < c.owned
    ensures RingOf(c, i, k) < c.cons * c.owned
  {
    RingUnder(c, i, k);
    Multiples(c.cons, k + 1, c.owned);
  }

  lemma {:induction false} RingUnder(c: Config, i: nat, k: nat)
    requires i < c.cons
    ensures RingOf(c, i, k) < c.cons * (k + 1)
  {
    if k > 0 {
      RingUnder(c, i, k - 1);
      assert c.cons * (k + 1) == c.cons * k + c.cons;
    }
  }

  lemma {:induction false} Multiples(n: nat, a: nat, b: nat)
    requires a <= b
    ensures n * a <= n * b
    decreases b
  {
    if a < b {
      Multiples(n, a, b - 1);
      assert n * b == n * (b - 1) + n;
    }
  }

  /** No ring has two consumers. */
  lemma {:induction false} OneConsumerEach(c: Config, i: nat, k: nat, i': nat, k': nat)
    requires i < c.cons && i' < c.cons && RingOf(c, i, k) == RingOf(c, i', k')
    ensures i == i' && k == k'
  {
    if k > 0 && k' > 0 { OneConsumerEach(c, i, k - 1, i', k' - 1); }
  }

  // ------------------------------------------------------------ rings

  /** Stale copies of the indices, and the live slots hold what was published. */
  ghost predicate RingOk(c: Config, r: Ring) {
    && c.ring > 0
    && r.cachedHead <= r.head <= r.cachedTail <= r.tail <= r.cachedHead + c.ring
    && |r.slots| == c.ring && |r.log| == r.tail
    && forall k | r.head <= k < r.tail :: Live(c, r, k)
  }

  predicate Live(c: Config, r: Ring, k: nat)
    requires c.ring > 0
  {
    Slot(c.ring, k) < |r.slots| && k < |r.log| && r.slots[Slot(c.ring, k)] == r.log[k]
  }

  // What a producer in the middle of a push knows.
  predicate PushOk(c: Config, pc: Ppc, r: Ring)
    requires c.ring > 0
  {
    match pc
    case Check(pos, _) => pos == r.tail
    case Write(pos, _) => pos == r.tail < r.cachedHead + c.ring
    case Publish(pos, v) => pos == r.tail < r.cachedHead + c.ring && Slot(c.ring, pos) < |r.slots| && r.slots[Slot(c.ring, pos)] == v
    case _ => true
  }

  /** The values of the pushes that returned ok. */
  function Oks(tries: seq<Attempt>): seq<Value> {
    if tries == [] then []
    else Oks(tries[..|tries| - 1]) + (if tries[|tries| - 1].ok then [tries[|tries| - 1].v] else [])
  }

  predicate TryOk(r: Ring, t: Attempt) {
    && (t.ok ==> t.pos < r.tail <= |r.log| && r.log[t.pos] == t.v)
    && (!t.ok ==> r.closed && r.tail <= t.pos)
  }

  ghost predicate ProducerOk(c: Config, a: Producer, r: Ring)
    requires c.ring > 0
  {
    && PushOk(c, a.pc, r)
    && Oks(a.tries) == r.log
    && forall k | 0 <= k < |a.tries| :: TryOk(r, a.tries[k])
  }

  // ------------------------------------------------------------ consumers

  // The step-by-step knowledge of a consumer about the ring it is on.
  predicate PopOk(pc: Cpc, r: Ring) {
    && (pc.Read? || pc.Release? ==> r.head < r.cachedTail)
    && (pc.Release? ==> r.head < |r.log| && pc.v == r.log[r.head])
  }

  // The ring is closed and everything in it has been taken.
  predicate Finished(r: Ring) { r.closed && r.head == r.tail }

  // How many of its rings the consumer knows to be finished.
  function Known(c: Config, pc: Cpc): nat { if pc.AllDone? then pc.k else if (pc.Idle? || pc.Cancel?) && pc.last.Drained? then c.owned else 0 }

  predicate Bounded(c: Config, a: Consumer) {
    && a.next < c.owned
    && (Looks(a.pc) ==> a.pc.k <= c.owned)
    && (a.pc.Refresh? || a.pc.Read? || a.pc.Release? ==> a.pc.k < c.owned)
  }

  // Of the k-th ring of consumer i.
  predicate ShareOk(c: Config, i: nat, a: Consumer, k: nat, r: Ring) {
    && (k < Known(c, a.pc) ==> Finished(r))
    && r.head <= |r.log| && Proj(a.got, RingOf(c, i, k)) == r.log[..r.head]
    && (OnRing(c, a.pc) && At(c, i, a) == RingOf(c, i, k) ==> PopOk(a.pc, r))
  }

  ghost predicate Inv(c: Config, w: World) {
    && Sane(c) && |w.rings| == |w.prods| == c.cons * c.owned && |w.cons| == |w.waits| == c.cons
    && (forall p | 0 <= p < |w.rings| :: RingOk(c, w.rings[p]) && ProducerOk(c, w.prods[p], w.rings[p]))
    && (forall i | 0 <= i < |w.cons| :: Bounded(c, w.cons[i]))
    && (forall i, k | 0 <= i < |w.cons| && 0 <= k < c.owned :: Served(c, w, i, k))
    && (forall p | 0 <= p < |w.rings| :: ClosedOk(w, p))
  }

  predicate ClosedOk(w: World, p: nat)
    requires p < |w.rings|
  {
    w.closer.Rousing? || w.closer.Waking? || w.closer.Shut? || (w.closer.Closing? && p < w.closer.p) ==> w.rings[p].closed
  }

  predicate Served(c: Config, w: World, i: nat, k: nat)
    requires i < |w.cons|
  {
    RingOf(c, i, k) < |w.rings| && ShareOk(c, i, w.cons[i], k, w.rings[RingOf(c, i, k)])
  }

  // ------------------------------------------------------------ a producer's step

  // Consumer i's event count.
  function Count(w: World, i: nat): Wait { if i < |w.waits| then w.waits[i] else NoWait }

  predicate ByProducer(r: Ring, r': Ring) {
    && r'.head == r.head && r'.cachedTail == r.cachedTail && r'.closed == r.closed && r.log <= r'.log
    && (r.closed ==> r'.tail == r.tail && r'.log == r.log)
  }

  lemma WriteIsFresh(c: Config, r: Ring, k: nat)
    requires RingOk(c, r) && r.tail < r.cachedHead + c.ring && r.head <= k < r.tail
    ensures Slot(c.ring, k) != Slot(c.ring, r.tail)
  {
    if Slot(c.ring, k) == Slot(c.ring, r.tail) { SameSlot(c.ring, k, r.tail); }
  }

  lemma ProducedRing(c: Config, a: Producer, r: Ring)
    requires Sane(c) && RingOk(c, r) && PushOk(c, a.pc, r)
    ensures RingOk(c, Produce(c, a.pc, r)) && ByProducer(r, Produce(c, a.pc, r))
  {
    var r' := Produce(c, a.pc, r);
    forall k | r'.head <= k < r'.tail ensures Live(c, r', k) {
      if k < r.tail {
        assert Live(c, r, k);
        if a.pc.Write? { WriteIsFresh(c, r, k); }
      }
    }
  }

  lemma ProducedPlace(c: Config, a: Producer, r: Ring, e: Wait, k: Choice)
    requires Sane(c) && RingOk(c, r) && PushOk(c, a.pc, r)
    ensures PushOk(c, ProducerPc(c, a.pc, r, e, k), Produce(c, a.pc, r))
  {
  }

  lemma ProducedTries(c: Config, a: Producer, r: Ring)
    requires Sane(c) && RingOk(c, r) && ProducerOk(c, a, r)
    ensures var r', tries := Produce(c, a.pc, r), Tries(a.pc, r, a.tries);
      Oks(tries) == r'.log && forall k | 0 <= k < |tries| :: TryOk(r', tries[k])
  {
    var r', tries := Produce(c, a.pc, r), Tries(a.pc, r, a.tries);
    if a.pc.Publish? { assert tries[..|tries| - 1] == a.tries; }
    forall k | 0 <= k < |tries| ensures TryOk(r', tries[k]) {
      if k < |a.tries| { assert tries[k] == a.tries[k] && TryOk(r, a.tries[k]); }
    }
  }

  lemma ServedByProducer(c: Config, i: nat, a: Consumer, k: nat, r: Ring, r': Ring)
    requires ByProducer(r, r') && ShareOk(c, i, a, k, r) && r'.tail >= r.tail
    ensures ShareOk(c, i, a, k, r')
  {
    assert r'.log[..r.head] == r.log[..r.head];
  }

  lemma ProducerInv(c: Config, w: World, p: nat, k: Choice)
    requires Inv(c, w) && p < |w.prods|
    ensures Inv(c, ProducerStep(c, w, p, k))
  {
    var w' := ProducerStep(c, w, p, k);
    var a, r := w.prods[p], w.rings[p];
    assert ProducerOk(c, a, r);
    ProducedRing(c, a, r);
    ProducedPlace(c, a, r, Count(w, OwnerOf(c, p)), k);
    ProducedTries(c, a, r);
    hide Produce, ProducerPc, Tries, RingOk, PushOk, TryOk, ShareOk;
    forall i, k | 0 <= i < |w'.cons| && 0 <= k < c.owned ensures Served(c, w', i, k) {
      assert Served(c, w, i, k);
      if RingOf(c, i, k) == p { ServedByProducer(c, i, w.cons[i], k, r, w'.rings[p]); }
    }
    forall q | 0 <= q < |w'.rings| ensures ClosedOk(w', q) { assert ClosedOk(w, q); }
  }

  // ------------------------------------------------------------ a consumer's step

  predicate ByConsumer(r: Ring, r': Ring) {
    r' == r.(head := r'.head, cachedTail := r'.cachedTail) && r.head <= r'.head
  }

  lemma ConsumedRing(c: Config, pc: Cpc, r: Ring)
    requires RingOk(c, r) && PopOk(pc, r)
    ensures RingOk(c, Consume(pc, r)) && ByConsumer(r, Consume(pc, r))
  {
    var r' := Consume(pc, r);
    forall k | r'.head <= k < r'.tail ensures Live(c, r', k) { assert Live(c, r, k); }
  }

  lemma ConsumedProducer(c: Config, a: Producer, r: Ring, r': Ring)
    requires c.ring > 0 && ByConsumer(r, r') && ProducerOk(c, a, r)
    ensures ProducerOk(c, a, r')
  {
    forall k | 0 <= k < |a.tries| ensures TryOk(r', a.tries[k]) { assert TryOk(r, a.tries[k]); }
  }

  lemma BoundedAfter(c: Config, i: nat, a: Consumer, r: Ring, e: Wait, k: Choice)
    requires Sane(c) && Bounded(c, a)
    ensures Bounded(c, After(c, i, a, r, e, k))
  {
  }

  // The ring it is on, after its step.
  lemma ShareAt(c: Config, i: nat, a: Consumer, k: nat, r: Ring, e: Wait, ch: Choice)
    requires Sane(c) && Bounded(c, a) && RingOk(c, r) && ShareOk(c, i, a, k, r) && i < c.cons && k < c.owned
    requires OnRing(c, a.pc) && At(c, i, a) == RingOf(c, i, k)
    ensures ShareOk(c, i, After(c, i, a, r, e, ch), k, Consume(a.pc, r))
  {
    ShareAtKnown(c, i, a, k, r, e, ch);
    ShareAtGot(c, i, a, k, r, e, ch);
    ShareAtPop(c, i, a, k, r, e, ch);
  }

  lemma ShareAtKnown(c: Config, i: nat, a: Consumer, k: nat, r: Ring, e: Wait, ch: Choice)
    requires Sane(c) && i < c.cons && k < c.owned && (k < Known(c, a.pc) ==> Finished(r))
    requires OnRing(c, a.pc) && At(c, i, a) == RingOf(c, i, k)
    ensures k < Known(c, ConsumerPc(c, i, a, r, e, ch)) ==> Finished(Consume(a.pc, r))
  {
  }

  lemma ShareAtGot(c: Config, i: nat, a: Consumer, k: nat, r: Ring, e: Wait, ch: Choice)
    requires Sane(c) && i < c.cons && k < c.owned && PopOk(a.pc, r)
    requires OnRing(c, a.pc) && At(c, i, a) == RingOf(c, i, k)
    requires r.head <= r.cachedTail <= |r.log| && Proj(a.got, RingOf(c, i, k)) == r.log[..r.head]
    ensures var r', a' := Consume(a.pc, r), After(c, i, a, r, e, ch);
      r'.head <= |r'.log| && Proj(a'.got, RingOf(c, i, k)) == r'.log[..r'.head]
  {
    if a.pc.Release? {
      var got' := a.got + [Tagged(At(c, i, a), a.pc.v)];
      assert got'[..|got'| - 1] == a.got;
      assert r.log[..r.head] + [r.log[r.head]] == r.log[..r.head + 1];
    }
  }

  lemma ShareAtPop(c: Config, i: nat, a: Consumer, k: nat, r: Ring, e: Wait, ch: Choice)
    requires Sane(c) && Bounded(c, a) && RingOk(c, r) && PopOk(a.pc, r) && i < c.cons && k < c.owned
    requires OnRing(c, a.pc) && At(c, i, a) == RingOf(c, i, k)
    ensures PopOk(ConsumerPc(c, i, a, r, e, ch), Consume(a.pc, r)) || At(c, i, After(c, i, a, r, e, ch)) != RingOf(c, i, k)
  {
    if a.pc.Read? { assert Live(c, r, r.head); }
  }

  // Another of its rings.
  lemma ShareElsewhere(c: Config, i: nat, a: Consumer, k: nat, r: Ring, q: Ring, e: Wait, ch: Choice)
    requires Sane(c) && Bounded(c, a) && ShareOk(c, i, a, k, r) && i < c.cons && k < c.owned
    requires OnRing(c, a.pc) ==> At(c, i, a) != RingOf(c, i, k)
    ensures ShareOk(c, i, After(c, i, a, q, e, ch), k, r)
  {
    ElsewhereKnown(c, i, a, k, q, e, ch);
    ElsewherePop(c, i, a, k, q, e, ch);
    ElsewhereGot(c, i, a, k, q, e, ch);
  }

  lemma ElsewhereGot(c: Config, i: nat, a: Consumer, k: nat, q: Ring, e: Wait, ch: Choice)
    requires Sane(c) && Bounded(c, a) && (OnRing(c, a.pc) ==> At(c, i, a) != RingOf(c, i, k))
    ensures Proj(After(c, i, a, q, e, ch).got, RingOf(c, i, k)) == Proj(a.got, RingOf(c, i, k))
  {
    if a.pc.Release? {
      var got' := a.got + [Tagged(At(c, i, a), a.pc.v)];
      assert got'[..|got'| - 1] == a.got;
    }
  }

  lemma ElsewhereKnown(c: Config, i: nat, a: Consumer, k: nat, q: Ring, e: Wait, ch: Choice)
    requires Sane(c) && k < c.owned && (OnRing(c, a.pc) ==> At(c, i, a) != RingOf(c, i, k))
    ensures k < Known(c, ConsumerPc(c, i, a, q, e, ch)) ==> k < Known(c, a.pc)
  {
  }

  lemma ElsewherePop(c: Config, i: nat, a: Consumer, k: nat, q: Ring, e: Wait, ch: Choice)
    requires Sane(c) && (OnRing(c, a.pc) ==> At(c, i, a) != RingOf(c, i, k))
    ensures var a' := After(c, i, a, q, e, ch);
      OnRing(c, a'.pc) && At(c, i, a') == RingOf(c, i, k) ==> !a'.pc.Read? && !a'.pc.Release?
  {
  }

  // Two of a consumer's rings are different rings.
  lemma ShareAfter(c: Config, w: World, i: nat, ch: Choice, k: nat)
    requires Inv(c, w) && i < |w.cons| && k < c.owned
    ensures Served(c, ConsumerStep(c, w, i, ch), i, k)
  {
    var a := w.cons[i];
    RingBelow(c, i, k);
    assert Bounded(c, a) && Served(c, w, i, k);
    var at := At(c, i, a);
    if OnRing(c, a.pc) {
      OnOwnRing(c, i, a);
      if at == RingOf(c, i, k) { ShareAt(c, i, a, k, w.rings[at], Count(w, i), ch); }
      else { ShareElsewhere(c, i, a, k, w.rings[RingOf(c, i, k)], w.rings[at], Count(w, i), ch); }
    } else {
      ShareElsewhere(c, i, a, k, w.rings[RingOf(c, i, k)], NoRing, Count(w, i), ch);
    }
  }

  // A consumer is only ever on a ring of its own.
  lemma OnOwnRing(c: Config, i: nat, a: Consumer)
    requires Sane(c) && i < c.cons && Bounded(c, a) && OnRing(c, a.pc)
    ensures At(c, i, a) < c.cons * c.owned && exists k | 0 <= k < c.owned :: At(c, i, a) == RingOf(c, i, k)
  {
    var k := if a.pc.AnyClosed? || a.pc.AllDone? then a.pc.k else Turn(c, a.next, a.pc.k);
    RingBelow(c, i, k);
    assert At(c, i, a) == RingOf(c, i, k);
  }

  lemma OthersServed(c: Config, w: World, i: nat, ch: Choice, j: nat, k: nat)
    requires Inv(c, w) && i < |w.cons| && j < |w.cons| && j != i && k < c.owned
    ensures Served(c, ConsumerStep(c, w, i, ch), j, k)
  {
    var a := w.cons[i];
    assert Bounded(c, a) && Served(c, w, j, k);
    if OnRing(c, a.pc) {
      OnOwnRing(c, i, a);
      var k' :| 0 <= k' < c.owned && At(c, i, a) == RingOf(c, i, k');
      if RingOf(c, j, k) == At(c, i, a) { OneConsumerEach(c, j, k, i, k'); }
    }
  }

  // What the consumer's step does to ring p.
  lemma RingAfter(c: Config, w: World, i: nat, ch: Choice, p: nat)
    requires Inv(c, w) && i < |w.cons| && p < |w.rings|
    ensures var w' := ConsumerStep(c, w, i, ch);
      RingOk(c, w'.rings[p]) && ProducerOk(c, w'.prods[p], w'.rings[p]) && ByConsumer(w.rings[p], w'.rings[p])
  {
    var a := w.cons[i];
    assert Bounded(c, a);
    if OnRing(c, a.pc) && At(c, i, a) == p {
      OnOwnRing(c, i, a);
      var k :| 0 <= k < c.owned && At(c, i, a) == RingOf(c, i, k);
      assert Served(c, w, i, k);
      ConsumedRing(c, a.pc, w.rings[p]);
      ConsumedProducer(c, w.prods[p], w.rings[p], Consume(a.pc, w.rings[p]));
    }
  }

  lemma ConsumerInv(c: Config, w: World, i: nat, ch: Choice)
    requires Inv(c, w) && i < |w.cons|
    ensures Inv(c, ConsumerStep(c, w, i, ch))
  {
    var w' := ConsumerStep(c, w, i, ch);
    forall p | 0 <= p < |w'.rings| ensures RingOk(c, w'.rings[p]) && ProducerOk(c, w'.prods[p], w'.rings[p]) && ClosedOk(w', p) {
      RingAfter(c, w, i, ch, p);
      assert ClosedOk(w, p);
    }
    forall j, k | 0 <= j < |w'.cons| && 0 <= k < c.owned ensures Served(c, w', j, k) {
      if j == i { ShareAfter(c, w, i, ch, k); } else { OthersServed(c, w, i, ch, j, k); }
    }
    BoundedAfterStep(c, w, i, ch);
  }

  lemma BoundedAfterStep(c: Config, w: World, i: nat, ch: Choice)
    requires Inv(c, w) && i < |w.cons|
    ensures forall j | 0 <= j < |w.cons| :: Bounded(c, ConsumerStep(c, w, i, ch).cons[j])
  {
    var w' := ConsumerStep(c, w, i, ch);
    forall j | 0 <= j < |w'.cons| ensures Bounded(c, w'.cons[j]) {
      assert Bounded(c, w.cons[j]);
      if j == i {
        var on := OnRing(c, w.cons[i].pc) && At(c, i, w.cons[i]) < |w.rings|;
        BoundedAfter(c, i, w.cons[i], if on then w.rings[At(c, i, w.cons[i])] else NoRing, Count(w, i), ch);
      }
    }
  }

  // ------------------------------------------------------------ close

  lemma ClosedRing(c: Config, a: Producer, r: Ring)
    requires RingOk(c, r) && ProducerOk(c, a, r)
    ensures RingOk(c, r.(closed := true)) && ProducerOk(c, a, r.(closed := true))
  {
    var r' := r.(closed := true);
    forall k | r'.head <= k < r'.tail ensures Live(c, r', k) { assert Live(c, r, k); }
    forall k | 0 <= k < |a.tries| ensures TryOk(r', a.tries[k]) { assert TryOk(r, a.tries[k]); }
  }

  lemma CloserInv(c: Config, w: World, ch: Choice)
    requires Inv(c, w)
    ensures Inv(c, CloserStep(w, ch))
  {
    var w' := CloserStep(w, ch);
    forall p | 0 <= p < |w'.rings| ensures RingOk(c, w'.rings[p]) && ProducerOk(c, w'.prods[p], w'.rings[p]) && ClosedOk(w', p) {
      assert RingOk(c, w.rings[p]) && ProducerOk(c, w.prods[p], w.rings[p]) && ClosedOk(w, p);
      if w'.rings[p] != w.rings[p] { ClosedRing(c, w.prods[p], w.rings[p]); }
    }
    forall i, k | 0 <= i < |w'.cons| && 0 <= k < c.owned ensures Served(c, w', i, k) { assert Served(c, w, i, k); }
  }

  // ------------------------------------------------------------ runs

  lemma StepInv(c: Config, w: World, a: Actor, k: Choice)
    requires Inv(c, w) && Acts(w, a)
    ensures Inv(c, Step(c, w, a, k))
  {
    match a
    case Prod(p) => ProducerInv(c, w, p, k);
    case Cons(i) => ConsumerInv(c, w, i, k);
    case Close => CloserInv(c, w, k);
  }

  lemma InitInv(c: Config)
    requires Sane(c)
    ensures Inv(c, Init(c))
  {
    var w := Init(c);
    forall i, k | 0 <= i < |w.cons| && 0 <= k < c.owned ensures Served(c, w, i, k) { RingBelow(c, i, k); }
  }

  lemma NextInv(c: Config, w: World, w': World)
    requires Inv(c, w) && Next(c, w, w')
    ensures Inv(c, w')
  {
    var a: Actor, k: Choice :| Acts(w, a) && w' == Step(c, w, a, k);
    StepInv(c, w, a, k);
  }

  lemma {:induction false} RunInv(c: Config, tr: seq<World>, j: nat)
    requires Run(c, tr) && j < |tr|
    ensures Inv(c, tr[j])
  {
    if j == 0 {
      InitInv(c);
    } else {
      RunInv(c, tr, j - 1);
      assert NextAt(c, tr, j - 1);
      NextInv(c, tr[j - 1], tr[j]);
    }
  }

  // ------------------------------------------------------------ what follows

  /** A push returned ok exactly when its position is below the ring's tail; one refused at the last found the ring closed, so that tail is final. */
  lemma OkIsBelowTail(c: Config, tr: seq<World>, j: nat, p: nat, t: nat)
    requires Run(c, tr) && j < |tr| && p < |tr[j].rings| && p < |tr[j].prods| && t < |tr[j].prods[p].tries|
    ensures tr[j].prods[p].tries[t].ok <==> tr[j].prods[p].tries[t].pos < tr[j].rings[p].tail
    ensures !tr[j].prods[p].tries[t].ok ==> tr[j].rings[p].closed
  {
    RunInv(c, tr, j);
    assert ProducerOk(c, tr[j].prods[p], tr[j].rings[p]);
    assert TryOk(tr[j].rings[p], tr[j].prods[p].tries[t]);
  }

  /** A producer about to write, or refused after writing, has its own slot: no live position shares it. */
  lemma WrittenSlotIsFresh(c: Config, tr: seq<World>, j: nat, p: nat, k: nat)
    requires Run(c, tr) && j < |tr| && p < |tr[j].rings| && p < |tr[j].prods|
    requires (tr[j].prods[p].pc.Write? || tr[j].prods[p].pc.Publish?) && tr[j].rings[p].head <= k < tr[j].rings[p].tail
    ensures Slot(c.ring, k) != Slot(c.ring, tr[j].prods[p].pc.pos)
  {
    RunInv(c, tr, j);
    assert ProducerOk(c, tr[j].prods[p], tr[j].rings[p]) && RingOk(c, tr[j].rings[p]);
    WriteIsFresh(c, tr[j].rings[p], k);
  }

  /** Its refusal leaves every live slot as published. */
  lemma LiveSlotsHold(c: Config, tr: seq<World>, j: nat, p: nat, k: nat)
    requires Run(c, tr) && j < |tr| && p < |tr[j].rings| && tr[j].rings[p].head <= k < tr[j].rings[p].tail
    ensures var r := tr[j].rings[p]; Slot(c.ring, k) < |r.slots| && k < |r.log| && r.slots[Slot(c.ring, k)] == r.log[k]
  {
    RunInv(c, tr, j);
    assert RingOk(c, tr[j].rings[p]) && Live(c, tr[j].rings[p], k);
  }

  /** A consumer has had exactly the first head of the pushes its producer saw accepted, in order, from each of its rings. */
  lemma TakenInOrder(c: Config, tr: seq<World>, j: nat, i: nat, k: nat)
    requires Run(c, tr) && j < |tr| && i < c.cons && k < c.owned
    ensures var w, p := tr[j], RingOf(c, i, k);
      && i < |w.cons| && p < |w.rings| && p < |w.prods|
      && Proj(w.cons[i].got, p) <= Oks(w.prods[p].tries) && |Proj(w.cons[i].got, p)| == w.rings[p].head
  {
    RunInv(c, tr, j);
    assert Served(c, tr[j], i, k) && ProducerOk(c, tr[j].prods[RingOf(c, i, k)], tr[j].rings[RingOf(c, i, k)]);
  }

  /** Told that it is drained, a consumer has had every accepted push of all its rings. */
  lemma DrainedIsExact(c: Config, tr: seq<World>, j: nat, i: nat, k: nat)
    requires Run(c, tr) && j < |tr| && i < c.cons && k < c.owned && i < |tr[j].cons| && tr[j].cons[i].pc == Idle(Drained)
    ensures var w, p := tr[j], RingOf(c, i, k);
      p < |w.rings| && p < |w.prods| && w.rings[p].closed && Proj(w.cons[i].got, p) == Oks(w.prods[p].tries)
  {
    RunInv(c, tr, j);
    assert Served(c, tr[j], i, k) && ProducerOk(c, tr[j].prods[RingOf(c, i, k)], tr[j].rings[RingOf(c, i, k)]);
    assert RingOk(c, tr[j].rings[RingOf(c, i, k)]);
  }

  /** A closed ring's tail is final: no push succeeds on it again. */
  lemma {:induction false} ClosedTailIsFinal(c: Config, tr: seq<World>, j: nat, l: nat, p: nat)
    requires Run(c, tr) && j <= l < |tr| && p < |tr[j].rings| && tr[j].rings[p].closed
    ensures p < |tr[l].rings| && tr[l].rings[p].closed && tr[l].rings[p].tail == tr[j].rings[p].tail && tr[l].rings[p].log == tr[j].rings[p].log
    decreases l
  {
    if j < l {
      ClosedTailIsFinal(c, tr, j, l - 1, p);
      RunInv(c, tr, l - 1);
      assert NextAt(c, tr, l - 1);
      NextKeepsClosed(c, tr[l - 1], tr[l], p);
    }
  }

  lemma NextKeepsClosed(c: Config, w: World, w': World, p: nat)
    requires Inv(c, w) && Next(c, w, w') && p < |w.rings| && w.rings[p].closed
    ensures p < |w'.rings| && w'.rings[p].closed && w'.rings[p].tail == w.rings[p].tail && w'.rings[p].log == w.rings[p].log
  {
    var a: Actor, k: Choice :| Acts(w, a) && w' == Step(c, w, a, k);
    match a
    case Prod(q) =>
      assert RingOk(c, w.rings[q]) && ProducerOk(c, w.prods[q], w.rings[q]);
      ProducedRing(c, w.prods[q], w.rings[q]);
    case Cons(i) => RingAfter(c, w, i, k, p);
    case Close =>
  }

  /** When close has returned, every ring is closed. */
  lemma CloseReachesAll(c: Config, tr: seq<World>, j: nat, p: nat)
    requires Run(c, tr) && j < |tr| && tr[j].closer.Shut? && p < |tr[j].rings|
    ensures tr[j].rings[p].closed
  {
    RunInv(c, tr, j);
    assert ClosedOk(tr[j], p);
  }

  /**
   * Rotation: a consumer that takes from a ring before ring q in its turn brings
   * q strictly nearer the front of its next turn, so that a busy ring cannot
   * starve it.
   */
  lemma TakingBringsNearer(c: Config, next: nat, k: nat, q: nat)
    requires next < c.owned && k < q < c.owned
    ensures var next' := Wrapped(c, Turn(c, next, k) + 1);
      exists q' | 0 <= q' < q :: Turn(c, next', q') == Turn(c, next, q)
  {
    var next' := Wrapped(c, Turn(c, next, k) + 1);
    assert Turn(c, next', q - k - 1) == Turn(c, next, q);
  }
}

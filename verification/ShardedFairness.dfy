/** No ring of a consumer starves, over every run of the sharded queue. */
module ShardedFairness {
  import opened Slots
  import opened Streams
  import opened Sharded
  import opened ShardedSafety
  import opened ShardedReturns

  // How far ring r, counted among the consumer's own, is from the front of the
  // round that starts at next.
  function Ahead(c: Config, next: nat, r: nat): (d: nat)
    requires next < c.owned && r < c.owned
    ensures d < c.owned && Turn(c, next, d) == r
  {
    if r >= next then r - next else r + c.owned - next
  }

  predicate OnTurn(pc: Cpc) { pc.Try? || pc.Refresh? || pc.Read? || pc.Release? }

  // The consumer has not passed turn d in the look it is in.
  predicate NotPast(pc: Cpc, d: nat) { OnTurn(pc) ==> pc.k <= d }

  // What is in ring p stays there.
  predicate Waits(r: Ring, r': Ring) { r.head < r.tail && r'.head == r.head }

  // A take from another ring brings r nearer to the front.
  lemma Nearer(c: Config, next: nat, k: nat, r: nat)
    requires next < c.owned && r < c.owned && k < Ahead(c, next, r)
    ensures var next' := Wrapped(c, Turn(c, next, k) + 1); next' < c.owned && Ahead(c, next', r) == Ahead(c, next, r) - k - 1
  {
  }

  // The consumer has moved from a to a' without passing r, and each take has brought it nearer.
  predicate Approaches(c: Config, a: Consumer, a': Consumer, r: nat) {
    && r < c.owned && a.next < c.owned && a'.next < c.owned && NotPast(a'.pc, Ahead(c, a'.next, r))
    && |a'.got| + Ahead(c, a'.next, r) <= |a.got| + Ahead(c, a.next, r)
  }

  // At a turn before r's.
  lemma BeforeTurn(c: Config, i: nat, a: Consumer, ring: Ring, e: Wait, k: Choice, r: nat)
    requires Sane(c) && a.next < c.owned && r < c.owned && OnTurn(a.pc) && a.pc.k < Ahead(c, a.next, r)
    ensures Approaches(c, a, After(c, i, a, ring, e, k), r)
  {
    Nearer(c, a.next, a.pc.k, r);
    hide WaitPc, Ahead;
  }

  // At r's: the look does not pass a ring that has something in it.
  lemma AtTurn(c: Config, i: nat, a: Consumer, ring: Ring, e: Wait, k: Choice, r: nat)
    requires Sane(c) && a.next < c.owned && r < c.owned && OnTurn(a.pc) && a.pc.k == Ahead(c, a.next, r)
    requires ring.head < ring.tail && !a.pc.Release?
    ensures Approaches(c, a, After(c, i, a, ring, e, k), r)
  {
    hide WaitPc, Ahead;
  }

  // Between looks.
  lemma OffTurn(c: Config, i: nat, a: Consumer, ring: Ring, e: Wait, k: Choice, r: nat)
    requires Sane(c) && a.next < c.owned && r < c.owned && !OnTurn(a.pc)
    ensures Approaches(c, a, After(c, i, a, ring, e, k), r)
  {
    hide Ahead;
  }

  // One step of the consumer, while there is something in its ring r and it stays there.
  lemma StepNearer(c: Config, w: World, i: nat, k: Choice, r: nat)
    requires Sane(c) && i < |w.cons| && r < c.owned && RingOf(c, i, r) < |w.rings| && w.cons[i].next < c.owned
    requires NotPast(w.cons[i].pc, Ahead(c, w.cons[i].next, r))
    requires var w' := ConsumerStep(c, w, i, k); RingOf(c, i, r) < |w'.rings| && Waits(w.rings[RingOf(c, i, r)], w'.rings[RingOf(c, i, r)])
    ensures Approaches(c, w.cons[i], ConsumerStep(c, w, i, k).cons[i], r)
  {
    var a := w.cons[i];
    var on := OnRing(c, a.pc) && At(c, i, a) < |w.rings|;
    var ring := if on then w.rings[At(c, i, a)] else NoRing;
    var e := if i < |w.waits| then w.waits[i] else NoWait;
    if !OnTurn(a.pc) { OffTurn(c, i, a, ring, e, k, r); }
    else if a.pc.k < Ahead(c, a.next, r) { BeforeTurn(c, i, a, ring, e, k, r); }
    else {
      assert At(c, i, a) == RingOf(c, i, r);
      AtTurn(c, i, a, ring, e, k, r);
    }
    hide After, Attend, Approaches, Ahead;
  }

  lemma NextNearer(c: Config, w: World, w': World, i: nat, r: nat)
    requires Inv(c, w) && Next(c, w, w') && i < |w.cons| && r < c.owned && RingOf(c, i, r) < |w.rings| && w.cons[i].next < c.owned
    requires NotPast(w.cons[i].pc, Ahead(c, w.cons[i].next, r))
    requires RingOf(c, i, r) < |w'.rings| && Waits(w.rings[RingOf(c, i, r)], w'.rings[RingOf(c, i, r)])
    ensures i < |w'.cons|
    ensures Approaches(c, w.cons[i], w'.cons[i], r)
  {
    ConsumerMoves(c, w, w', i);
    if w'.cons[i] != w.cons[i] {
      var k :| ByConsumerStep(c, w, w', i, k);
      StepNearer(c, w, i, k, r);
    }
    hide Next, Inv, Ahead, NotPast, Waits, ConsumerStep;
  }

  // From state j to state l there is something in ring p, and nothing is taken from it.
  ghost predicate Pending(tr: seq<World>, j: nat, l: nat, p: nat) {
    j <= l < |tr| && p < |tr[j].rings| && forall m | j <= m <= l :: p < |tr[m].rings| && tr[m].rings[p].head == tr[j].rings[p].head < tr[m].rings[p].tail
  }

  lemma {:induction false} TakesInTurn(c: Config, tr: seq<World>, j: nat, l: nat, i: nat, r: nat)
    requires Run(c, tr) && i < c.cons && r < c.owned && Pending(tr, j, l, RingOf(c, i, r))
    requires i < |tr[j].cons| && !OnTurn(tr[j].cons[i].pc)
    ensures i < |tr[l].cons| && tr[l].cons[i].next < c.owned && tr[j].cons[i].next < c.owned
    ensures NotPast(tr[l].cons[i].pc, Ahead(c, tr[l].cons[i].next, r))
    ensures |tr[l].cons[i].got| + Ahead(c, tr[l].cons[i].next, r) <= |tr[j].cons[i].got| + Ahead(c, tr[j].cons[i].next, r)
    decreases l
  {
    RunInv(c, tr, j);
    assert Bounded(c, tr[j].cons[i]);
    if j < l {
      assert Pending(tr, j, l - 1, RingOf(c, i, r));
      TakesInTurn(c, tr, j, l - 1, i, r);
      StepOf(c, tr, l);
      hide Run, Inv, Next, Ahead, NotPast, RingOf, Bounded;
      NextNearer(c, tr[l - 1], tr[l], i, r);
    }
  }

  /**
   * A ring that has an event when its consumer begins to look is next in line
   * before the consumer has taken owned events from its other rings: a busy ring
   * starves none.
   */
  lemma NoRingStarves(c: Config, tr: seq<World>, j: nat, l: nat, i: nat, r: nat)
    requires Run(c, tr) && i < c.cons && r < c.owned && Pending(tr, j, l, RingOf(c, i, r))
    requires i < |tr[j].cons| && i < |tr[l].cons| && !OnTurn(tr[j].cons[i].pc)
    ensures |tr[l].cons[i].got| < |tr[j].cons[i].got| + c.owned
  {
    TakesInTurn(c, tr, j, l, i, r);
  }
}

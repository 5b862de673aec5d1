/** What the sharded queue tells its callers, over every run. */
module ShardedReturns {
  import opened Streams
  import opened Sharded
  import opened ShardedSafety

  // ------------------------------------------------------------ pops

  predicate PopEnds(a: Consumer, a': Consumer) { !a.pc.Idle? && a'.pc.Idle? }

  // The event that a consumer's step hands to its caller.
  function Handed(a: Consumer, a': Consumer): seq<Tagged<Value>> {
    if PopEnds(a, a') && a'.pc.last.Got? then [Tagged(a'.pc.last.ring, a'.pc.last.v)] else []
  }

  // The event that a consumer has taken in its last look before it sleeps, and is about to return.
  function Carried(pc: Cpc): seq<Tagged<Value>> {
    if pc.Cancel? && !pc.again && pc.last.Got? then [Tagged(pc.last.ring, pc.last.v)] else []
  }

  /** The events that consumer i's calls have returned, in order, each with its ring. */
  function Given(tr: seq<World>, j: nat, i: nat): seq<Tagged<Value>>
    requires j < |tr|
  {
    if j == 0 || i >= |tr[j - 1].cons| || i >= |tr[j].cons| then []
    else Given(tr, j - 1, i) + Handed(tr[j - 1].cons[i], tr[j].cons[i])
  }

  lemma AfterHands(c: Config, i: nat, a: Consumer, r: Ring, e: Wait, k: Choice, given: seq<Tagged<Value>>)
    requires Sane(c) && given + Carried(a.pc) == a.got && (a.pc.Release? ==> At(c, i, a) == RingOf(c, i, Turn(c, a.next, a.pc.k)))
    ensures var a' := After(c, i, a, r, e, k); given + Handed(a, a') + Carried(a'.pc) == a'.got
  {
    var a' := After(c, i, a, r, e, k);
    if a.pc.Release? {
      assert Carried(a.pc) == [] && Handed(a, a') + Carried(a'.pc) == [Tagged(At(c, i, a), a.pc.v)];
    } else {
      assert Handed(a, a') + Carried(a'.pc) == Carried(a.pc);
    }
    assert given + Handed(a, a') + Carried(a'.pc) == given + (Handed(a, a') + Carried(a'.pc));
  }

  // A step is consumer i's own, or leaves it alone.
  ghost predicate ByConsumerStep(c: Config, w: World, w': World, i: nat, k: Choice)
    requires Sane(c)
  {
    i < |w.cons| && w' == ConsumerStep(c, w, i, k)
  }

  lemma ConsumerMoves(c: Config, w: World, w': World, i: nat)
    requires Sane(c) && Next(c, w, w') && i < |w.cons|
    ensures |w'.cons| == |w.cons|
    ensures w'.cons[i] == w.cons[i] || exists k :: ByConsumerStep(c, w, w', i, k)
  {
    var a: Actor, k: Choice :| Acts(w, a) && w' == Step(c, w, a, k);
    if a == Cons(i) { assert ByConsumerStep(c, w, w', i, k); }
  }

  lemma StepOf(c: Config, tr: seq<World>, j: nat)
    requires Run(c, tr) && 0 < j < |tr|
    ensures Inv(c, tr[j - 1]) && Next(c, tr[j - 1], tr[j]) && |tr[j - 1].cons| == |tr[j].cons| == c.cons
  {
    RunInv(c, tr, j - 1);
    RunInv(c, tr, j);
    assert NextAt(c, tr, j - 1);
    hide Next;
  }

  lemma AfterStart(c: Config, tr: seq<World>, j: nat, i: nat)
    requires Run(c, tr) && j < |tr| && i < |tr[j].cons| && !tr[j].cons[i].pc.Idle?
    ensures j > 0
  {
  }

  lemma NextHands(c: Config, w: World, w': World, i: nat, given: seq<Tagged<Value>>)
    requires Sane(c) && Next(c, w, w') && i < |w.cons| == |w'.cons| && given + Carried(w.cons[i].pc) == w.cons[i].got
    ensures given + Handed(w.cons[i], w'.cons[i]) + Carried(w'.cons[i].pc) == w'.cons[i].got
  {
    hide After, Next, Carried;
    ConsumerMoves(c, w, w', i);
    if w'.cons[i] == w.cons[i] {
      assert given + [] == given;
    } else {
      var k :| ByConsumerStep(c, w, w', i, k);
      var a := w.cons[i];
      var on := OnRing(c, a.pc) && At(c, i, a) < |w.rings|;
      AfterHands(c, i, a, if on then w.rings[At(c, i, a)] else NoRing, if i < |w.waits| then w.waits[i] else NoWait, k, given);
    }
  }

  /**
   * Every event taken is returned once, to the consumer that took it, with its
   * ring and its value and in the order of the taking, or is the one that its
   * pop is about to return.
   */
  lemma {:induction false} TakenIsReturned(c: Config, tr: seq<World>, j: nat, i: nat)
    requires Run(c, tr) && j < |tr| && i < c.cons
    ensures i < |tr[j].cons| && Given(tr, j, i) + Carried(tr[j].cons[i].pc) == tr[j].cons[i].got
  {
    HasCons(c, tr, j, i);
    hide Inv, Next, Handed, Carried;
    if j > 0 {
      TakenIsReturned(c, tr, j - 1, i);
      StepOf(c, tr, j);
      NextHands(c, tr[j - 1], tr[j], i, Given(tr, j - 1, i));
    } else {
      NothingCarried(tr[0].cons[i]);
      assert tr[0] == Init(c);
    }
  }

  lemma NothingCarried(a: Consumer)
    requires a.pc == Idle(Nothing)
    ensures Carried(a.pc) == []
  {
  }

  /** So an idle consumer has been told exactly the first head accepted pushes of each of its rings, in order. */
  lemma ReturnedInOrder(c: Config, tr: seq<World>, j: nat, i: nat, k: nat)
    requires Run(c, tr) && j < |tr| && i < c.cons && k < c.owned && i < |tr[j].cons| && tr[j].cons[i].pc.Idle?
    ensures var w, p := tr[j], RingOf(c, i, k);
      && p < |w.rings| && p < |w.prods|
      && Proj(Given(tr, j, i), p) <= Oks(w.prods[p].tries) && |Proj(Given(tr, j, i), p)| == w.rings[p].head
  {
    TakenIsReturned(c, tr, j, i);
    TakenInOrder(c, tr, j, i, k);
    assert Given(tr, j, i) == tr[j].cons[i].got;
  }

  // ------------------------------------------------------------ empty

  predicate Looking(pc: Cpc, site: Site) { (pc.Try? || pc.Refresh?) && pc.site == site }

  // At state m, in the look that goes on at state j, consumer i found its q-th ring empty.
  ghost predicate FoundEmpty(c: Config, tr: seq<World>, m: nat, j: nat, i: nat, q: nat, site: Site) {
    && m < j < |tr| && RingOf(c, i, q) < |tr[m].rings| && tr[m].rings[RingOf(c, i, q)].head == tr[m].rings[RingOf(c, i, q)].tail
    && forall l | m <= l <= j :: i < |tr[l].cons| && Looking(tr[l].cons[i].pc, site)
  }

  lemma LookFrom(c: Config, w: World, w': World, i: nat, site: Site)
    requires Inv(c, w) && Next(c, w, w') && i < |w.cons| == |w'.cons| && Looking(w'.cons[i].pc, site) && w'.cons[i] != w.cons[i]
    ensures w'.cons[i].pc.k == 0
      || (Looking(w.cons[i].pc, site) && w'.cons[i].next == w.cons[i].next
          && (w'.cons[i].pc.k == w.cons[i].pc.k
              || (w.cons[i].pc.Refresh? && w'.cons[i].pc.k == w.cons[i].pc.k + 1 && w.cons[i].pc.k < c.owned
                  && (var p := RingOf(c, i, Turn(c, w.cons[i].next, w.cons[i].pc.k)); p < |w.rings| && w.rings[p].head == w.rings[p].tail))))
  {
    ConsumerMoves(c, w, w', i);
    var k :| ByConsumerStep(c, w, w', i, k);
    var a := w.cons[i];
    assert Bounded(c, a);
    if OnRing(c, a.pc) { OnOwnRing(c, i, a); }
  }

  lemma FoundOn(c: Config, tr: seq<World>, m: nat, j: nat, i: nat, q: nat, site: Site)
    requires 0 < j < |tr| && FoundEmpty(c, tr, m, j - 1, i, q, site) && i < |tr[j].cons| && Looking(tr[j].cons[i].pc, site)
    ensures FoundEmpty(c, tr, m, j, i, q, site)
  {
    hide RingOf, Looking;
  }

  lemma FoundNow(c: Config, tr: seq<World>, j: nat, i: nat, q: nat, site: Site)
    requires 0 < j < |tr| && i < |tr[j - 1].cons| && i < |tr[j].cons|
    requires Looking(tr[j - 1].cons[i].pc, site) && Looking(tr[j].cons[i].pc, site)
    requires RingOf(c, i, q) < |tr[j - 1].rings| && tr[j - 1].rings[RingOf(c, i, q)].head == tr[j - 1].rings[RingOf(c, i, q)].tail
    ensures FoundEmpty(c, tr, j - 1, j, i, q, site)
  {
    hide RingOf, Looking;
  }

  lemma {:induction false} PassedIsEmpty(c: Config, tr: seq<World>, j: nat, i: nat, q: nat, site: Site) returns (m: nat)
    requires Run(c, tr) && j < |tr| && i < c.cons && i < |tr[j].cons| && Looking(tr[j].cons[i].pc, site)
    requires q < tr[j].cons[i].pc.k && q < c.owned
    ensures FoundEmpty(c, tr, m, j, i, Turn(c, tr[j].cons[i].next, q), site)
  {
    AfterStart(c, tr, j, i);
    hide Run, Next, Inv, FoundEmpty, RingOf, Turn;
    StepOf(c, tr, j);
    var a, a' := tr[j - 1].cons[i], tr[j].cons[i];
    if a' != a { LookFrom(c, tr[j - 1], tr[j], i, site); }
    if a'.pc.k == a.pc.k + 1 && q == a.pc.k {
      m := j - 1;
      FoundNow(c, tr, j, i, Turn(c, a.next, q), site);
    } else {
      m := PassedIsEmpty(c, tr, j - 1, i, q, site);
      FoundOn(c, tr, m, j, i, Turn(c, a.next, q), site);
    }
  }

  // In one round from next on every ring of the consumer has its turn.
  lemma EveryTurn(c: Config, next: nat, r: nat) returns (q: nat)
    requires next < c.owned && r < c.owned
    ensures q < c.owned && Turn(c, next, q) == r
  {
    q := if r >= next then r - next else r + c.owned - next;
  }

  lemma EmptyFrom(c: Config, w: World, w': World, i: nat)
    requires Inv(c, w) && Next(c, w, w') && i < |w.cons| == |w'.cons| && PopEnds(w.cons[i], w'.cons[i]) && w'.cons[i].pc.last.Empty?
    requires w.cons[i].pc.Cancel? ==> !w.cons[i].pc.last.Empty?
    ensures Looking(w.cons[i].pc, Once) && w.cons[i].pc.k >= c.owned
  {
    ConsumerMoves(c, w, w', i);
    var k :| ByConsumerStep(c, w, w', i, k);
    assert Bounded(c, w.cons[i]);
  }

  /** Empty is told by TryPop only, and only after that look has found each of the consumer's rings empty at some moment. */
  lemma EmptyIsTruthful(c: Config, tr: seq<World>, j: nat, i: nat, r: nat) returns (m: nat)
    requires Run(c, tr) && j + 1 < |tr| && i < c.cons && i < |tr[j].cons| == |tr[j + 1].cons| && r < c.owned
    requires PopEnds(tr[j].cons[i], tr[j + 1].cons[i]) && tr[j + 1].cons[i].pc.last.Empty?
    ensures FoundEmpty(c, tr, m, j, i, r, Once)
  {
    RunInv(c, tr, j);
    assert NextAt(c, tr, j);
    CancelSays(c, tr, j, i);
    EmptyFrom(c, tr[j], tr[j + 1], i);
    assert Bounded(c, tr[j].cons[i]);
    var q := EveryTurn(c, tr[j].cons[i].next, r);
    m := PassedIsEmpty(c, tr, j, i, q, Once);
  }

  // ------------------------------------------------------------ the other answers

  // A step that consumer i takes only because the deadline has passed.
  ghost predicate ByDeadline(c: Config, w: World, w': World, i: nat)
    requires Sane(c)
  {
    i < |w.cons| && w' == ConsumerStep(c, w, i, Expire) && w' != ConsumerStep(c, w, i, Proceed)
  }

  // The deadline had passed when consumer i looked at it, in the call that goes on at state j.
  ghost predicate Expired(c: Config, tr: seq<World>, m: nat, j: nat, i: nat)
    requires Sane(c)
  {
    && m + 1 < |tr| && m <= j < |tr| && ByDeadline(c, tr[m], tr[m + 1], i)
    && forall l | m <= l <= j :: i < |tr[l].cons| && !tr[l].cons[i].pc.Idle?
  }

  // What a cancelled wait goes on to return: an event, or that time is up; nothing when pop loops.
  predicate CancelOk(pc: Cpc) { pc.Cancel? ==> if pc.again then pc.last.Nothing? else pc.last.Got? || pc.last.TimedOut? }

  lemma NextCancel(c: Config, w: World, w': World, i: nat)
    requires Inv(c, w) && Next(c, w, w') && i < |w.cons| == |w'.cons| && CancelOk(w.cons[i].pc)
    ensures CancelOk(w'.cons[i].pc)
    ensures w'.cons[i].pc.Cancel? && w'.cons[i].pc.last.TimedOut? && w'.cons[i] != w.cons[i] ==> ByDeadline(c, w, w', i)
    ensures w'.cons[i].pc.Cancel? && w'.cons[i] != w.cons[i] ==> !w.cons[i].pc.Cancel? && !w.cons[i].pc.Idle?
  {
    ConsumerMoves(c, w, w', i);
    if w'.cons[i] != w.cons[i] {
      var k :| ByConsumerStep(c, w, w', i, k);
    }
  }

  lemma {:induction false} CancelSays(c: Config, tr: seq<World>, j: nat, i: nat)
    requires Run(c, tr) && j < |tr| && i < c.cons
    ensures i < |tr[j].cons| && CancelOk(tr[j].cons[i].pc)
    ensures tr[j].cons[i].pc.Cancel? && tr[j].cons[i].pc.last.TimedOut? ==> exists m: nat :: Expired(c, tr, m, j, i)
  {
    HasCons(c, tr, j, i);
    hide Next, Inv, ByDeadline, Expired;
    if j > 0 {
      hide Run;
      CancelSays(c, tr, j - 1, i);
      StepOf(c, tr, j);
      NextCancel(c, tr[j - 1], tr[j], i);
      var pc := tr[j].cons[i].pc;
      if pc.Cancel? && pc.last.TimedOut? {
        if tr[j].cons[i] == tr[j - 1].cons[i] {
          var m: nat :| Expired(c, tr, m, j - 1, i);
          ExpiredOn(c, tr, m, j, i);
        } else {
          ExpiredNow(c, tr, j, i);
        }
      }
    }
  }

  lemma HasCons(c: Config, tr: seq<World>, j: nat, i: nat)
    requires Run(c, tr) && j < |tr| && i < c.cons
    ensures Sane(c) && i < |tr[j].cons| && (j == 0 ==> tr[j].cons[i].pc == Idle(Nothing))
  {
    RunInv(c, tr, j);
  }

  lemma ExpiredOn(c: Config, tr: seq<World>, m: nat, j: nat, i: nat)
    requires Sane(c) && 0 < j < |tr| && Expired(c, tr, m, j - 1, i) && i < |tr[j].cons| && !tr[j].cons[i].pc.Idle?
    ensures Expired(c, tr, m, j, i)
  {
    hide ByDeadline;
  }

  lemma ExpiredNow(c: Config, tr: seq<World>, j: nat, i: nat)
    requires Sane(c) && 0 < j < |tr| && ByDeadline(c, tr[j - 1], tr[j], i)
    requires i < |tr[j - 1].cons| && !tr[j - 1].cons[i].pc.Idle? && i < |tr[j].cons| && !tr[j].cons[i].pc.Idle?
    ensures Expired(c, tr, j - 1, j, i)
  {
    hide ByDeadline;
  }

  lemma EndsFrom(c: Config, w: World, w': World, i: nat)
    requires Inv(c, w) && Next(c, w, w') && i < |w.cons| == |w'.cons| && CancelOk(w.cons[i].pc) && PopEnds(w.cons[i], w'.cons[i])
    ensures !w'.cons[i].pc.last.Nothing?
    ensures w'.cons[i].pc.last.TimedOut? ==> (w.cons[i].pc.Cancel? && w.cons[i].pc.last.TimedOut?) || ByDeadline(c, w, w', i)
  {
    ConsumerMoves(c, w, w', i);
    var k :| ByConsumerStep(c, w, w', i, k);
  }

  /** A call that returns without an event was told drained, found every ring empty, or ran out of time. */
  lemma EndsWithReason(c: Config, tr: seq<World>, j: nat, i: nat)
    requires Run(c, tr) && j + 1 < |tr| && i < c.cons && i < |tr[j].cons| == |tr[j + 1].cons| && PopEnds(tr[j].cons[i], tr[j + 1].cons[i])
    ensures var last := tr[j + 1].cons[i].pc.last;
      && (last.Got? || last.Empty? || last.TimedOut? || last.Drained?)
      && (last.TimedOut? ==> exists m: nat :: Expired(c, tr, m, j, i))
  {
    RunInv(c, tr, j);
    CancelSays(c, tr, j, i);
    assert NextAt(c, tr, j);
    EndsFrom(c, tr[j], tr[j + 1], i);
    if tr[j + 1].cons[i].pc.last.TimedOut? && !tr[j].cons[i].pc.Cancel? { assert Expired(c, tr, j, j, i); }
  }

  // ------------------------------------------------------------ pushes

  predicate Offering(pc: Ppc) { pc.Load? || pc.Check? || pc.Write? || pc.Publish? }

  // Published, and waking the consumer.
  predicate Landed(pc: Ppc) { !pc.Free? && !Offering(pc) }

  predicate PushEnds(w: World, w': World, p: nat) {
    p < |w.prods| && p < |w'.prods| && !w.prods[p].pc.Free? && w'.prods[p].pc.Free?
  }

  /** The value of producer p's latest push. */
  function Asked(tr: seq<World>, j: nat, p: nat): Value
    requires j < |tr|
  {
    if j == 0 then 0
    else if p < |tr[j - 1].prods| && p < |tr[j].prods| && tr[j - 1].prods[p].pc.Free? && tr[j].prods[p].pc.Load?
    then tr[j].prods[p].pc.v
    else Asked(tr, j - 1, p)
  }

  /** The values of producer p's pushes that returned ok, in order. */
  function Accepted(tr: seq<World>, j: nat, p: nat): seq<Value>
    requires j < |tr|
  {
    if j == 0 then []
    else
      var ok := PushEnds(tr[j - 1], tr[j], p) && tr[j].prods[p].pc.last.Ok?;
      Accepted(tr, j - 1, p) + (if ok then [Asked(tr, j - 1, p)] else [])
  }

  function Pending(tr: seq<World>, j: nat, p: nat): seq<Value>
    requires j < |tr|
  {
    if p < |tr[j].prods| && Landed(tr[j].prods[p].pc) then [Asked(tr, j, p)] else []
  }

  predicate Holding(tr: seq<World>, j: nat, p: nat)
    requires j < |tr|
  {
    p < |tr[j].prods| && Offering(tr[j].prods[p].pc) ==> tr[j].prods[p].pc.v == Asked(tr, j, p)
  }

  // How a step moves producer p and the log of its ring.
  predicate Moves(pc: Ppc, pc': Ppc, log: seq<Value>, log': seq<Value>) {
    && (pc' == pc
        || ((Offering(pc') ==> if pc.Free? then pc'.Load? else Offering(pc) && pc'.v == pc.v)
            && (Landed(pc) ==> Landed(pc') || pc' == Free(Ok))
            && (pc' == Free(Ok) ==> Landed(pc))
            && (pc.Free? ==> pc'.Load?)))
    && (if Landed(pc') && !Landed(pc) then pc.Publish? && log' == log + [pc.v] else log' == log)
  }

  lemma ProducerMoves(c: Config, w: World, p: nat, k: Choice)
    requires Sane(c) && p < |w.prods| == |w.rings|
    ensures var w' := ProducerStep(c, w, p, k); Moves(w.prods[p].pc, w'.prods[p].pc, w.rings[p].log, w'.rings[p].log)
  {
  }

  lemma NextMoves(c: Config, w: World, w': World, p: nat)
    requires Inv(c, w) && Next(c, w, w') && p < |w.prods|
    ensures p < |w'.prods| && p < |w'.rings| && Moves(w.prods[p].pc, w'.prods[p].pc, w.rings[p].log, w'.rings[p].log)
  {
    var a: Actor, k: Choice :| Acts(w, a) && w' == Step(c, w, a, k);
    match a
    case Prod(q) => if q == p { ProducerMoves(c, w, p, k); }
    case Cons(i) => RingAfter(c, w, i, k, p);
    case Close =>
  }

  lemma MovesTell(tr: seq<World>, j: nat, p: nat)
    requires 0 < j < |tr| && p < |tr[j - 1].prods| && p < |tr[j].prods| && p < |tr[j - 1].rings| && p < |tr[j].rings|
    requires Moves(tr[j - 1].prods[p].pc, tr[j].prods[p].pc, tr[j - 1].rings[p].log, tr[j].rings[p].log)
    requires Holding(tr, j - 1, p) && Accepted(tr, j - 1, p) + Pending(tr, j - 1, p) == tr[j - 1].rings[p].log
    ensures Holding(tr, j, p) && Accepted(tr, j, p) + Pending(tr, j, p) == tr[j].rings[p].log
  {
  }

  /**
   * Ok is exact: the values of the pushes that returned ok, and of the one that
   * has published and not returned yet, are what has been published on the ring,
   * in order; a push that returned full or closed has published nothing.
   */
  lemma {:induction false} OkIsPublished(c: Config, tr: seq<World>, j: nat, p: nat)
    requires Run(c, tr) && j < |tr| && p < c.cons * c.owned
    ensures p < |tr[j].prods| && p < |tr[j].rings| && Holding(tr, j, p)
    ensures Accepted(tr, j, p) + Pending(tr, j, p) == tr[j].rings[p].log
  {
    RunInv(c, tr, j);
    if j > 0 {
      OkIsPublished(c, tr, j - 1, p);
      RunInv(c, tr, j - 1);
      assert NextAt(c, tr, j - 1);
      NextMoves(c, tr[j - 1], tr[j], p);
      MovesTell(tr, j, p);
    }
  }

  /** Full and closed are truthful: at that step the ring was full, or closed. */
  lemma RefusalIsTruthful(c: Config, tr: seq<World>, j: nat, p: nat)
    requires Run(c, tr) && j + 1 < |tr| && PushEnds(tr[j], tr[j + 1], p) && p < |tr[j].rings|
    ensures var r, last := tr[j].rings[p], tr[j + 1].prods[p].pc.last;
      && (last.Ok? || last.Full? || last.Closed?)
      && (last.Full? ==> r.tail == r.head + c.ring)
      && (last.Closed? ==> r.closed)
  {
    RunInv(c, tr, j);
    assert NextAt(c, tr, j);
    var a: Actor, k: Choice :| Acts(tr[j], a) && tr[j + 1] == Step(c, tr[j], a, k);
    assert ProducerOk(c, tr[j].prods[p], tr[j].rings[p]);
    assert a == Prod(p);
  }
}

/** The sharded queue's calls, run undisturbed from any reachable state: they find what there is to find. */
module ShardedLone {
  import opened Slots
  import opened Streams
  import opened Sharded
  import opened ShardedSafety

  ghost predicate Fine(c: Config, w: World, a: Actor) { Inv(c, w) && Acts(w, a) }

  // An actor takes a step, in time.
  ghost function Onward(c: Config, w: World, a: Actor): (w': World)
    requires Fine(c, w, a)
    ensures Fine(c, w', a)
  {
    StepInv(c, w, a, Proceed);
    Step(c, w, a, Proceed)
  }

  /** The state after n more steps of the actor alone. */
  ghost function Solo(c: Config, w: World, a: Actor, n: nat): (w': World)
    requires Fine(c, w, a)
    ensures Fine(c, w', a)
    decreases n
  {
    if n == 0 then w else Solo(c, Onward(c, w, a), a, n - 1)
  }

  lemma {:induction false} SoloTwice(c: Config, w: World, a: Actor, m: nat, n: nat)
    requires Fine(c, w, a)
    ensures Solo(c, Solo(c, w, a, m), a, n) == Solo(c, w, a, m + n)
    decreases m
  {
    hide Fine, Onward;
    if m > 0 { SoloTwice(c, Onward(c, w, a), a, m - 1, n); }
  }

  /** The actor, running alone, comes from w to w'. */
  ghost predicate Leads(c: Config, w: World, w': World, a: Actor) {
    Fine(c, w, a) && Fine(c, w', a) && exists n: nat :: Solo(c, w, a, n) == w'
  }

  lemma LeadsNone(c: Config, w: World, a: Actor)
    requires Fine(c, w, a)
    ensures Leads(c, w, w, a)
  {
    hide Fine;
    assert Solo(c, w, a, 0) == w;
  }

  lemma LeadsOne(c: Config, w: World, a: Actor)
    requires Fine(c, w, a)
    ensures Leads(c, w, Onward(c, w, a), a)
  {
    hide Fine, Onward;
    var w1 := Onward(c, w, a);
    assert Solo(c, w1, a, 0) == w1;
    assert Solo(c, w, a, 1) == w1;
  }

  lemma LeadsOn(c: Config, w: World, w1: World, w2: World, a: Actor)
    requires Leads(c, w, w1, a) && Leads(c, w1, w2, a)
    ensures Leads(c, w, w2, a)
  {
    hide Fine, Onward;
    var m: nat :| Solo(c, w, a, m) == w1;
    var n: nat :| Solo(c, w1, a, n) == w2;
    SoloTwice(c, w, a, m, n);
    hide Solo;
  }

  // ------------------------------------------------------------ one ring

  // The k-th ring of the round that starts at next.
  function Facing(c: Config, i: nat, next: nat, k: nat): nat { RingOf(c, i, Turn(c, next, k)) }

  // What is in ring p.
  predicate Has(w: World, p: nat) { p < |w.rings| && w.rings[p].head < w.rings[p].tail }

  predicate Same(r: Ring, r': Ring) { r'.head == r.head && r'.tail == r.tail && r'.closed == r.closed && r'.log == r.log }

  // The contents of the rings, the round and the event count are as they were.
  predicate Keeps(w: World, w': World, i: nat) {
    && |w'.rings| == |w.rings| && i < |w.cons| && i < |w'.cons| && w'.cons[i].next == w.cons[i].next
    && forall p | 0 <= p < |w.rings| :: Same(w.rings[p], w'.rings[p])
  }

  lemma FacingRing(c: Config, w: World, i: nat, k: nat)
    requires Fine(c, w, Cons(i)) && k < c.owned
    ensures var p := Facing(c, i, w.cons[i].next, k);
      p < |w.rings| && RingOk(c, w.rings[p]) && w.cons[i].next < c.owned && i < c.cons && Sane(c)
  {
    assert Bounded(c, w.cons[i]);
    RingBelow(c, i, Turn(c, w.cons[i].next, k));
  }

  // A step on a ring, and one off the rings.
  lemma OnwardAt(c: Config, w: World, i: nat)
    requires Fine(c, w, Cons(i)) && OnRing(c, w.cons[i].pc) && At(c, i, w.cons[i]) < |w.rings|
    ensures Sane(c)
    ensures var a, w', p := w.cons[i], Onward(c, w, Cons(i)), At(c, i, w.cons[i]);
      && w'.rings == w.rings[p := Consume(a.pc, w.rings[p])] && i < |w'.cons|
      && w'.cons[i].pc == LookPc(c, i, a, w.rings[p], Proceed)
      && (!a.pc.Release? ==> w'.cons[i].next == a.next) && w'.waits == w.waits
  {
    assert Sane(c);
    hide Inv, LookPc, Consume;
  }

  lemma OnwardOff(c: Config, w: World, i: nat)
    requires Fine(c, w, Cons(i)) && !OnRing(c, w.cons[i].pc) && !w.cons[i].pc.Release?
    ensures Sane(c)
    ensures var a, w' := w.cons[i], Onward(c, w, Cons(i));
      && w'.rings == w.rings && i < |w'.cons| && w'.cons[i].next == a.next
      && w'.cons[i].pc == (if Looks(a.pc) then LookPc(c, i, a, NoRing, Proceed) else WaitPc(a.pc, Count(w, i), Proceed))
      && i < |w.waits| && w'.waits == w.waits[i := Attend(a.pc, w.waits[i], Proceed)]
  {
    assert Sane(c) && |w.waits| == |w.cons|;
    hide Inv, LookPc, WaitPc, Attend;
  }

  // A look at an empty ring goes on to the next one.
  lemma PassesEmpty(c: Config, w: World, i: nat) returns (w': World)
    requires Fine(c, w, Cons(i)) && w.cons[i].pc.Try? && w.cons[i].pc.k < c.owned
    requires !Has(w, Facing(c, i, w.cons[i].next, w.cons[i].pc.k))
    ensures Leads(c, w, w', Cons(i)) && Keeps(w, w', i)
    ensures w'.cons[i].pc == Try(w.cons[i].pc.site, w.cons[i].pc.k + 1) && w'.waits == w.waits
  {
    hide Leads, Inv;
    FacingRing(c, w, i, w.cons[i].pc.k);
    OnwardAt(c, w, i);
    LeadsOne(c, w, Cons(i));
    var w1 := Onward(c, w, Cons(i));
    hide Onward;
    OnwardAt(c, w1, i);
    LeadsOne(c, w1, Cons(i));
    w' := Onward(c, w1, Cons(i));
    hide Fine;
    LeadsOn(c, w, w1, w', Cons(i));
  }

  // Where a look that takes v from ring p leaves its call.
  function Takes(site: Site, p: nat, v: Value): Cpc { if site.Recheck? then Cancel(false, Got(p, v)) else Idle(Got(p, v)) }

  // The oldest event of ring p.
  function Oldest(w: World, p: nat): Value
    requires p < |w.rings|
  {
    if w.rings[p].head < |w.rings[p].log| then w.rings[p].log[w.rings[p].head] else 0
  }

  // Ring p has lost its oldest event.
  predicate Shorter(w: World, w': World, p: nat) {
    p < |w.rings| == |w'.rings| && Same(w.rings[p].(head := w.rings[p].head + 1), w'.rings[p])
  }

  // The copy of the slot.
  lemma CopiesOldest(c: Config, w: World, i: nat) returns (w': World)
    requires Fine(c, w, Cons(i)) && w.cons[i].pc.Read? && w.cons[i].pc.k < c.owned && Has(w, Facing(c, i, w.cons[i].next, w.cons[i].pc.k))
    ensures Leads(c, w, w', Cons(i)) && Fine(c, w', Cons(i)) && i < |w'.cons| && w'.rings == w.rings && w'.cons[i].next == w.cons[i].next
    ensures var p := Facing(c, i, w.cons[i].next, w.cons[i].pc.k); w'.cons[i].pc == Release(w.cons[i].pc.site, w.cons[i].pc.k, Oldest(w, p))
  {
    hide Leads;
    var p := Facing(c, i, w.cons[i].next, w.cons[i].pc.k);
    FacingRing(c, w, i, w.cons[i].pc.k);
    assert Live(c, w.rings[p], w.rings[p].head);
    hide Inv;
    OnwardAt(c, w, i);
    LeadsOne(c, w, Cons(i));
    w' := Onward(c, w, Cons(i));
  }

  // The store of the head.
  lemma GivesBack(c: Config, w: World, i: nat) returns (w': World)
    requires Fine(c, w, Cons(i)) && w.cons[i].pc.Release? && w.cons[i].pc.k < c.owned
    ensures Leads(c, w, w', Cons(i)) && i < |w'.cons|
    ensures var p := Facing(c, i, w.cons[i].next, w.cons[i].pc.k); w'.cons[i].pc == Takes(w.cons[i].pc.site, p, w.cons[i].pc.v) && Shorter(w, w', p)
  {
    hide Leads, Inv;
    FacingRing(c, w, i, w.cons[i].pc.k);
    OnwardAt(c, w, i);
    LeadsOne(c, w, Cons(i));
    w' := Onward(c, w, Cons(i));
  }

  // From the copy on.
  lemma ReadsTaken(c: Config, w: World, i: nat) returns (w': World)
    requires Fine(c, w, Cons(i)) && w.cons[i].pc.Read? && w.cons[i].pc.k < c.owned && Has(w, Facing(c, i, w.cons[i].next, w.cons[i].pc.k))
    ensures Leads(c, w, w', Cons(i)) && i < |w'.cons|
    ensures var p := Facing(c, i, w.cons[i].next, w.cons[i].pc.k); w'.cons[i].pc == Takes(w.cons[i].pc.site, p, Oldest(w, p)) && Shorter(w, w', p)
  {
    hide Leads, Facing, Fine, Oldest, Takes;
    var w1 := CopiesOldest(c, w, i);
    w' := GivesBack(c, w1, i);
    LeadsOn(c, w, w1, w', Cons(i));
  }

  // A look at a ring with events comes to the slot.
  lemma ReachesSlot(c: Config, w: World, i: nat) returns (w': World)
    requires Fine(c, w, Cons(i)) && w.cons[i].pc.Try? && w.cons[i].pc.k < c.owned
    requires Has(w, Facing(c, i, w.cons[i].next, w.cons[i].pc.k))
    ensures Leads(c, w, w', Cons(i)) && Keeps(w, w', i) && w'.cons[i].pc == Read(w.cons[i].pc.site, w.cons[i].pc.k)
  {
    hide Leads;
    FacingRing(c, w, i, w.cons[i].pc.k);
    OnwardAt(c, w, i);
    LeadsOne(c, w, Cons(i));
    w' := Onward(c, w, Cons(i));
    if w'.cons[i].pc.Refresh? {
      var w1 := w';
      OnwardAt(c, w1, i);
      LeadsOne(c, w1, Cons(i));
      w' := Onward(c, w1, Cons(i));
      hide Onward;
      LeadsOn(c, w, w1, w', Cons(i));
    }
  }

  // And takes the oldest.
  lemma TakesOldest(c: Config, w: World, i: nat) returns (w': World)
    requires Fine(c, w, Cons(i)) && w.cons[i].pc.Try? && w.cons[i].pc.k < c.owned
    requires Has(w, Facing(c, i, w.cons[i].next, w.cons[i].pc.k))
    ensures Leads(c, w, w', Cons(i)) && i < |w'.cons|
    ensures var p := Facing(c, i, w.cons[i].next, w.cons[i].pc.k); w'.cons[i].pc == Takes(w.cons[i].pc.site, p, Oldest(w, p)) && Shorter(w, w', p)
  {
    hide Leads, Facing;
    var w1 := ReachesSlot(c, w, i);
    LeadsFine(c, w, w1, i);
    hide Fine;
    w' := ReadsTaken(c, w1, i);
    LeadsOn(c, w, w1, w', Cons(i));
  }

  lemma LeadsFine(c: Config, w: World, w': World, i: nat)
    requires Leads(c, w, w', Cons(i))
    ensures Fine(c, w', Cons(i)) && i < |w'.cons|
  {
  }

  // ------------------------------------------------------------ a look at all of them

  // The first of its rings with an event in it, in the round from turn k on; owned if there is none.
  function FirstTurn(c: Config, w: World, i: nat, next: nat, k: nat): (q: nat)
    ensures q >= k
    ensures q < c.owned ==> Has(w, Facing(c, i, next, q))
    ensures forall j | k <= j < q :: j >= c.owned || !Has(w, Facing(c, i, next, j))
    decreases c.owned - k
  {
    if k >= c.owned || Has(w, Facing(c, i, next, k)) then k else FirstTurn(c, w, i, next, k + 1)
  }

  lemma {:induction false} FirstSame(c: Config, w: World, w': World, i: nat, next: nat, k: nat)
    requires |w'.rings| == |w.rings| && forall p | 0 <= p < |w.rings| :: Same(w.rings[p], w'.rings[p])
    ensures FirstTurn(c, w', i, next, k) == FirstTurn(c, w, i, next, k)
    decreases c.owned - k
  {
    if k < c.owned { FirstSame(c, w, w', i, next, k + 1); }
  }

  // A look finds the first event there is, or comes to the end of its round.
  ghost predicate Found(c: Config, w: World, w': World, i: nat, site: Site, next: nat, k: nat) {
    && i < |w.cons| && i < |w'.cons|
    && var q := FirstTurn(c, w, i, next, k);
       var p := Facing(c, i, next, q);
       if q < c.owned then p < |w.rings| && w'.cons[i].pc == Takes(site, p, Oldest(w, p)) && Shorter(w, w', p)
       else Keeps(w, w', i) && w'.cons[i].pc == Try(site, q) && w'.waits == w.waits
  }

  lemma FoundOn(c: Config, w: World, w1: World, w': World, i: nat, site: Site, next: nat, k: nat)
    requires k < c.owned && !Has(w, Facing(c, i, next, k)) && Keeps(w, w1, i) && w1.waits == w.waits && Found(c, w1, w', i, site, next, k + 1)
    ensures Found(c, w, w', i, site, next, k)
  {
    FirstSame(c, w, w1, i, next, k + 1);
    var q := FirstTurn(c, w, i, next, k);
    assert q == FirstTurn(c, w, i, next, k + 1);
    if q < c.owned { assert Same(w.rings[Facing(c, i, next, q)], w1.rings[Facing(c, i, next, q)]); }
    else {
      forall p | 0 <= p < |w.rings| ensures Same(w.rings[p], w'.rings[p]) { assert Same(w.rings[p], w1.rings[p]) && Same(w1.rings[p], w'.rings[p]); }
    }
    hide FirstTurn, Has, Facing;
  }

  lemma {:induction false} LookFinds(c: Config, w: World, i: nat) returns (w': World)
    requires Fine(c, w, Cons(i)) && w.cons[i].pc.Try? && w.cons[i].pc.k <= c.owned
    ensures Leads(c, w, w', Cons(i)) && Found(c, w, w', i, w.cons[i].pc.site, w.cons[i].next, w.cons[i].pc.k)
    decreases c.owned - w.cons[i].pc.k
  {
    hide Leads, Facing, Has;
    var pc, next := w.cons[i].pc, w.cons[i].next;
    if pc.k == c.owned {
      LeadsNone(c, w, Cons(i));
      w' := w;
    } else if Has(w, Facing(c, i, next, pc.k)) {
      w' := TakesOldest(c, w, i);
    } else {
      var w1 := PassesEmpty(c, w, i);
      LeadsFine(c, w, w1, i);
      hide Fine, Found, Keeps;
      assert w1.cons[i].next == next by { KeepsNext(w, w1, i); }
      w' := LookFinds(c, w1, i);
      LeadsOn(c, w, w1, w', Cons(i));
      FoundOn(c, w, w1, w', i, pc.site, next, pc.k);
    }
  }

  lemma KeepsNext(w: World, w': World, i: nat)
    requires Keeps(w, w', i)
    ensures w'.cons[i].next == w.cons[i].next
  {
  }

  // ------------------------------------------------------------ what there is to find

  // Consumer i's pop has returned the oldest event of the first of its rings, in
  // the round from next, that has one.
  ghost predicate TookFirst(c: Config, w: World, w': World, i: nat) {
    && i < |w.cons| && i < |w'.cons|
    && var p := Facing(c, i, w.cons[i].next, FirstTurn(c, w, i, w.cons[i].next, 0));
       p < |w.rings| && w'.cons[i].pc == Idle(Got(p, Oldest(w, p))) && Shorter(w, w', p)
  }

  ghost predicate AnyHas(c: Config, w: World, i: nat) { i < |w.cons| && FirstTurn(c, w, i, w.cons[i].next, 0) < c.owned }

  /** Alone, try_pop takes from the first of its rings in turn that has an event, and says empty only if none has. */
  lemma LoneTryPop(c: Config, w: World, i: nat) returns (w': World)
    requires Fine(c, w, Cons(i)) && w.cons[i].pc == Try(Once, 0)
    ensures Leads(c, w, w', Cons(i)) && i < |w'.cons|
    ensures if AnyHas(c, w, i) then TookFirst(c, w, w', i) else w'.cons[i].pc == Idle(Empty) && Keeps(w, w', i)
  {
    hide Leads, Facing, FirstTurn;
    w' := LookFinds(c, w, i);
    if !AnyHas(c, w, i) {
      var w1 := w';
      LeadsFine(c, w, w1, i);
      OnwardOff(c, w1, i);
      LeadsOne(c, w1, Cons(i));
      w' := Onward(c, w1, Cons(i));
      hide Onward, Fine;
      LeadsOn(c, w, w1, w', Cons(i));
    }
  }

  /** Alone, pop takes from the first of its rings in turn that has an event. */
  lemma LonePopTakes(c: Config, w: World, i: nat) returns (w': World)
    requires Fine(c, w, Cons(i)) && w.cons[i].pc == Try(Within, 0) && AnyHas(c, w, i)
    ensures Leads(c, w, w', Cons(i)) && TookFirst(c, w, w', i)
  {
    hide Leads, Facing, FirstTurn;
    w' := LookFinds(c, w, i);
  }

  // Woken, and the epoch has moved past its key.
  predicate Notified(w: World, i: nat) {
    i < |w.cons| && i < |w.waits| && w.cons[i].pc.Blocked? && !w.waits[i].asleep && w.waits[i].epoch != w.cons[i].pc.key
  }

  // One step of a consumer that leaves wait.
  predicate Leaving(w: World, i: nat) {
    && i < |w.cons| && i < |w.waits|
    && (Notified(w, i) || (w.cons[i].pc.Test? && w.waits[i].epoch != w.cons[i].pc.key) || w.cons[i].pc.Delist? || w.cons[i].pc.Absorb?)
  }

  lemma LeaveStep(c: Config, w: World, i: nat) returns (w': World)
    requires Fine(c, w, Cons(i)) && Leaving(w, i)
    ensures Leads(c, w, w', Cons(i)) && Keeps(w, w', i)
    ensures if w.cons[i].pc.Absorb? then w'.cons[i].pc == Try(Within, 0)
            else Leaving(w', i) && w'.cons[i].pc == (if w.cons[i].pc.Blocked? then Test(w.cons[i].pc.key) else if w.cons[i].pc.Test? then Delist else Absorb)
  {
    hide Leads;
    OnwardOff(c, w, i);
    LeadsOne(c, w, Cons(i));
    w' := Onward(c, w, Cons(i));
  }

  /** Alone, a notified consumer wakes and takes from the first of its rings in turn that has an event. */
  lemma LoneWakeTakes(c: Config, w: World, i: nat) returns (w': World)
    requires Fine(c, w, Cons(i)) && Notified(w, i) && AnyHas(c, w, i)
    ensures Leads(c, w, w', Cons(i)) && TookFirst(c, w, w', i)
  {
    hide Leads, Fine, Leaving, Keeps;
    assert Leaving(w, i) by { NotifiedLeaves(w, i); }
    var w1 := LeaveStep(c, w, i);
    LeadsFine(c, w, w1, i);
    var w2 := LeaveStep(c, w1, i);
    LeadsFine(c, w1, w2, i);
    LeadsOn(c, w, w1, w2, Cons(i));
    var w3 := LeaveStep(c, w2, i);
    LeadsFine(c, w2, w3, i);
    LeadsOn(c, w, w2, w3, Cons(i));
    var w4 := LeaveStep(c, w3, i);
    LeadsFine(c, w3, w4, i);
    LeadsOn(c, w, w3, w4, Cons(i));
    KeepsTwice(w, w1, w2, i);
    KeepsTwice(w, w2, w3, i);
    KeepsTwice(w, w3, w4, i);
    KeepsFirst(c, w, w4, i);
    w' := LonePopTakes(c, w4, i);
    LeadsOn(c, w, w4, w', Cons(i));
    TookFromSame(c, w, w4, w', i);
  }

  lemma NotifiedLeaves(w: World, i: nat)
    requires Notified(w, i)
    ensures Leaving(w, i)
  {
  }

  lemma KeepsTwice(w: World, w1: World, w2: World, i: nat)
    requires Keeps(w, w1, i) && Keeps(w1, w2, i)
    ensures Keeps(w, w2, i)
  {
    forall p | 0 <= p < |w.rings| ensures Same(w.rings[p], w2.rings[p]) { assert Same(w.rings[p], w1.rings[p]) && Same(w1.rings[p], w2.rings[p]); }
  }

  lemma KeepsFirst(c: Config, w: World, w': World, i: nat)
    requires Keeps(w, w', i)
    ensures AnyHas(c, w', i) <==> AnyHas(c, w, i)
  {
    FirstSame(c, w, w', i, w.cons[i].next, 0);
  }

  lemma TookFromSame(c: Config, w: World, w1: World, w': World, i: nat)
    requires Keeps(w, w1, i) && TookFirst(c, w1, w', i)
    ensures TookFirst(c, w, w', i)
  {
    FirstSame(c, w, w1, i, w.cons[i].next, 0);
    hide FirstTurn, Facing;
    var p := Facing(c, i, w.cons[i].next, FirstTurn(c, w, i, w.cons[i].next, 0));
    assert Same(w.rings[p], w1.rings[p]);
  }

  // ------------------------------------------------------------ closed and empty

  // Each of consumer i's rings is closed and empty.
  ghost predicate AllFinished(c: Config, w: World, i: nat) {
    forall k | 0 <= k < c.owned :: RingOf(c, i, k) < |w.rings| && Finished(w.rings[RingOf(c, i, k)])
  }

  lemma FinishedHasNone(c: Config, w: World, i: nat, next: nat, q: nat)
    requires next < c.owned && q < c.owned && AllFinished(c, w, i)
    ensures !Has(w, Facing(c, i, next, q))
  {
    assert Turn(c, next, q) < c.owned;
  }

  lemma NoneHas(c: Config, w: World, i: nat, next: nat)
    requires next < c.owned && AllFinished(c, w, i)
    ensures FirstTurn(c, w, i, next, 0) == c.owned
  {
    FirstAtMost(c, w, i, next, 0);
    forall q | 0 <= q < c.owned ensures !Has(w, Facing(c, i, next, q)) { FinishedHasNone(c, w, i, next, q); }
    hide AllFinished, Has, Facing;
  }

  lemma {:induction false} FirstAtMost(c: Config, w: World, i: nat, next: nat, k: nat)
    requires k <= c.owned
    ensures FirstTurn(c, w, i, next, k) <= c.owned
    decreases c.owned - k
  {
    if k < c.owned { FirstAtMost(c, w, i, next, k + 1); }
  }

  lemma KeepsFinished(c: Config, w: World, w': World, i: nat)
    requires Keeps(w, w', i) && AllFinished(c, w, i)
    ensures AllFinished(c, w', i)
  {
    forall k | 0 <= k < c.owned ensures RingOf(c, i, k) < |w'.rings| && Finished(w'.rings[RingOf(c, i, k)]) {
      assert Same(w.rings[RingOf(c, i, k)], w'.rings[RingOf(c, i, k)]);
    }
  }

  // One of pop's two looks finds nothing.
  lemma LookPasses(c: Config, w: World, i: nat) returns (w': World)
    requires Fine(c, w, Cons(i)) && (w.cons[i].pc == Try(Within, 0) || w.cons[i].pc == Try(Second, 0)) && AllFinished(c, w, i)
    ensures Leads(c, w, w', Cons(i)) && AllFinished(c, w', i) && i < |w'.cons|
    ensures w'.cons[i].pc == if w.cons[i].pc.site.Within? then Try(Second, 0) else AnyClosed(Second, 0)
  {
    hide Leads, Facing, FirstTurn, AllFinished;
    FacingRing(c, w, i, 0);
    NoneHas(c, w, i, w.cons[i].next);
    var w1 := LookFinds(c, w, i);
    LeadsFine(c, w, w1, i);
    KeepsFinished(c, w, w1, i);
    OnwardOff(c, w1, i);
    LeadsOne(c, w1, Cons(i));
    w' := Onward(c, w1, Cons(i));
    KeepsFinished(c, w1, w', i);
    hide Onward, Fine;
    LeadsOn(c, w, w1, w', Cons(i));
  }

  lemma OwnRing(c: Config, w: World, i: nat, k: nat)
    requires Fine(c, w, Cons(i)) && k < c.owned && AllFinished(c, w, i)
    ensures RingOf(c, i, k) < |w.rings| && Finished(w.rings[RingOf(c, i, k)])
  {
  }

  // The first ring it asks is closed.
  lemma FindsClosed(c: Config, w: World, i: nat) returns (w': World)
    requires Fine(c, w, Cons(i)) && w.cons[i].pc == AnyClosed(Second, 0) && AllFinished(c, w, i)
    ensures Leads(c, w, w', Cons(i)) && AllFinished(c, w', i) && i < |w'.cons| && w'.cons[i].pc == AllDone(0)
  {
    hide Leads, AllFinished;
    FacingRing(c, w, i, 0);
    OwnRing(c, w, i, 0);
    OnwardAt(c, w, i);
    LeadsOne(c, w, Cons(i));
    w' := Onward(c, w, Cons(i));
    KeepsFinished(c, w, w', i);
  }

  lemma DoneStep(c: Config, w: World, i: nat) returns (w': World)
    requires Fine(c, w, Cons(i)) && w.cons[i].pc.AllDone? && w.cons[i].pc.k <= c.owned && AllFinished(c, w, i)
    ensures Leads(c, w, w', Cons(i)) && AllFinished(c, w', i) && i < |w'.cons|
    ensures w'.cons[i].pc == if w.cons[i].pc.k == c.owned then Idle(Drained) else AllDone(w.cons[i].pc.k + 1)
  {
    hide Leads, AllFinished;
    var k := w.cons[i].pc.k;
    if k < c.owned {
      OwnRing(c, w, i, k);
      OnwardAt(c, w, i);
    } else {
      OnwardOff(c, w, i);
    }
    LeadsOne(c, w, Cons(i));
    w' := Onward(c, w, Cons(i));
    KeepsFinished(c, w, w', i);
  }

  lemma {:induction false} DoneDrains(c: Config, w: World, i: nat) returns (w': World)
    requires Fine(c, w, Cons(i)) && w.cons[i].pc.AllDone? && w.cons[i].pc.k <= c.owned && AllFinished(c, w, i)
    ensures Leads(c, w, w', Cons(i)) && i < |w'.cons| && w'.cons[i].pc == Idle(Drained)
    decreases c.owned - w.cons[i].pc.k
  {
    hide Leads, AllFinished;
    w' := DoneStep(c, w, i);
    if w.cons[i].pc.k < c.owned {
      var w1 := w';
      LeadsFine(c, w, w1, i);
      hide Fine;
      w' := DoneDrains(c, w1, i);
      LeadsOn(c, w, w1, w', Cons(i));
    }
  }

  /** Alone, pop answers drained once each of its rings is closed and empty. */
  lemma LonePopDrains(c: Config, w: World, i: nat) returns (w': World)
    requires Fine(c, w, Cons(i)) && w.cons[i].pc == Try(Within, 0) && AllFinished(c, w, i)
    ensures Leads(c, w, w', Cons(i)) && i < |w'.cons| && w'.cons[i].pc == Idle(Drained)
  {
    hide Leads, Fine, AllFinished;
    var w1 := LookPasses(c, w, i);
    LeadsFine(c, w, w1, i);
    var w2 := LookPasses(c, w1, i);
    LeadsFine(c, w1, w2, i);
    LeadsOn(c, w, w1, w2, Cons(i));
    var w3 := FindsClosed(c, w2, i);
    LeadsFine(c, w2, w3, i);
    LeadsOn(c, w, w2, w3, Cons(i));
    w' := DoneDrains(c, w3, i);
    LeadsOn(c, w, w3, w', Cons(i));
  }

  // ------------------------------------------------------------ nothing yet

  // None of consumer i's rings is closed, and none has an event.
  ghost predicate AllIdle(c: Config, w: World, i: nat) {
    forall k | 0 <= k < c.owned :: RingOf(c, i, k) < |w.rings| && !w.rings[RingOf(c, i, k)].closed && !Has(w, RingOf(c, i, k))
  }

  lemma IdleHasNone(c: Config, w: World, i: nat, next: nat, q: nat)
    requires next < c.owned && q < c.owned && AllIdle(c, w, i)
    ensures !Has(w, Facing(c, i, next, q))
  {
    assert Turn(c, next, q) < c.owned;
  }

  lemma NoneIdle(c: Config, w: World, i: nat, next: nat)
    requires next < c.owned && AllIdle(c, w, i)
    ensures FirstTurn(c, w, i, next, 0) == c.owned
  {
    FirstAtMost(c, w, i, next, 0);
    forall q | 0 <= q < c.owned ensures !Has(w, Facing(c, i, next, q)) { IdleHasNone(c, w, i, next, q); }
    hide AllIdle, Has, Facing;
  }

  lemma KeepsIdle(c: Config, w: World, w': World, i: nat)
    requires Keeps(w, w', i) && AllIdle(c, w, i)
    ensures AllIdle(c, w', i)
  {
    forall k | 0 <= k < c.owned
      ensures RingOf(c, i, k) < |w'.rings| && !w'.rings[RingOf(c, i, k)].closed && !Has(w', RingOf(c, i, k))
    {
      assert Same(w.rings[RingOf(c, i, k)], w'.rings[RingOf(c, i, k)]);
    }
  }

  // Where a look that finds nothing goes.
  function Beyond(site: Site): Cpc { if site.Once? then Idle(Empty) else if site.Within? then Try(Second, 0) else AnyClosed(site, 0) }

  lemma LookIdles(c: Config, w: World, i: nat) returns (w': World)
    requires Fine(c, w, Cons(i)) && w.cons[i].pc.Try? && w.cons[i].pc.k == 0 && AllIdle(c, w, i)
    ensures Leads(c, w, w', Cons(i)) && AllIdle(c, w', i) && i < |w.cons| && i < |w'.cons| && w'.waits == w.waits
    ensures w'.cons[i].pc == Beyond(w.cons[i].pc.site)
  {
    hide Leads, Facing, FirstTurn, AllIdle;
    FacingRing(c, w, i, 0);
    NoneIdle(c, w, i, w.cons[i].next);
    var w1 := LookFinds(c, w, i);
    LeadsFine(c, w, w1, i);
    KeepsIdle(c, w, w1, i);
    OnwardOff(c, w1, i);
    LeadsOne(c, w1, Cons(i));
    w' := Onward(c, w1, Cons(i));
    KeepsIdle(c, w1, w', i);
    hide Onward, Fine;
    LeadsOn(c, w, w1, w', Cons(i));
  }

  lemma OpenRing(c: Config, w: World, i: nat, k: nat)
    requires Fine(c, w, Cons(i)) && k < c.owned && AllIdle(c, w, i)
    ensures RingOf(c, i, k) < |w.rings| && !w.rings[RingOf(c, i, k)].closed
  {
  }

  // Where it goes that has asked all of its rings and found none closed.
  function Unclosed(site: Site): Cpc { if site.Recheck? then Decide(site.key) else LoadKey }

  lemma AskStep(c: Config, w: World, i: nat) returns (w': World)
    requires Fine(c, w, Cons(i)) && w.cons[i].pc.AnyClosed? && w.cons[i].pc.k <= c.owned && AllIdle(c, w, i)
    ensures Leads(c, w, w', Cons(i)) && AllIdle(c, w', i) && i < |w.cons| && i < |w'.cons| && w'.waits == w.waits
    ensures var pc := w.cons[i].pc; w'.cons[i].pc == if pc.k == c.owned then Unclosed(pc.site) else AnyClosed(pc.site, pc.k + 1)
  {
    hide Leads, AllIdle;
    var k := w.cons[i].pc.k;
    if k < c.owned {
      OpenRing(c, w, i, k);
      OnwardAt(c, w, i);
    } else {
      OnwardOff(c, w, i);
    }
    LeadsOne(c, w, Cons(i));
    w' := Onward(c, w, Cons(i));
    KeepsIdle(c, w, w', i);
  }

  lemma {:induction false} AsksAll(c: Config, w: World, i: nat) returns (w': World)
    requires Fine(c, w, Cons(i)) && w.cons[i].pc.AnyClosed? && w.cons[i].pc.k <= c.owned && AllIdle(c, w, i)
    ensures Leads(c, w, w', Cons(i)) && AllIdle(c, w', i) && i < |w.cons| && i < |w'.cons| && w'.waits == w.waits
    ensures w'.cons[i].pc == Unclosed(w.cons[i].pc.site)
    decreases c.owned - w.cons[i].pc.k
  {
    hide Leads, AllIdle;
    w' := AskStep(c, w, i);
    if w.cons[i].pc.k < c.owned {
      var w1 := w';
      LeadsFine(c, w, w1, i);
      hide Fine;
      w' := AsksAll(c, w1, i);
      LeadsOn(c, w, w1, w', Cons(i));
    }
  }

  // A step on the event count.
  lemma CountStep(c: Config, w: World, i: nat) returns (w': World)
    requires Fine(c, w, Cons(i)) && !Looks(w.cons[i].pc) && AllIdle(c, w, i)
    ensures Leads(c, w, w', Cons(i)) && AllIdle(c, w', i) && i < |w.cons| && i < |w'.cons| && i < |w.waits| == |w'.waits|
    ensures w'.cons[i].pc == WaitPc(w.cons[i].pc, w.waits[i], Proceed) && w'.waits[i] == Attend(w.cons[i].pc, w.waits[i], Proceed)
  {
    hide Leads, AllIdle, WaitPc, Attend;
    OnwardOff(c, w, i);
    LeadsOne(c, w, Cons(i));
    w' := Onward(c, w, Cons(i));
    KeepsIdle(c, w, w', i);
  }

  // Announced: its last look begins.
  lemma Prepares(c: Config, w: World, i: nat) returns (w': World)
    requires Fine(c, w, Cons(i)) && w.cons[i].pc.LoadKey? && AllIdle(c, w, i)
    ensures Leads(c, w, w', Cons(i)) && AllIdle(c, w', i) && i < |w'.cons| && i < |w.waits| == |w'.waits|
    ensures var e := w.waits[i]; w'.cons[i].pc == Try(Recheck(e.epoch), 0) && w'.waits[i] == e.(waiters := e.waiters + 1, pending := false)
  {
    hide Leads, AllIdle;
    var w1 := CountStep(c, w, i);
    LeadsFine(c, w, w1, i);
    var w2 := CountStep(c, w1, i);
    LeadsFine(c, w1, w2, i);
    LeadsOn(c, w, w1, w2, Cons(i));
    w' := CountStep(c, w2, i);
    hide Fine;
    LeadsOn(c, w, w2, w', Cons(i));
  }

  // From the decision to the sleep.
  lemma Parks(c: Config, w: World, i: nat) returns (w': World)
    requires Fine(c, w, Cons(i)) && i < |w.waits| && w.cons[i].pc == Decide(w.waits[i].epoch) && AllIdle(c, w, i)
    ensures Leads(c, w, w', Cons(i)) && AllIdle(c, w', i) && i < |w'.cons| && i < |w'.waits|
    ensures w'.cons[i].pc == Blocked(w.waits[i].epoch) && w'.waits[i] == w.waits[i].(asleep := true)
  {
    hide Leads, AllIdle;
    var w1 := CountStep(c, w, i);
    LeadsFine(c, w, w1, i);
    var w2 := CountStep(c, w1, i);
    LeadsFine(c, w1, w2, i);
    LeadsOn(c, w, w1, w2, Cons(i));
    w' := CountStep(c, w2, i);
    hide Fine;
    LeadsOn(c, w, w2, w', Cons(i));
  }

  // Both looks, and the question whether a ring is closed.
  lemma Unready(c: Config, w: World, i: nat) returns (w': World)
    requires Fine(c, w, Cons(i)) && w.cons[i].pc == Try(Within, 0) && AllIdle(c, w, i)
    ensures Leads(c, w, w', Cons(i)) && AllIdle(c, w', i) && i < |w'.cons| && w'.cons[i].pc == LoadKey && w'.waits == w.waits
  {
    hide Leads, Fine, AllIdle;
    var w1 := LookIdles(c, w, i);
    LeadsFine(c, w, w1, i);
    var w2 := LookIdles(c, w1, i);
    LeadsFine(c, w1, w2, i);
    LeadsOn(c, w, w1, w2, Cons(i));
    w' := AsksAll(c, w2, i);
    LeadsOn(c, w, w2, w', Cons(i));
  }

  /** Alone, pop goes to sleep, counted, if none of its rings is closed or has an event. */
  lemma LonePopSleeps(c: Config, w: World, i: nat) returns (w': World)
    requires Fine(c, w, Cons(i)) && w.cons[i].pc == Try(Within, 0) && AllIdle(c, w, i)
    ensures Leads(c, w, w', Cons(i)) && i < |w'.cons| && i < |w.waits| && i < |w'.waits|
    ensures var e := w.waits[i];
      w'.cons[i].pc == Blocked(e.epoch) && w'.waits[i] == e.(waiters := e.waiters + 1, pending := false, asleep := true)
  {
    hide Leads, Fine, AllIdle;
    var w1 := Unready(c, w, i);
    LeadsFine(c, w, w1, i);
    var w2 := Prepares(c, w1, i);
    LeadsFine(c, w1, w2, i);
    LeadsOn(c, w, w1, w2, Cons(i));
    var w3 := LookIdles(c, w2, i);
    LeadsFine(c, w2, w3, i);
    LeadsOn(c, w, w2, w3, Cons(i));
    var w4 := AsksAll(c, w3, i);
    LeadsFine(c, w3, w4, i);
    LeadsOn(c, w, w3, w4, Cons(i));
    w' := Parks(c, w4, i);
    LeadsOn(c, w, w4, w', Cons(i));
  }

  // A step of consumer i when its deadline has passed.
  ghost function Late(c: Config, w: World, i: nat): (w': World)
    requires Fine(c, w, Cons(i))
    ensures Fine(c, w', Cons(i))
  {
    StepInv(c, w, Cons(i), Expire);
    Step(c, w, Cons(i), Expire)
  }

  /** A pop that finds its deadline passed takes itself off the count and says so. */
  lemma LateGivesUp(c: Config, w: World, i: nat) returns (w': World)
    requires Fine(c, w, Cons(i)) && w.cons[i].pc.Decide?
    ensures Leads(c, Late(c, w, i), w', Cons(i)) && i < |w'.cons| && w'.cons[i].pc == Idle(TimedOut)
    ensures i < |w.waits| && i < |w'.waits| && w'.waits[i] == w.waits[i].(waiters := Less(w.waits[i].waiters)) && w'.rings == w.rings
  {
    assert |w.waits| == |w.cons|;
    var w1 := Late(c, w, i);
    assert i < |w1.cons| && w1.cons[i].pc == Cancel(false, TimedOut) && w1.waits[i] == w.waits[i] && w1.rings == w.rings;
    hide Inv, Leads, Late;
    OnwardOff(c, w1, i);
    LeadsOne(c, w1, Cons(i));
    w' := Onward(c, w1, Cons(i));
  }

  // ------------------------------------------------------------ pushes

  // A step of producer p.
  lemma PushOnward(c: Config, w: World, p: nat)
    requires Fine(c, w, Prod(p))
    ensures Sane(c)
    ensures p < |w.prods| && p < |w.rings| && OwnerOf(c, p) < |w.waits|
    ensures var w', a, r, o := Onward(c, w, Prod(p)), w.prods[p], w.rings[p], OwnerOf(c, p);
      && w'.rings == w.rings[p := Produce(c, a.pc, r)] && p < |w'.prods| && p < |w'.rings| && |w'.waits| == |w.waits|
      && w'.prods[p].pc == ProducerPc(c, a.pc, r, w.waits[o], Proceed) && w'.waits[o] == Notify(a.pc, w.waits[o])
      && ProducerOk(c, w'.prods[p], w'.rings[p])
  {
    assert Sane(c) && |w.waits| == c.cons;
    SlotBelow(c.cons, p);
    assert ProducerOk(c, Onward(c, w, Prod(p)).prods[p], Onward(c, w, Prod(p)).rings[p]);
    hide Inv, ProducerPc, Produce, Notify;
  }

  // Producer p's push has published v.
  predicate Pushed(w: World, w': World, p: nat, v: Value) {
    && p < |w.rings| == |w'.rings| && p < |w'.prods| && w'.prods[p].pc == Free(Ok)
    && w'.rings == w.rings[p := w'.rings[p]]
    && w'.rings[p].log == w.rings[p].log + [v] && w'.rings[p].tail == w.rings[p].tail + 1 && w'.rings[p].head == w.rings[p].head
  }

  predicate IsFull(c: Config, r: Ring) { r.tail == r.head + c.ring }

  // The consumer has been woken, unless nobody waits or a wake is on its way.
  predicate Roused(e: Wait, e': Wait) {
    e' == if e.waiters == 0 || e.pending then e else e.(pending := true, epoch := e.epoch + 1, asleep := false)
  }

  /** Alone, try_push answers closed on a closed ring and full on a full one. */
  lemma LoneRefusal(c: Config, w: World, p: nat, v: Value) returns (w': World)
    requires Fine(c, w, Prod(p)) && w.prods[p].pc == Load(v) && (w.rings[p].closed || IsFull(c, w.rings[p]))
    ensures Leads(c, w, w', Prod(p)) && p < |w.rings| && p < |w'.rings| && p < |w'.prods|
    ensures w'.prods[p].pc == (if w.rings[p].closed then Free(Closed) else Free(Full)) && Same(w.rings[p], w'.rings[p])
  {
    hide Leads;
    assert ProducerOk(c, w.prods[p], w.rings[p]) && RingOk(c, w.rings[p]);
    PushOnward(c, w, p);
    LeadsOne(c, w, Prod(p));
    w' := Onward(c, w, Prod(p));
    if !w.rings[p].closed {
      var w1 := w';
      PushOnward(c, w1, p);
      LeadsOne(c, w1, Prod(p));
      w' := Onward(c, w1, Prod(p));
      hide Onward, Fine;
      LeadsOn(c, w, w1, w', Prod(p));
    }
  }

  // Up to the swap of the tail word.
  lemma PushPublishes(c: Config, w: World, p: nat, v: Value) returns (w': World)
    requires Fine(c, w, Prod(p)) && w.prods[p].pc == Load(v) && !w.rings[p].closed && !IsFull(c, w.rings[p])
    ensures Leads(c, w, w', Prod(p)) && p < |w.rings| == |w'.rings| && p < |w'.prods| && w'.prods[p].pc == LoadWaiters
    ensures Same(w.rings[p].(tail := w.rings[p].tail + 1, log := w.rings[p].log + [v]), w'.rings[p]) && w'.rings == w.rings[p := w'.rings[p]]
    ensures Sane(c) && OwnerOf(c, p) < |w.waits| && OwnerOf(c, p) < |w'.waits| && w'.waits[OwnerOf(c, p)] == w.waits[OwnerOf(c, p)]
  {
    hide Leads, PushOk;
    assert RingOk(c, w.rings[p]);
    hide Inv;
    PushOnward(c, w, p);
    LeadsOne(c, w, Prod(p));
    var w1 := Onward(c, w, Prod(p));
    PushOnward(c, w1, p);
    LeadsOne(c, w1, Prod(p));
    var w2 := Onward(c, w1, Prod(p));
    PushOnward(c, w2, p);
    LeadsOne(c, w2, Prod(p));
    var w3 := Onward(c, w2, Prod(p));
    PushOnward(c, w3, p);
    LeadsOne(c, w3, Prod(p));
    w' := Onward(c, w3, Prod(p));
    hide Onward, Fine;
    LeadsOn(c, w, w1, w2, Prod(p));
    LeadsOn(c, w, w2, w3, Prod(p));
    LeadsOn(c, w, w3, w', Prod(p));
  }

  // One step of the notification.
  lemma RouseStep(c: Config, w: World, p: nat) returns (w': World)
    requires Fine(c, w, Prod(p)) && var pc := w.prods[p].pc; pc.LoadWaiters? || pc.LoadPending? || pc.SwapPending? || pc.Advance? || pc.WakeOne?
    ensures Leads(c, w, w', Prod(p)) && p < |w'.prods| && p < |w.rings| && w'.rings == w.rings && Fine(c, w', Prod(p))
    ensures Sane(c) && OwnerOf(c, p) < |w.waits| && OwnerOf(c, p) < |w'.waits|
    ensures var e := w.waits[OwnerOf(c, p)];
      w'.prods[p].pc == ProducerPc(c, w.prods[p].pc, w.rings[p], e, Proceed) && w'.waits[OwnerOf(c, p)] == Notify(w.prods[p].pc, e)
  {
    hide Leads;
    PushOnward(c, w, p);
    LeadsOne(c, w, Prod(p));
    w' := Onward(c, w, Prod(p));
  }

  lemma PushRouses(c: Config, w: World, p: nat) returns (w': World)
    requires Fine(c, w, Prod(p)) && w.prods[p].pc.LoadWaiters?
    ensures Leads(c, w, w', Prod(p)) && p < |w'.prods| && w'.prods[p].pc == Free(Ok) && w'.rings == w.rings
    ensures Sane(c) && OwnerOf(c, p) < |w.waits| && OwnerOf(c, p) < |w'.waits| && Roused(w.waits[OwnerOf(c, p)], w'.waits[OwnerOf(c, p)])
  {
    hide Leads, Fine;
    w' := RouseStep(c, w, p);
    if w.waits[OwnerOf(c, p)].waiters > 0 {
      var w1 := w';
      w' := RouseStep(c, w1, p);
      LeadsOn(c, w, w1, w', Prod(p));
      if !w.waits[OwnerOf(c, p)].pending {
        var w2 := w';
        var w3 := RouseStep(c, w2, p);
        var w4 := RouseStep(c, w3, p);
        w' := RouseStep(c, w4, p);
        LeadsOn(c, w, w2, w3, Prod(p));
        LeadsOn(c, w, w3, w4, Prod(p));
        LeadsOn(c, w, w4, w', Prod(p));
      }
    }
  }

  /** Alone, try_push on an open ring with room publishes its value, wakes the ring's consumer if it waits and no wake is on its way, and says ok. */
  lemma LonePush(c: Config, w: World, p: nat, v: Value) returns (w': World)
    requires Fine(c, w, Prod(p)) && w.prods[p].pc == Load(v) && !w.rings[p].closed && !IsFull(c, w.rings[p])
    ensures Leads(c, w, w', Prod(p)) && Pushed(w, w', p, v)
    ensures Sane(c) && OwnerOf(c, p) < |w.waits| && OwnerOf(c, p) < |w'.waits| && Roused(w.waits[OwnerOf(c, p)], w'.waits[OwnerOf(c, p)])
  {
    hide Leads, Roused;
    var w1 := PushPublishes(c, w, p, v);
    assert Fine(c, w1, Prod(p)) by { LeadsKeeps(c, w, w1, Prod(p)); }
    hide Fine;
    w' := PushRouses(c, w1, p);
    LeadsOn(c, w, w1, w', Prod(p));
  }

  lemma LeadsKeeps(c: Config, w: World, w': World, a: Actor)
    requires Leads(c, w, w', a)
    ensures Fine(c, w', a)
  {
  }
}

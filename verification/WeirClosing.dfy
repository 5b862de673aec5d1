/** The closing loops end. */
module WeirClosing {
  import opened Streams
  import opened Weir
  import opened WeirInvariant
  import opened WeirSafety
  import opened WeirTheorems

  // ------------------------------------------------------------ the closing loops end

  function Lefts(slots: seq<Slot>): seq<nat> {
    seq(|slots|, (i: nat) requires i < |slots| => if slots[i].head <= slots[i].tail then slots[i].tail - slots[i].head else 0)
  }

  /** Events in the rings. */
  function Backlog(w: World): nat { Sum(Lefts(w.slots)) }

  // Lexicographic: the phase of the shutdown, the work left in it, the slots left in the pass, the place within a slot.
  datatype Rank = Rank(phase: nat, work: nat, todo: nat, place: nat)

  predicate Less(a: Rank, b: Rank) {
    || a.phase < b.phase
    || (a.phase == b.phase && (a.work < b.work || (a.work == b.work && (a.todo < b.todo || (a.todo == b.todo && a.place < b.place)))))
  }

  function Phase(pc: Cpc): nat {
    if Sweeping(pc) then (if pc.why.pass == 0 then 4 else 3)
    else if pc.LastFlush? then 2
    else if pc.Done? then 0
    else 1
  }

  // A pass that has taken something owes one more.
  function Owed(pc: Cpc): nat {
    if !Sweeping(pc) then 0
    else if (match pc case PopHead(_, _, _, total, got, _) => total + got case _ => Tally(pc)) > 0 then 1
    else 0
  }

  function Todo(pc: Cpc, n: nat): nat {
    if Sweeping(pc) && !pc.Flush? then |pc.todo|
    else if Reclaims(pc) && pc.i <= n then n - pc.i
    else 0
  }

  function Spot(c: Config, pc: Cpc): nat {
    match pc
    case Scan(_, _, _, _) => c.batch + 4
    case Room(_, _, _, _, _) => c.batch + 3
    case PopTail(_, _, _, _, _) => c.batch + 2
    case PopCopy(_, _, _, _, _, n, batch) => if |batch| < n then n - |batch| + 1 else 1
    case PopHead(_, _, _, _, _, _) => 1
    case RecState(_, _) => 8
    case RecEmpty(_, _) => 7
    case RecPushed(_, _) => 6
    case RecAddPushed(_, _, _) => 5
    case RecDropped(_, _) => 4
    case RecAddDropped(_, _, _) => 3
    case RecClear(_, _) => 2
    case RecFree(_, _) => 1
    case _ => 0
  }

  function RankOf(c: Config, w: World): Rank {
    Rank(Phase(w.cpc), if Sweeping(w.cpc) then 2 * Backlog(w) + Owed(w.cpc) else 0, Todo(w.cpc, c.n), Spot(c, w.cpc))
  }

  lemma LeftsUpdate(slots: seq<Slot>, i: nat, s: Slot)
    requires i < |slots| && slots[i].head <= slots[i].tail && s.head <= s.tail
    ensures Sum(Lefts(slots[i := s])) + slots[i].tail - slots[i].head == Sum(Lefts(slots)) + s.tail - s.head
  {
    assert Lefts(slots[i := s]) == Lefts(slots)[i := s.tail - s.head];
    SumUpdate(Lefts(slots), i, s.tail - s.head);
  }

  // The consumer's step takes from the rings what it copies.
  lemma BacklogStep(c: Config, w: World, k: Choice)
    requires Base(c, w)
    ensures Backlog(ConsumerStep(c, w, k)) + (if w.cpc.PopHead? then |w.cpc.batch| else 0) == Backlog(w)
  {
    hide ConsumerPc, ThreadOk, Owned;
    var i := At(c.n, w.cpc);
    if i < |w.slots| {
      assert SlotOk(c, w.slots[i]);
      ConsumeFrame(c, w.cpc, w.slots[i]);
      LeftsUpdate(w.slots, i, Consume(w.cpc, w.slots[i]));
      HeadMoves(w.cpc, w.slots[i]);
    }
  }

  lemma SweepShrinks(c: Config, pc: Cpc, s: Slot, staged: nat, r: nat, left: nat, left': nat)
    requires Sane(c) && Ranged(c.n, pc) && Sweeping(pc) && (pc.PopHead? ==> pc.batch != []) && (pc.Flush? ==> pc.total > 0)
    requires RoomOk(c, pc, staged) && (pc.PopCopy? ==> |pc.batch| < pc.n)
    requires left' + (if pc.PopHead? then |pc.batch| else 0) == left
    ensures var pc' := DrainPc(c, pc, s, staged, r);
      Less(Rank(Phase(pc'), if Sweeping(pc') then 2 * left' + Owed(pc') else 0, Todo(pc', c.n), Spot(c, pc')),
           Rank(Phase(pc), 2 * left + Owed(pc), Todo(pc, c.n), Spot(c, pc)))
  {
  }

  lemma SweptShrinks(c: Config, w: World, s: Slot, k: Choice)
    requires Ranged(c.n, w.cpc) && Swept(w.cpc) && !w.cpc.Done?
    ensures var pc' := ConsumerPc(c, w, s, k);
      && Swept(pc')
      && Less(Rank(Phase(pc'), 0, Todo(pc', c.n), Spot(c, pc')), Rank(Phase(w.cpc), 0, Todo(w.cpc, c.n), Spot(c, w.cpc)))
  {
  }

  /** Every step of the closing consumer brings it nearer the end. */
  lemma ClosingStepShrinks(c: Config, w: World, k: Choice)
    requires Base(c, w) && PassOk(w) && Closing(w.cpc) && !w.cpc.Done?
    ensures Closing(ConsumerStep(c, w, k).cpc) && Less(RankOf(c, ConsumerStep(c, w, k)), RankOf(c, w))
  {
    var s := Target(c, w);
    if Sweeping(w.cpc) {
      BacklogStep(c, w, k);
      SweepShrinks(c, w.cpc, s, |w.staged|, w.rotate, Backlog(w), Backlog(ConsumerStep(c, w, k)));
      SweptStays(c, w.cpc, s, |w.staged|, w.rotate, 0);
    } else {
      SweptShrinks(c, w, s, k);
    }
  }

  // What happens to the indices of a slot when its producer steps.
  lemma IndicesAtSlot(c: Config, t: Tid, pc: Ppc, s: Slot)
    ensures var s' := Produce(t, pc, s); s'.head == s.head && (!pc.PushStore? ==> s'.tail == s.tail)
  {
  }

  /** No step of another delays it, except a publication. */
  lemma OthersDoNotDelay(c: Config, w: World, a: Actor, k: Choice)
    requires Base(c, w) && Acts(w, a) && !a.Consumer? && (a.Producer? ==> !w.threads[a.t].PushStore?)
    ensures RankOf(c, Step(c, w, a, k)) == RankOf(c, w)
  {
    var w' := Step(c, w, a, k);
    if a.Producer? {
      var pc := w.threads[a.t];
      if AtSlot(w, pc) { IndicesAtSlot(c, a.t, pc, w.slots[pc.i]); }
    }
    assert Lefts(w'.slots) == Lefts(w.slots);
  }

  // The consumer alone, m steps on.
  function Alone(c: Config, w: World, m: nat): World
    decreases m
  {
    if m == 0 then w else Alone(c, ConsumerStep(c, w, Proceed), m - 1)
  }

  lemma ClosingTick(c: Config, w: World)
    requires Inv(c, w) && Closing(w.cpc) && !w.cpc.Done?
    ensures var w' := ConsumerStep(c, w, Proceed); Inv(c, w') && Closing(w'.cpc) && Less(RankOf(c, w'), RankOf(c, w))
  {
    ClosingStepShrinks(c, w, Proceed);
    ConsumerInv(c, w, Proceed);
  }

  /** Left alone, the closing consumer finishes. */
  lemma {:induction false} ClosingEnds(c: Config, w: World) returns (m: nat)
    requires Inv(c, w) && Closing(w.cpc)
    ensures Alone(c, w, m).cpc.Done?
    decreases RankOf(c, w).phase, RankOf(c, w).work, RankOf(c, w).todo, RankOf(c, w).place
  {
    hide ConsumerStep, Inv, RankOf, Closing;
    if w.cpc.Done? {
      m := 0;
    } else {
      ClosingTick(c, w);
      var l := ClosingEnds(c, ConsumerStep(c, w, Proceed));
      m := l + 1;
    }
  }
}

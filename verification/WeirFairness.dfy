/** The order of a pass, and how soon an event gets its turn. */
module WeirFairness {
  import opened Streams
  import opened Weir
  import opened WeirInvariant
  import opened WeirSafety
  import opened WeirTheorems

  // ------------------------------------------------------------ the order of a pass

  // How far slot i is from where the pass starts.
  function Distance(n: nat, rotate: nat, i: nat): int { if rotate <= i then i - rotate else i + n - rotate }

  predicate InTurn(s: seq<nat>, n: nat, rotate: nat) {
    forall a, b | 0 <= a < b < |s| :: Distance(n, rotate, s[a]) < Distance(n, rotate, s[b])
  }

  lemma {:induction false} AmongKeepsTurn(order: seq<nat>, m: set<nat>, n: nat, rotate: nat)
    requires InTurn(order, n, rotate)
    ensures InTurn(Among(order, m), n, rotate)
    ensures forall i :: i in Among(order, m) <==> i in order && i in m
  {
    if order != [] {
      var rest := Among(order[1..], m);
      assert InTurn(order[1..], n, rotate);
      AmongKeepsTurn(order[1..], m, n, rotate);
      forall b | 0 <= b < |rest| ensures Distance(n, rotate, order[0]) < Distance(n, rotate, rest[b]) {
        assert rest[b] in order[1..];
      }
    }
  }

  /** A pass visits each bit of its snapshot once, in turn from rotate, and no other slot. */
  lemma PassVisitsEachOnce(n: nat, rotate: nat, m: set<nat>)
    requires rotate < n && forall i | i in m :: i < n
    ensures var s := Among(Order(n, rotate), m);
      && InTurn(s, n, rotate)
      && (forall i :: i in s <==> i in m)
      && (forall a, b | 0 <= a < b < |s| :: s[a] != s[b])
  {
    AmongKeepsTurn(Order(n, rotate), m, n, rotate);
    forall i | i in m ensures i in Order(n, rotate) { OrderCovers(n, rotate, i); }
  }

  // ------------------------------------------------------------ one visit

  predicate InRing(pc: Cpc) { pc.Room? || pc.PopTail? || pc.PopCopy? || pc.PopHead? }

  predicate Visiting(pc: Cpc, i: nat) { InRing(pc) && pc.todo != [] && pc.todo[0] == i }

  function Got(pc: Cpc): nat
    requires InRing(pc)
  {
    match pc
    case Room(_, _, _, _, got) => got
    case PopTail(_, _, _, _, got) => got
    case PopCopy(_, _, _, _, got, _, _) => got
    case PopHead(_, _, _, _, got, _) => got
  }

  // At run index x the consumer arrives at slot i.
  predicate Arrives(tr: seq<World>, x: nat, i: nat) {
    0 < x < |tr| && tr[x - 1].cpc.Scan? && Visiting(tr[x].cpc, i) && tr[x].cpc.Room? && tr[x].cpc.got == 0
  }

  /** From run index a to b the consumer visits slot i: it arrives at a, and has left by b. */
  ghost predicate Visit(tr: seq<World>, a: nat, b: nat, i: nat) {
    && Arrives(tr, a, i) && a < b < |tr|
    && (forall j | a <= j < b :: Visiting(tr[j].cpc, i))
    && tr[b].cpc.Scan?
  }

  // What one visit has taken so far; at its end, a full batch or all there was.
  ghost predicate Taking(c: Config, w: World, i: nat, h: nat, tail: nat) {
    && i < |w.slots| && tail <= w.slots[i].tail
    && (Visiting(w.cpc, i) ==> w.slots[i].head == h + Got(w.cpc))
    && (w.cpc.Scan? ==> w.slots[i].head >= h + c.batch || w.slots[i].head >= tail)
  }

  // Only the consumer moves the head.
  lemma ProducerTaking(c: Config, w: World, t: Tid, k: Choice, i: nat, h: nat, tail: nat)
    requires Fit(c, w, t) && Taking(c, w, i, h, tail)
    ensures Taking(c, ProducerStep(c, w, t, k), i, h, tail)
  {
    hide SlotOk, ThreadOk, ProducerPc;
    var pc := w.threads[t];
    if AtSlot(w, pc) && pc.i == i { ProducedLog(c, w, t); }
  }

  lemma ProducedLog(c: Config, w: World, t: Tid)
    requires Fit(c, w, t) && AtSlot(w, w.threads[t])
    ensures var s := w.slots[w.threads[t].i]; var s' := Produce(t, w.threads[t], s);
      s.log <= s'.log && s'.head == s.head
  {
    var pc := w.threads[t];
    ProduceFrame(c, t, pc, w.slots[pc.i]);
    LogGrows(c, t, w.slots[pc.i], Produce(t, pc, w.slots[pc.i]));
  }

  // One step of the drain loop on slot s.
  lemma DrainTakes(c: Config, pc: Cpc, s: Slot, staged: nat, r: nat, i: nat)
    requires Visiting(pc, i) && SlotOk(c, s)
    ensures var pc' := DrainPc(c, pc, s, staged, r);
      && (Visiting(pc', i) ==> Got(pc') == Got(pc) + (if pc.PopHead? then |pc.batch| else 0))
      && (pc'.Scan? ==> Got(pc) >= c.batch || (pc.PopTail? && s.head == s.tail))
  {
  }

  lemma ConsumerTaking(c: Config, w: World, k: Choice, i: nat, h: nat, tail: nat)
    requires Base(c, w) && Taking(c, w, i, h, tail) && Visiting(w.cpc, i)
    ensures Taking(c, ConsumerStep(c, w, k), i, h, tail)
  {
    BlankOk(c);
    DrainTakes(c, w.cpc, Target(c, w), |w.staged|, w.rotate, i);
    HeadMoves(w.cpc, w.slots[i]);
    hide DrainPc, SlotOk, ThreadOk, Owned;
  }

  lemma NextTaking(c: Config, w: World, w': World, i: nat, h: nat, tail: nat)
    requires Inv(c, w) && Next(c, w, w') && Taking(c, w, i, h, tail) && Visiting(w.cpc, i)
    ensures Taking(c, w', i, h, tail)
  {
    var a: Actor, k: Choice :| Acts(w, a) && w' == Step(c, w, a, k);
    match a
    case Producer(t) =>
      BaseFit(c, w, t);
      ProducerTaking(c, w, t, k, i, h, tail);
    case Consumer => ConsumerTaking(c, w, k, i, h, tail);
    case Stopper =>
  }

  lemma TakingAtStart(c: Config, w: World, i: nat)
    requires Inv(c, w) && Visiting(w.cpc, i) && w.cpc.Room? && w.cpc.got == 0
    ensures i < |w.slots| && Taking(c, w, i, w.slots[i].head, w.slots[i].tail)
  {
    hide EachSlot, EachVisible, SlotOk, ThreadOk, PassOk, ParkOk, StopOk, Conserved;
  }

  lemma {:induction false} RunTaking(c: Config, threads: nat, tr: seq<World>, a: nat, b: nat, i: nat, j: nat)
    requires Run(c, threads, tr) && Visit(tr, a, b, i) && a <= j <= b
    ensures i < |tr[a].slots| && Taking(c, tr[j], i, tr[a].slots[i].head, tr[a].slots[i].tail)
    decreases j
  {
    hide Inv, Taking, Next;
    RunInv(c, threads, tr, a);
    assert Visiting(tr[a].cpc, i);
    TakingAtStart(c, tr[a], i);
    if a < j {
      RunTaking(c, threads, tr, a, b, i, j - 1);
      RunInv(c, threads, tr, j - 1);
      assert NextAt(c, tr, j - 1) && Visiting(tr[j - 1].cpc, i);
      NextTaking(c, tr[j - 1], tr[j], i, tr[a].slots[i].head, tr[a].slots[i].tail);
    }
  }

  /** A visit takes a full batch, or everything that was in the ring when it began. */
  lemma VisitTakes(c: Config, threads: nat, tr: seq<World>, a: nat, b: nat, i: nat)
    requires Run(c, threads, tr) && Visit(tr, a, b, i)
    ensures i < |tr[a].slots| == |tr[b].slots|
    ensures var h, tail := tr[a].slots[i].head, tr[a].slots[i].tail; tr[b].slots[i].head >= h + c.batch || tr[b].slots[i].head >= tail
  {
    RunTaking(c, threads, tr, a, b, i, b);
    RunInv(c, threads, tr, a);
    RunInv(c, threads, tr, b);
  }

  // ------------------------------------------------------------ the visits of a pass

  predicate Distinct(s: seq<nat>) { forall a, b | 0 <= a < b < |s| :: s[a] != s[b] }

  /** A bitmap pass: it loads the word at run index a, and it is over at b. */
  ghost predicate Pass(tr: seq<World>, a: nat, b: nat) {
    && a + 1 < b < |tr| && tr[a].cpc.ScanActive?
    && (forall j | a < j < b :: Drains(tr[j].cpc)) && !Drains(tr[b].cpc)
  }

  // The pass goes over the bits of its snapshot, and over each at most once.
  predicate Going(pc: Cpc) { Drains(pc) && (!pc.Flush? ==> !pc.full && Distinct(pc.todo) && (InRing(pc) ==> pc.todo != [])) }

  // Slot i is still before it.
  predicate Waiting(pc: Cpc, i: nat) { Going(pc) && !pc.Flush? && i in pc.todo && !Visiting(pc, i) }

  predicate Gone(pc: Cpc, i: nat) { Going(pc) && (!pc.Flush? ==> i !in pc.todo) }

  lemma PassStarts(c: Config, w: World, k: Choice)
    requires c.n > 0 && w.rotate < c.n && w.cpc.ScanActive? && (forall i | i in w.active :: i < c.n)
    ensures var pc' := ConsumerStep(c, w, k).cpc; Going(pc') && pc'.Scan? && forall i :: i in pc'.todo <==> i in w.active
  {
    PassVisitsEachOnce(c.n, w.rotate, w.active);
    assert ConsumerStep(c, w, k).cpc == LoopPc(c, w, k);
    hide Among, Order, ConsumerStep;
  }

  // One step of the drain loop, for slot i.
  lemma PassSteps(c: Config, pc: Cpc, s: Slot, staged: nat, r: nat, i: nat)
    requires Going(pc)
    ensures var pc' := DrainPc(c, pc, s, staged, r); Drains(pc') && pc.why.Main? ==>
      && Going(pc') && pc'.why.Main?
      && (Waiting(pc, i) ==> Waiting(pc', i) || (pc.Scan? && pc'.Room? && pc'.got == 0 && Visiting(pc', i)))
      && (Visiting(pc, i) ==> Visiting(pc', i) || (pc'.Scan? && Gone(pc', i)))
      && (Gone(pc, i) ==> Gone(pc', i))
  {
    if !pc.Flush? && pc.todo != [] { TailOf(pc.todo, i); }
  }

  lemma TailOf(s: seq<nat>, i: nat)
    requires s != [] && Distinct(s)
    ensures Distinct(s[1..]) && (i in s && s[0] != i ==> i in s[1..]) && (s[0] == i || i !in s ==> i !in s[1..])
  {
  }

  lemma PassEnds(c: Config, pc: Cpc, s: Slot, staged: nat, r: nat)
    requires Going(pc) && !Drains(DrainPc(c, pc, s, staged, r))
    ensures pc.Flush? || pc.todo == []
  {
  }

  // How a step of the run moves the pass on.
  ghost predicate Moves(pc: Cpc, pc': Cpc, i: nat) {
    && Going(pc') && pc'.why.Main?
    && (Waiting(pc, i) ==> Waiting(pc', i) || (pc.Scan? && pc'.Room? && pc'.got == 0 && Visiting(pc', i)))
    && (Visiting(pc, i) ==> Visiting(pc', i) || (pc'.Scan? && Gone(pc', i)))
    && (Gone(pc, i) ==> Gone(pc', i))
  }

  lemma NextMoves(c: Config, w: World, w': World, i: nat)
    requires Next(c, w, w') && Going(w.cpc) && w.cpc.why.Main? && Drains(w'.cpc)
    ensures Moves(w.cpc, w'.cpc, i)
  {
    var a: Actor, k: Choice :| Acts(w, a) && w' == Step(c, w, a, k);
    if a.Consumer? { PassSteps(c, w.cpc, Target(c, w), |w.staged|, w.rotate, i); }
    else { OthersLeave(c, w, a, k); }
    hide DrainPc, Going, Waiting, Visiting, Gone;
  }

  lemma NextStarts(c: Config, w: World, w': World)
    requires Inv(c, w) && Next(c, w, w') && w.cpc.ScanActive? && !w'.cpc.ScanActive?
    ensures Going(w'.cpc) && w'.cpc.Scan? && w'.cpc.why.Main? && forall i :: i in w'.cpc.todo <==> i in w.active
  {
    var a: Actor, k: Choice :| Acts(w, a) && w' == Step(c, w, a, k);
    if a.Consumer? { PassStarts(c, w, k); } else { OthersLeave(c, w, a, k); }
  }

  lemma NextEnds(c: Config, w: World, w': World)
    requires Next(c, w, w') && Going(w.cpc) && !Drains(w'.cpc)
    ensures w.cpc.Flush? || w.cpc.todo == []
  {
    var a: Actor, k: Choice :| Acts(w, a) && w' == Step(c, w, a, k);
    if a.Consumer? { PassEnds(c, w.cpc, Target(c, w), |w.staged|, w.rotate); }
    else { OthersLeave(c, w, a, k); }
  }

  lemma {:induction false} StillGoing(c: Config, threads: nat, tr: seq<World>, a: nat, b: nat, j: nat)
    requires Run(c, threads, tr) && Pass(tr, a, b) && a < j < b
    ensures Going(tr[j].cpc) && tr[j].cpc.why.Main?
    decreases j
  {
    hide Inv, Next, Going;
    assert NextAt(c, tr, j - 1) && Drains(tr[j].cpc);
    if j == a + 1 {
      RunInv(c, threads, tr, a);
      NextStarts(c, tr[a], tr[j]);
    } else {
      StillGoing(c, threads, tr, a, b, j - 1);
      NextMoves(c, tr[j - 1], tr[j], 0);
    }
  }

  lemma RunMoves(c: Config, threads: nat, tr: seq<World>, a: nat, b: nat, j: nat, i: nat)
    requires Run(c, threads, tr) && Pass(tr, a, b) && a < j && j + 1 < b
    ensures Moves(tr[j].cpc, tr[j + 1].cpc, i)
  {
    hide Inv, Next, Going;
    StillGoing(c, threads, tr, a, b, j);
    assert NextAt(c, tr, j) && Drains(tr[j + 1].cpc);
    NextMoves(c, tr[j], tr[j + 1], i);
  }

  // How far slot i has got by run index j.
  datatype Progress = Before | During(x: nat) | After(x: nat, y: nat)

  ghost predicate ProgressOk(tr: seq<World>, a: nat, j: nat, i: nat, p: Progress) {
    j < |tr| &&
    match p
    case Before => Waiting(tr[j].cpc, i)
    case During(x) => a < x <= j && Arrives(tr, x, i) && forall l | x <= l <= j :: Visiting(tr[l].cpc, i)
    case After(x, y) => a < x < y <= j && Visit(tr, x, y, i) && Gone(tr[y].cpc, i)
  }

  lemma {:induction false} Progresses(c: Config, threads: nat, tr: seq<World>, a: nat, b: nat, i: nat, j: nat) returns (p: Progress)
    requires Run(c, threads, tr) && Pass(tr, a, b) && i in tr[a].active && a < j < b
    ensures ProgressOk(tr, a, j, i, p)
    decreases j
  {
    hide Inv, Next, Going;
    if j == a + 1 {
      RunInv(c, threads, tr, a);
      assert NextAt(c, tr, a) && Drains(tr[j].cpc);
      NextStarts(c, tr[a], tr[j]);
      p := Before;
    } else {
      p := Progresses(c, threads, tr, a, b, i, j - 1);
      RunMoves(c, threads, tr, a, b, j - 1, i);
      match p
      case Before => if !Waiting(tr[j].cpc, i) { p := During(j); }
      case During(x) => if !Visiting(tr[j].cpc, i) { p := After(x, j); }
      case After(x, y) =>
    }
  }

  lemma {:induction false} GoneStays(c: Config, threads: nat, tr: seq<World>, a: nat, b: nat, i: nat, y: nat, j: nat)
    requires Run(c, threads, tr) && Pass(tr, a, b) && a < y <= j < b && Gone(tr[y].cpc, i)
    ensures !Visiting(tr[j].cpc, i) && Gone(tr[j].cpc, i)
    decreases j
  {
    hide Inv, Next, Going;
    if y < j {
      GoneStays(c, threads, tr, a, b, i, y, j - 1);
      RunMoves(c, threads, tr, a, b, j - 1, i);
    }
  }

  lemma NotTwice(c: Config, threads: nat, tr: seq<World>, a: nat, b: nat, i: nat, x: nat, y: nat, z: nat)
    requires Run(c, threads, tr) && Pass(tr, a, b) && a < x && y <= z < b && Visit(tr, x, y, i)
    ensures !Visiting(tr[z].cpc, i)
  {
    RunMoves(c, threads, tr, a, b, y - 1, i);
    assert Visiting(tr[y - 1].cpc, i);
    GoneStays(c, threads, tr, a, b, i, y, z);
  }

  /** A pass whose snapshot has bit i makes exactly one visit of slot i. */
  lemma PassVisitsOnce(c: Config, threads: nat, tr: seq<World>, a: nat, b: nat, i: nat) returns (x: nat, y: nat)
    requires Run(c, threads, tr) && Pass(tr, a, b) && i in tr[a].active
    ensures a < x < y < b && Visit(tr, x, y, i)
    ensures forall x': nat, y': nat | a < x' && y' < b && Visit(tr, x', y', i) :: x' == x && y' == y
  {
    hide Inv, Next, Going;
    var p := Progresses(c, threads, tr, a, b, i, b - 1);
    StillGoing(c, threads, tr, a, b, b - 1);
    assert NextAt(c, tr, b - 1);
    NextEnds(c, tr[b - 1], tr[b]);
    assert !Waiting(tr[b - 1].cpc, i) && !Visiting(tr[b - 1].cpc, i);
    x, y := p.x, p.y;
    forall x': nat, y': nat | a < x' && y' < b && Visit(tr, x', y', i) ensures x' == x && y' == y {
      if y < x' { NotTwice(c, threads, tr, a, b, i, x, y, x'); }
      if y' < x { NotTwice(c, threads, tr, a, b, i, x', y', x); }
      SameVisit(tr, x, y, x', y', i);
    }
  }

  // Two visits of one slot overlap only if they are the same.
  lemma SameVisit(tr: seq<World>, x: nat, y: nat, x': nat, y': nat, i: nat)
    requires Visit(tr, x, y, i) && Visit(tr, x', y', i) && x' <= y && x <= y'
    ensures x == x' && y == y'
  {
    assert Arrives(tr, x, i) && Arrives(tr, x', i);
  }

  /** And no visit of a slot whose bit it did not see. */
  lemma PassVisitsNoOther(c: Config, threads: nat, tr: seq<World>, a: nat, b: nat, i: nat, j: nat)
    requires Run(c, threads, tr) && Pass(tr, a, b) && i !in tr[a].active && a < j < b
    ensures !Visiting(tr[j].cpc, i)
  {
    hide Inv, Next;
    RunInv(c, threads, tr, a);
    assert NextAt(c, tr, a) && Drains(tr[a + 1].cpc);
    NextStarts(c, tr[a], tr[a + 1]);
    GoneStays(c, threads, tr, a, b, i, a + 1, j);
  }

  /** A pass sees the bit of every ring with an event in it, but for one that its owner is still announcing. */
  lemma PassSees(c: Config, threads: nat, tr: seq<World>, a: nat, i: nat)
    requires Run(c, threads, tr) && c.bitmap && a < |tr| && tr[a].cpc.ScanActive? && i < |tr[a].slots|
    requires tr[a].slots[i].head < tr[a].slots[i].tail
    requires tr[a].slots[i].owner < |tr[a].threads| ==> !Announcing(tr[a].threads[tr[a].slots[i].owner], i)
    ensures i in tr[a].active
  {
    RunInv(c, threads, tr, a);
    assert Visible(tr[a], i);
  }

  // ------------------------------------------------------------ the bound

  // Passes that see the bit of slot i, in their order, whatever comes between them.
  ghost predicate Passes(tr: seq<World>, starts: seq<nat>, ends: seq<nat>, i: nat) {
    && |starts| == |ends| > 0
    && (forall k | 0 <= k < |starts| :: Pass(tr, starts[k], ends[k]) && i in tr[starts[k]].active)
    && (forall k | 0 <= k < |starts| - 1 :: ends[k] <= starts[k + 1])
  }

  // The head and the tail only grow.
  lemma {:induction false} IndicesGrow(c: Config, threads: nat, tr: seq<World>, j: nat, l: nat, i: nat)
    requires Run(c, threads, tr) && j <= l < |tr| && i < c.n
    ensures i < |tr[j].slots| == |tr[l].slots|
    ensures tr[j].slots[i].head <= tr[l].slots[i].head && tr[j].slots[i].tail <= tr[l].slots[i].tail
    decreases l
  {
    hide Run;
    TailIsLog(c, threads, tr, l, i);
    if j < l {
      IndicesGrow(c, threads, tr, j, l - 1, i);
      TailIsLog(c, threads, tr, l - 1, i);
      RunOnward(c, threads, tr, l - 1, i);
      RunHead(c, threads, tr, l - 1, i);
    }
  }

  lemma TailIsLog(c: Config, threads: nat, tr: seq<World>, j: nat, i: nat)
    requires Run(c, threads, tr) && j < |tr| && i < c.n
    ensures i < |tr[j].slots| == c.n && tr[j].slots[i].tail == |tr[j].slots[i].log|
  {
    RunInv(c, threads, tr, j);
    assert SlotOk(c, tr[j].slots[i]);
  }

  lemma RunHead(c: Config, threads: nat, tr: seq<World>, j: nat, i: nat)
    requires Run(c, threads, tr) && j + 1 < |tr| && i < |tr[j].slots| == |tr[j + 1].slots|
    ensures tr[j].slots[i].head <= tr[j + 1].slots[i].head
  {
    assert NextAt(c, tr, j);
    var a: Actor, k: Choice :| Acts(tr[j], a) && tr[j + 1] == Step(c, tr[j], a, k);
    HeadGrows(c, tr[j], a, k, i);
    hide Step;
  }

  lemma HeadGrows(c: Config, w: World, a: Actor, k: Choice, i: nat)
    requires Acts(w, a) && i < |w.slots|
    ensures w.slots[i].head <= Step(c, w, a, k).slots[i].head
  {
    match a
    case Producer(t) =>
      var pc := w.threads[t];
      if AtSlot(w, pc) { ProducedHead(t, pc, w.slots[pc.i]); }
    case Consumer => HeadMoves(w.cpc, Target(c, w));
    case Stopper =>
  }

  lemma ProducedHead(t: Tid, pc: Ppc, s: Slot)
    ensures Produce(t, pc, s).head == s.head
  {
  }

  // The head of slot i, in the world at run index j.
  function HeadAt(tr: seq<World>, j: nat, i: nat): int {
    if j < |tr| && i < |tr[j].slots| then tr[j].slots[i].head else -1
  }

  function TailAt(tr: seq<World>, j: nat, i: nat): int {
    if j < |tr| && i < |tr[j].slots| then tr[j].slots[i].tail else -1
  }

  /** A pass that sees the bit takes a full batch of the ring's events, or all that were in it when the pass began. */
  lemma PassTakes(c: Config, threads: nat, tr: seq<World>, a: nat, b: nat, i: nat)
    requires Run(c, threads, tr) && Pass(tr, a, b) && i in tr[a].active
    ensures HeadAt(tr, a, i) >= 0
    ensures HeadAt(tr, b, i) >= HeadAt(tr, a, i) + c.batch || HeadAt(tr, b, i) >= TailAt(tr, a, i)
  {
    hide Inv;
    var x, y := PassVisitsOnce(c, threads, tr, a, b, i);
    ActiveBelow(c, threads, tr, a, i);
    VisitTakes(c, threads, tr, x, y, i);
    IndicesGrow(c, threads, tr, a, x, i);
    IndicesGrow(c, threads, tr, y, b, i);
  }

  lemma ActiveBelow(c: Config, threads: nat, tr: seq<World>, a: nat, i: nat)
    requires Run(c, threads, tr) && a < |tr| && i in tr[a].active
    ensures i < c.n == |tr[a].slots|
  {
    RunInv(c, threads, tr, a);
  }

  // One pass of them, after its predecessors.
  lemma PassAdvances(c: Config, threads: nat, tr: seq<World>, starts: seq<nat>, ends: seq<nat>, i: nat, m: nat)
    requires Run(c, threads, tr) && Passes(tr, starts, ends, i) && m < |starts|
    ensures 0 <= HeadAt(tr, starts[m], i) && TailAt(tr, starts[0], i) <= TailAt(tr, starts[m], i)
    ensures HeadAt(tr, ends[m], i) >= HeadAt(tr, starts[m], i) + c.batch || HeadAt(tr, ends[m], i) >= TailAt(tr, starts[m], i)
    ensures m > 0 ==> HeadAt(tr, ends[m - 1], i) <= HeadAt(tr, starts[m], i)
  {
    assert Pass(tr, starts[m], ends[m]);
    PassTakes(c, threads, tr, starts[m], ends[m], i);
    ActiveBelow(c, threads, tr, starts[m], i);
    StartsOrdered(tr, starts, ends, i, m);
    IndicesGrow(c, threads, tr, starts[0], starts[m], i);
    if m > 0 {
      assert Pass(tr, starts[m - 1], ends[m - 1]) && ends[m - 1] <= starts[m - 1 + 1];
      IndicesGrow(c, threads, tr, ends[m - 1], starts[m], i);
    }
  }

  function Share(h: int, batch: int, visits: int): int { h + visits * batch }

  lemma ShareStep(prev: int, start: int, end: int, h: int, p: int, m: int, batch: int)
    requires 0 <= batch && prev <= start && (prev > p || prev >= Share(h, batch, m) || (m == 0 && prev == h)) && (end >= start + batch || end > p)
    ensures end > p || end >= Share(h, batch, m + 1)
  {
    assert (m + 1) * batch == m * batch + batch;
  }

  /**
   * An event, published when the first of these passes begins, is out after pass m
   * unless (m + 1) full batches of its own ring's events were taken before it,
   * whatever the other producers do.
   */
  lemma {:induction false} FairShare(c: Config, threads: nat, tr: seq<World>, starts: seq<nat>, ends: seq<nat>, i: nat, p: int, m: nat)
    requires Run(c, threads, tr) && Passes(tr, starts, ends, i) && m < |starts|
    requires p < TailAt(tr, starts[0], i)
    ensures HeadAt(tr, ends[m], i) > p || HeadAt(tr, ends[m], i) >= Share(HeadAt(tr, starts[0], i), c.batch, m + 1)
  {
    assert |starts| == |ends|;
    hide Run, Passes, HeadAt, TailAt, Share;
    PassAdvances(c, threads, tr, starts, ends, i, m);
    if m == 0 {
      ShareStep(HeadAt(tr, starts[0], i), HeadAt(tr, starts[0], i), HeadAt(tr, ends[0], i), HeadAt(tr, starts[0], i), p, 0, c.batch);
    } else {
      FairShare(c, threads, tr, starts, ends, i, p, m - 1);
      ShareStep(HeadAt(tr, ends[m - 1], i), HeadAt(tr, starts[m], i), HeadAt(tr, ends[m], i), HeadAt(tr, starts[0], i), p, m, c.batch);
    }
  }

  lemma {:induction false} StartsOrdered(tr: seq<World>, starts: seq<nat>, ends: seq<nat>, i: nat, m: nat)
    requires Passes(tr, starts, ends, i) && m < |starts|
    ensures starts[0] <= starts[m]
  {
    if m > 0 {
      StartsOrdered(tr, starts, ends, i, m - 1);
      assert Pass(tr, starts[m - 1], ends[m - 1]) && ends[m - 1] <= starts[m - 1 + 1];
    }
  }

  /** With d events ahead of it, an event is out by the end of pass d / batch + 1 among those that see its bit. */
  lemma OutByPass(c: Config, threads: nat, tr: seq<World>, starts: seq<nat>, ends: seq<nat>, i: nat, d: nat)
    requires Run(c, threads, tr) && Passes(tr, starts, ends, i) && d / c.batch < |starts|
    requires HeadAt(tr, starts[0], i) + d < TailAt(tr, starts[0], i)
    ensures HeadAt(tr, ends[d / c.batch], i) > HeadAt(tr, starts[0], i) + d
  {
    FairShare(c, threads, tr, starts, ends, i, HeadAt(tr, starts[0], i) + d, d / c.batch);
    hide Run, Passes, HeadAt, TailAt;
    QuotientBound(d, c.batch);
  }

  lemma QuotientBound(d: nat, b: nat)
    requires b > 0
    ensures (d / b + 1) * b > d
  {
    assert (d / b + 1) * b == d / b * b + b;
  }
}

/** What becomes of a retired slot, and exactly when it is overlooked. */
module WeirRetired {
  import BitWalk
  import Slots
  import opened Streams
  import opened Weir
  import opened WeirInvariant
  import opened WeirSafety
  import opened WeirTheorems

  // ------------------------------------------------------------ retired slots

  // Nothing tells the consumer to look for retired slots, and nobody is about to say that slot i is one.
  predicate Unasked(w: World, i: nat) {
    && i < |w.slots| && !w.retirePending && !Reclaims(w.cpc)
    && !(w.slots[i].owner < |w.threads| && w.threads[w.slots[i].owner] == RetPending(i))
  }

  // Slot i has been given up all the same.
  predicate Overlooked(w: World, i: nat) { Unasked(w, i) && w.slots[i].state.Retiring? }

  /** Exactly the slots that a reclaiming scan has found with events in them are overlooked. */
  lemma OverlookedIffMissed(c: Config, threads: nat, tr: seq<World>, j: nat, i: nat)
    requires Run(c, threads, tr) && j < |tr| && Unasked(tr[j], i)
    ensures Overlooked(tr[j], i) <==> tr[j].slots[i].missed
  {
    RunInv(c, threads, tr, j);
    assert Noted(tr[j], i) && MarkOk(tr[j].slots[i]);
  }

  // ------------------------------------------------------------ one look of a reclaiming scan

  // From j to l the scan deals with slot i, which it has seen retired: it looks at j
  // and goes on to the next slot at l.
  ghost predicate Look(tr: seq<World>, j: nat, l: nat, last: bool, i: nat) {
    && j < l < |tr| && tr[j].cpc == RecEmpty(last, i) && tr[j + 1].cpc != tr[j].cpc
    && (forall x | j < x < l :: tr[x].cpc != RecState(last, i + 1))
    && tr[l].cpc == RecState(last, i + 1)
  }

  // What one step does to a scan that has found the ring empty.
  predicate EmptiedMoves(w: World, w': World)
    requires Emptied(w.cpc)
  {
    var last, i := w.cpc.last, w.cpc.i;
    if w'.cpc.RecState? then w.cpc.RecFree? && w'.cpc == RecState(last, i + 1) && i < |w'.slots| && w'.slots[i].state.Free?
    else Emptied(w'.cpc) && w'.cpc.last == last && w'.cpc.i == i
  }

  // And the step that decides.
  predicate LookDecides(w: World, w': World)
    requires w.cpc.RecEmpty?
  {
    var last, i := w.cpc.last, w.cpc.i;
    && i < |w.slots| == |w'.slots|
    && if w.slots[i].head == w.slots[i].tail then Emptied(w'.cpc) && w'.cpc.last == last && w'.cpc.i == i
       else w'.cpc == RecState(last, i + 1) && w'.slots[i].missed && w'.slots[i].state.Retiring?
  }

  lemma EmptiedNext(c: Config, w: World, w': World)
    requires Inv(c, w) && Next(c, w, w') && Emptied(w.cpc)
    ensures EmptiedMoves(w, w')
  {
    var a: Actor, k: Choice :| Acts(w, a) && w' == Step(c, w, a, k);
    if a.Consumer? { EmptiedStep(c, w, k); } else { OthersLeave(c, w, a, k); }
    hide Step, Inv;
  }

  lemma EmptiedStep(c: Config, w: World, k: Choice)
    requires Base(c, w) && Emptied(w.cpc)
    ensures EmptiedMoves(w, ConsumerStep(c, w, k))
  {
    hide SlotOk, ThreadOk, Owned;
  }

  lemma LookNext(c: Config, w: World, w': World)
    requires Inv(c, w) && Next(c, w, w') && w.cpc.RecEmpty? && w'.cpc != w.cpc
    ensures LookDecides(w, w')
  {
    var a: Actor, k: Choice :| Acts(w, a) && w' == Step(c, w, a, k);
    if a.Consumer? { LookStep(c, w, k); } else { OthersLeave(c, w, a, k); }
    hide Step, Inv;
  }

  lemma LookStep(c: Config, w: World, k: Choice)
    requires Base(c, w) && w.cpc.RecEmpty?
    ensures LookDecides(w, ConsumerStep(c, w, k))
  {
    hide SlotOk, ThreadOk, Owned;
  }

  lemma {:induction false} StillEmptied(c: Config, threads: nat, tr: seq<World>, j: nat, l: nat, last: bool, i: nat, x: nat)
    requires Run(c, threads, tr) && Look(tr, j, l, last, i) && j < x < l
    ensures Emptied(tr[x].cpc) && tr[x].cpc.last == last && tr[x].cpc.i == i
    decreases x
  {
    hide Inv, Next;
    RunInv(c, threads, tr, x - 1);
    assert NextAt(c, tr, x - 1);
    if x == j + 1 { LookNext(c, tr[j], tr[x]); }
    else {
      StillEmptied(c, threads, tr, j, l, last, i, x - 1);
      EmptiedNext(c, tr[x - 1], tr[x]);
    }
  }

  /**
   * A scan that looks at a retired slot leaves it free, if its ring was empty at the
   * look, and otherwise retired and marked as missed.
   */
  lemma ScanDecides(c: Config, threads: nat, tr: seq<World>, j: nat, l: nat, last: bool, i: nat)
    requires Run(c, threads, tr) && Look(tr, j, l, last, i)
    ensures i < |tr[j].slots| == |tr[l].slots|
    ensures tr[j].slots[i].head == tr[j].slots[i].tail <==> tr[l].slots[i].state.Free?
    ensures tr[j].slots[i].head != tr[j].slots[i].tail <==> tr[l].slots[i].state.Retiring? && tr[l].slots[i].missed
  {
    hide Inv, Next, Run;
    LookFirst(c, threads, tr, j);
    if l > j + 1 {
      StillEmptied(c, threads, tr, j, l, last, i, l - 1);
      StillEmptied(c, threads, tr, j, l, last, i, j + 1);
      EmptiedLast(c, threads, tr, l - 1);
    }
    SlotCount(c, threads, tr, j, l);
  }

  lemma SlotCount(c: Config, threads: nat, tr: seq<World>, j: nat, l: nat)
    requires Run(c, threads, tr) && j < |tr| && l < |tr|
    ensures |tr[j].slots| == |tr[l].slots|
  {
    RunInv(c, threads, tr, j);
    RunInv(c, threads, tr, l);
  }

  lemma LookFirst(c: Config, threads: nat, tr: seq<World>, j: nat)
    requires Run(c, threads, tr) && j + 1 < |tr| && tr[j].cpc.RecEmpty? && tr[j + 1].cpc != tr[j].cpc
    ensures LookDecides(tr[j], tr[j + 1])
  {
    hide Inv, Next;
    RunInv(c, threads, tr, j);
    assert NextAt(c, tr, j);
    LookNext(c, tr[j], tr[j + 1]);
  }

  lemma EmptiedLast(c: Config, threads: nat, tr: seq<World>, j: nat)
    requires Run(c, threads, tr) && j + 1 < |tr| && Emptied(tr[j].cpc)
    ensures EmptiedMoves(tr[j], tr[j + 1])
  {
    hide Inv, Next;
    RunInv(c, threads, tr, j);
    assert NextAt(c, tr, j);
    EmptiedNext(c, tr[j], tr[j + 1]);
  }

  // ------------------------------------------------------------ how long it lasts

  /** Once overlooked, a slot stays so until somebody else retires or the pipeline closes. */
  lemma OverlookedStays(c: Config, w: World, a: Actor, k: Choice, i: nat)
    requires Base(c, w) && Acts(w, a) && Overlooked(w, i) && !Closing(w.cpc)
    requires forall t | 0 <= t < |w.threads| :: !w.threads[t].RetPending?
    ensures Overlooked(Step(c, w, a, k), i) || Closing(Step(c, w, a, k).cpc)
  {
    if a.Producer? { BaseFit(c, w, a.t); }
    BlankOk(c);
    hide Base;
    match a
    case Producer(t) =>
      hide ThreadOk, ProducerPc, Produce;
      OverlookedProducer(c, w, t, k, i);
    case Consumer =>
      OverlookedConsumer(c, w, Target(c, w), k);
      NotFreed(w.cpc, Target(c, w));
      hide ConsumerPc, Consume, Closing;
    case Stopper =>
  }

  lemma OverlookedProducer(c: Config, w: World, t: Tid, k: Choice, i: nat)
    requires t < |w.threads| && ThreadOk(c, w, t) && Overlooked(w, i) && !w.threads[t].RetPending?
    ensures Overlooked(ProducerStep(c, w, t, k), i)
  {
  }

  lemma OverlookedConsumer(c: Config, w: World, s: Slot, k: Choice)
    requires !w.retirePending && !Reclaims(w.cpc) && !Closing(w.cpc)
    ensures !Reclaims(ConsumerPc(c, w, s, k)) || Closing(ConsumerPc(c, w, s, k))
  {
    if Drains(w.cpc) { DrainCarries(c, w.cpc, s, |w.staged|, w.rotate); }
    else if Clears(w.cpc) { ClearCarries(c, w.cpc, s, w.active, w.rotate); }
  }

  lemma NotFreed(pc: Cpc, s: Slot)
    requires !Reclaims(pc)
    ensures Consume(pc, s).state == s.state && Consume(pc, s).owner == s.owner
  {
  }

  lemma NextStays(c: Config, w: World, w': World, i: nat)
    requires Base(c, w) && Next(c, w, w') && Overlooked(w, i) && !Closing(w.cpc)
    requires forall t | 0 <= t < |w.threads| :: !w.threads[t].RetPending?
    ensures Overlooked(w', i) || Closing(w'.cpc)
  {
    var a: Actor, k: Choice :| Acts(w, a) && w' == Step(c, w, a, k);
    OverlookedStays(c, w, a, k, i);
  }

  predicate Retires(w: World) { exists t | 0 <= t < |w.threads| :: w.threads[t].RetPending? }

  /** Over any run it lasts, as long as no handle retires and the pipeline does not close. */
  lemma {:induction false} OverlookedLasts(c: Config, threads: nat, tr: seq<World>, j: nat, l: nat, i: nat)
    requires Run(c, threads, tr) && j <= l < |tr| && Overlooked(tr[j], i)
    requires forall x | j <= x <= l :: !Retires(tr[x]) && !Closing(tr[x].cpc)
    ensures Overlooked(tr[l], i)
    decreases l
  {
    if j < l {
      OverlookedLasts(c, threads, tr, j, l - 1, i);
      RunInv(c, threads, tr, l - 1);
      assert NextAt(c, tr, l - 1) && !Retires(tr[l - 1]);
      NextStays(c, tr[l - 1], tr[l], i);
    }
  }

  // ------------------------------------------------------------ reaching one

  ghost predicate Reachable(c: Config, threads: nat, w: World) {
    exists tr :: Run(c, threads, tr) && tr[|tr| - 1] == w
  }

  lemma ReachStep(c: Config, threads: nat, w: World, a: Actor, k: Choice, w': World)
    requires Reachable(c, threads, w) && Acts(w, a) && w' == Step(c, w, a, k)
    ensures Reachable(c, threads, w')
  {
    var tr :| Run(c, threads, tr) && tr[|tr| - 1] == w;
    var tr' := tr + [w'];
    forall j | 0 <= j < |tr'| - 1 ensures NextAt(c, tr', j) {
      if j < |tr| - 1 { assert NextAt(c, tr, j); }
    }
    assert Run(c, threads, tr') && tr'[|tr'| - 1] == w';
  }

  // What changes while one producer thread works on slot 0 and the others are blank.
  datatype View = View(s: Slot, pc: Ppc, cpc: Cpc, active: set<nat>, pending: bool, token: bool, rotate: nat,
                       published: nat, staged: seq<Out>, sink: seq<Out>)

  function Of(c: Config, v: View): World
    requires c.n > 0
  {
    World([v.s] + seq(c.n - 1, (i: nat) => Blank(c)), v.active, true, true, false, v.pending, v.token, 0, 0, [v.pc], v.cpc, Running,
          v.rotate, v.staged, v.sink, v.published, 0)
  }

  ghost predicate Reached(c: Config, v: View) { Sane(c) && Reachable(c, 1, Of(c, v)) }

  function AfterProducer(c: Config, v: View, k: Choice): View
    requires c.n > 0
  {
    var at := TouchesSlot(v.pc);
    v.(s := if at then Produce(0, v.pc, v.s) else v.s,
       pc := if at then SlotPc(c, v.pc, v.s, k) else WordPc(c, Of(c, v), v.pc, k),
       active := if v.pc.SigOr? then v.active + {v.pc.i} else v.active,
       token := v.token || ((v.pc.SigNotify? || v.pc.RetWake?) && Heard(c, v.cpc)),
       pending := v.pending || v.pc.RetPending?,
       published := if v.pc.PushStore? then v.published + 1 else v.published)
  }

  lemma ProducerReaches(c: Config, v: View, k: Choice, v': View)
    requires Reached(c, v) && !v.pc.PushDrop? && (TouchesSlot(v.pc) ==> v.pc.i == 0) && v' == AfterProducer(c, v, k)
    ensures Reached(c, v')
  {
    var w := Of(c, v);
    var rest := seq(c.n - 1, (i: nat) => Blank(c));
    assert ([v.s] + rest)[0 := v'.s] == [v'.s] + rest;
    assert ([v.s] + rest)[0 := v.s] == [v.s] + rest;
    assert ProducerStep(c, w, 0, k) == Of(c, v');
    ReachStep(c, 1, w, Producer(0), k, Of(c, v'));
  }

  // The slot that the consumer's step is on: slot 0 or a blank one.
  function Seen(c: Config, v: View): Slot { if At(c.n, v.cpc) == 0 then v.s else Blank(c) }

  function AfterConsumer(c: Config, v: View, k: Choice): View
    requires c.n > 0
  {
    var w := Of(c, v);
    v.(s := if At(c.n, v.cpc) == 0 then Consume(v.cpc, v.s) else v.s,
       cpc := ConsumerPc(c, w, Seen(c, v), k),
       active := ActiveAfter(v.cpc, v.active),
       pending := v.pending && !v.cpc.SwapPending?,
       token := v.token && (!v.cpc.Select? || (k.Timeout? && !c.cond)),
       rotate := RotateAfter(c, w),
       staged := StagedAfter(c, w),
       sink := if Flushes(c, w) then v.sink + v.staged else v.sink)
  }

  lemma ConsumerReaches(c: Config, v: View, k: Choice, v': View)
    requires Reached(c, v) && v' == AfterConsumer(c, v, k)
    requires !v.cpc.ParkSet? && !v.cpc.ParkReset? && !v.cpc.RecAddPushed? && !v.cpc.RecAddDropped?
    requires At(c.n, v.cpc) != 0 ==> Consume(v.cpc, Blank(c)) == Blank(c)
    ensures Reached(c, v')
  {
    hide ConsumerPc, Consume, RotateAfter, StagedAfter, Flushes, ActiveAfter, Blank;
    var w := Of(c, v);
    var i := At(c.n, v.cpc);
    var rest := seq(c.n - 1, (i: nat) => Blank(c));
    assert ([v.s] + rest)[0 := v'.s] == [v'.s] + rest;
    if 0 < i < c.n { assert ([v.s] + rest)[i] == Blank(c) && ([v.s] + rest)[i := Blank(c)] == [v.s] + rest; }
    assert ConsumerStep(c, w, k) == Of(c, v');
    ReachStep(c, 1, w, Consumer, k, Of(c, v'));
  }

  // A full pass goes over blank slots.
  lemma {:induction false} SkipBlank(c: Config, v: View, why: Purpose, skip: seq<nat>, rest: seq<nat>, total: nat)
    requires Reached(c, v) && v.cpc == Scan(true, why, skip + rest, total) && (forall k | 0 <= k < |skip| :: skip[k] != 0)
    ensures Reached(c, v.(cpc := Scan(true, why, rest, total)))
    decreases |skip|
  {
    if skip == [] {
      assert skip + rest == rest;
    } else {
      assert (skip + rest)[1..] == skip[1..] + rest;
      var v' := v.(cpc := Scan(true, why, skip[1..] + rest, total));
      ConsumerReaches(c, v, Proceed, v');
      SkipBlank(c, v', why, skip[1..], rest, total);
    }
  }

  // And so does a reclaiming scan.
  lemma {:induction false} SkipUnretired(c: Config, v: View, i: nat)
    requires Reached(c, v) && 0 < i <= c.n && v.cpc == RecState(false, i)
    ensures Reached(c, v.(cpc := Idle))
    decreases c.n - i
  {
    if i == c.n { ConsumerReaches(c, v, Proceed, v.(cpc := Idle)); }
    else {
      var v' := v.(cpc := RecState(false, i + 1));
      ConsumerReaches(c, v, Proceed, v');
      SkipUnretired(c, v', i + 1);
    }
  }

  const E := Event(1, 7)

  function Held(c: Config): Slot { Blank(c).(state := Active, owner := 0, gen := 1) }

  function Given(c: Config): Slot
    requires c.cap > 0
  {
    Held(c).(cells := Blank(c).cells[0 := E], tail := 1, log := [E], pushed := 1)
  }

  // Retired with the event in it, and passed over by a scan.
  function Passed(c: Config): Slot
    requires c.cap > 0
  {
    Given(c).(state := Retiring, cachedTail := 1, missed := true)
  }

  // The bit of slot 0, under the bitmap policy.
  function Bit(c: Config): set<nat> { if c.bitmap then {0} else {} }

  function Start(c: Config): View { View(Blank(c), Ppc.Out, Loop, {}, false, false, 0, 0, [], []) }

  lemma StartReached(c: Config)
    requires Sane(c)
    ensures Reached(c, Start(c))
  {
    var w := Of(c, Start(c));
    assert Init(c, 1) == w;
    assert Run(c, 1, [w]) && [w][0] == w;
  }

  // Where a pass leaves the rotation.
  function Next1(c: Config): nat { Rotated(c, 0) }

  // The consumer's first pass finds nothing.
  lemma ReachIdlePass(c: Config)
    requires Sane(c)
    ensures Reached(c, Start(c).(cpc := SwapPending, rotate := Next1(c)))
  {
    hide Reached;
    var v := Start(c);
    StartReached(c);
    if c.bitmap {
      ConsumerReaches(c, v, Proceed, v.(cpc := ScanActive));
      BitWalk.AmongNone(Order(c.n, 0), {});
      ConsumerReaches(c, v.(cpc := ScanActive), Proceed, v.(cpc := Scan(false, Main, [], 0)));
      ConsumerReaches(c, v.(cpc := Scan(false, Main, [], 0)), Proceed, v.(cpc := SwapPending, rotate := Next1(c)));
    } else {
      var v1 := v.(cpc := Scan(true, Main, Order(c.n, 0), 0));
      ConsumerReaches(c, v, Proceed, v1);
      var v2 := v.(cpc := Scan(true, Main, Order(c.n, 0)[1..], 0));
      ConsumerReaches(c, v1, Proceed, v2);
      assert Order(c.n, 0)[1..] + [] == Order(c.n, 0)[1..];
      SkipBlank(c, v2, Main, Order(c.n, 0)[1..], [], 0);
      ConsumerReaches(c, v.(cpc := Scan(true, Main, [], 0)), Proceed, v.(cpc := SwapPending, rotate := Next1(c)));
    }
  }

  lemma ReachRegistered(c: Config)
    requires Sane(c)
    ensures Reached(c, Start(c).(s := Held(c), pc := Ready(0, Registered), cpc := SwapPending, rotate := Next1(c)))
  {
    hide Reached;
    ReachIdlePass(c);
    var v := Start(c).(cpc := SwapPending, rotate := Next1(c));
    ProducerReaches(c, v, Register, v.(pc := RegTry(0)));
    var h := v.(s := Held(c));
    ProducerReaches(c, v.(pc := RegTry(0)), Proceed, h.(pc := RegPushed(0)));
    ProducerReaches(c, h.(pc := RegPushed(0)), Proceed, h.(pc := RegDropped(0)));
    ProducerReaches(c, h.(pc := RegDropped(0)), Proceed, h.(pc := Ready(0, Registered)));
  }

  lemma ReachPublished(c: Config)
    requires Sane(c)
    ensures Reached(c, Start(c).(s := Given(c).(pushed := 0), pc := PushCount(0), cpc := SwapPending, rotate := Next1(c), published := 1))
  {
    hide Reached;
    ReachRegistered(c);
    var v := Start(c).(s := Held(c), cpc := SwapPending, rotate := Next1(c));
    ProducerReaches(c, v.(pc := Ready(0, Registered)), Push(7), v.(pc := PushAccept(0, 7)));
    ProducerReaches(c, v.(pc := PushAccept(0, 7)), Proceed, v.(pc := PushLook(0, 7)));
    ProducerReaches(c, v.(pc := PushLook(0, 7)), Proceed, v.(pc := PushWrite(0, 7)));
    var g := v.(s := Held(c).(cells := Blank(c).cells[0 := E]));
    ProducerReaches(c, v.(pc := PushWrite(0, 7)), Proceed, g.(pc := PushStore(0, 7)));
    assert [] + [E] == [E];
    ProducerReaches(c, g.(pc := PushStore(0, 7)), Proceed, v.(s := Given(c).(pushed := 0), pc := PushCount(0), published := 1));
  }

  lemma ReachPushed(c: Config)
    requires Sane(c)
    ensures Reached(c, Start(c).(s := Given(c), pc := Ready(0, Pushed), cpc := SwapPending, active := Bit(c), rotate := Next1(c), published := 1))
  {
    hide Reached;
    ReachPublished(c);
    var v := Start(c).(s := Given(c), cpc := SwapPending, rotate := Next1(c), published := 1);
    var p := v.(s := Given(c).(pushed := 0), pc := PushCount(0));
    if c.bitmap {
      ProducerReaches(c, p, Proceed, v.(pc := SigLoad(0, AfterPush)));
      ProducerReaches(c, v.(pc := SigLoad(0, AfterPush)), Proceed, v.(pc := SigOr(0, AfterPush)));
      ProducerReaches(c, v.(pc := SigOr(0, AfterPush)), Proceed, v.(pc := SigParked(0, AfterPush), active := {0}));
      ProducerReaches(c, v.(pc := SigParked(0, AfterPush), active := {0}), Proceed, v.(pc := Ready(0, Pushed), active := {0}));
    } else {
      ProducerReaches(c, p, Proceed, v.(pc := Ready(0, Pushed)));
    }
  }

  lemma ReachRetired(c: Config)
    requires Sane(c)
    ensures Reached(c, Start(c).(s := Given(c).(state := Retiring), cpc := SwapPending, active := Bit(c), pending := true,
                                 token := Heard(c, SwapPending), rotate := Next1(c), published := 1))
  {
    hide Reached;
    ReachPushed(c);
    var v := Start(c).(s := Given(c), cpc := SwapPending, active := Bit(c), rotate := Next1(c), published := 1);
    ProducerReaches(c, v.(pc := Ready(0, Pushed)), CloseHandle, v.(pc := RetState(0)));
    var r := v.(s := Given(c).(state := Retiring));
    ProducerReaches(c, v.(pc := RetState(0)), Proceed, r.(pc := RetPending(0)));
    var q := r.(pending := true);
    if c.bitmap {
      ProducerReaches(c, r.(pc := RetPending(0)), Proceed, q.(pc := SigLoad(0, AfterRetire)));
      ProducerReaches(c, q.(pc := SigLoad(0, AfterRetire)), Proceed, q.(pc := RetWake(0)));
    } else {
      ProducerReaches(c, r.(pc := RetPending(0)), Proceed, q.(pc := RetWake(0)));
    }
    ProducerReaches(c, q.(pc := RetWake(0)), Proceed, q.(token := Heard(c, SwapPending)));
  }

  // The state after the scan that passed slot 0 over.
  function PassedOver(c: Config): View
    requires c.cap > 0
  {
    Start(c).(s := Passed(c), active := Bit(c), token := Heard(c, SwapPending), rotate := Next1(c), published := 1)
  }

  lemma ReachLook(c: Config)
    requires Sane(c)
    ensures Reached(c, PassedOver(c).(s := Given(c).(state := Retiring), cpc := RecEmpty(false, 0)))
  {
    hide Reached;
    ReachRetired(c);
    var v := PassedOver(c);
    var r := v.(s := Given(c).(state := Retiring));
    ConsumerReaches(c, r.(cpc := SwapPending, pending := true), Proceed, r.(cpc := RecState(false, 0)));
    ConsumerReaches(c, r.(cpc := RecState(false, 0)), Proceed, r.(cpc := RecEmpty(false, 0)));
  }

  lemma ReachPassed(c: Config)
    requires Sane(c)
    ensures Reached(c, PassedOver(c))
  {
    hide Reached;
    ReachLook(c);
    var v := PassedOver(c);
    ConsumerReaches(c, v.(s := Given(c).(state := Retiring), cpc := RecEmpty(false, 0)), Proceed, v.(cpc := RecState(false, 1)));
    SkipUnretired(c, v.(cpc := RecState(false, 1)), 1);
    ConsumerReaches(c, v.(cpc := Idle), Proceed, v);
  }

  // ------------------------------------------------------------ and drained since

  // The pass that drains slot 0: the slots before it and after it.
  function Before(c: Config): seq<nat>
    requires c.n > 0
  {
    if c.bitmap then [] else Order(c.n, Next1(c))[..c.n - 1]
  }

  // Slot 0 comes last in the order from slot 1 on.
  lemma ZeroIsLast(c: Config)
    requires Sane(c)
    ensures Order(c.n, Next1(c)) == Order(c.n, Next1(c))[..c.n - 1] + [0]
    ensures forall k | 0 <= k < c.n - 1 :: Order(c.n, Next1(c))[k] != 0
  {
  }

  lemma AmongZero(order: seq<nat>, skip: seq<nat>)
    requires order == skip + [0] && forall k | 0 <= k < |skip| :: skip[k] != 0
    ensures Among(order, {0}) == [0]
  {
    BitWalk.AmongAppend(skip, [0], {0});
    BitWalk.AmongNone(skip, {0});
    assert [0][1..] == [];
  }

  lemma ReachVisit(c: Config)
    requires Sane(c)
    ensures Reached(c, PassedOver(c).(cpc := Scan(!c.bitmap, Main, [0], 0)))
  {
    hide Reached;
    ReachPassed(c);
    ZeroIsLast(c);
    var v := PassedOver(c);
    if c.bitmap {
      ConsumerReaches(c, v, Proceed, v.(cpc := ScanActive));
      AmongZero(Order(c.n, Next1(c)), Order(c.n, Next1(c))[..c.n - 1]);
      ConsumerReaches(c, v.(cpc := ScanActive), Proceed, v.(cpc := Scan(false, Main, [0], 0)));
    } else {
      ConsumerReaches(c, v, Proceed, v.(cpc := Scan(true, Main, Order(c.n, Next1(c)), 0)));
      SkipBlank(c, v.(cpc := Scan(true, Main, Order(c.n, Next1(c)), 0)), Main, Order(c.n, Next1(c))[..c.n - 1], [0], 0);
    }
  }

  lemma ReachPolled(c: Config)
    requires Sane(c)
    ensures Reached(c, PassedOver(c).(cpc := PopCopy(!c.bitmap, Main, [0], 0, 0, 1, [])))
  {
    hide Reached;
    ReachVisit(c);
    var v, full := PassedOver(c), !c.bitmap;
    ConsumerReaches(c, v.(cpc := Scan(full, Main, [0], 0)), Proceed, v.(cpc := Room(full, Main, [0], 0, 0)));
    ConsumerReaches(c, v.(cpc := Room(full, Main, [0], 0, 0)), Proceed, v.(cpc := PopTail(full, Main, [0], 0, 0)));
    ConsumerReaches(c, v.(cpc := PopTail(full, Main, [0], 0, 0)), Proceed, v.(cpc := PopCopy(full, Main, [0], 0, 0, 1, [])));
  }

  lemma ReachCopied(c: Config)
    requires Sane(c)
    ensures Reached(c, PassedOver(c).(s := Passed(c).(head := 1), cpc := Room(!c.bitmap, Main, [0], 0, 1), staged := [Tagged(0, E)]))
  {
    hide Reached;
    ReachPolled(c);
    var v, full := PassedOver(c), !c.bitmap;
    assert [] + [E] == [E];
    ConsumerReaches(c, v.(cpc := PopCopy(full, Main, [0], 0, 0, 1, [])), Proceed, v.(cpc := PopHead(full, Main, [0], 0, 0, [E])));
    assert [] + Tag(0, [E]) == [Tagged(0, E)];
    ConsumerReaches(c, v.(cpc := PopHead(full, Main, [0], 0, 0, [E])), Proceed,
                    v.(s := Passed(c).(head := 1), cpc := Room(full, Main, [0], 0, 1), staged := [Tagged(0, E)]));
  }

  // The end of the pass, with the event staged or already flushed.
  lemma ReachFlushed(c: Config, staged: seq<Out>, sink: seq<Out>)
    requires sink + staged == [Tagged(0, E)] && c.n > 0 && c.cap > 0
    requires Reached(c, PassedOver(c).(s := Passed(c).(head := 1), cpc := Scan(!c.bitmap, Main, [], 1), staged := staged, sink := sink))
    ensures Reached(c, Drained(c))
  {
    hide Reached;
    var v := PassedOver(c).(s := Passed(c).(head := 1), staged := staged, sink := sink);
    var full := !c.bitmap;
    ConsumerReaches(c, v.(cpc := Scan(full, Main, [], 1)), Proceed, v.(cpc := Flush(full, Main, 1)));
    ConsumerReaches(c, v.(cpc := Flush(full, Main, 1)), Proceed, Drained(c));
  }

  // The event has been delivered, the consumer is back in its loop, and the slot is still retired.
  function Drained(c: Config): View
    requires c.n > 0 && c.cap > 0
  {
    PassedOver(c).(s := Passed(c).(head := 1), rotate := Rotated(c, Next1(c)), sink := [Tagged(0, E)])
  }

  // The batch has room left, so the consumer polls the ring again.
  lemma ReachSpent(c: Config) returns (staged: seq<Out>, sink: seq<Out>)
    requires Sane(c) && c.batch > 1
    ensures sink + staged == [Tagged(0, E)]
    ensures Reached(c, PassedOver(c).(s := Passed(c).(head := 1), cpc := PopTail(!c.bitmap, Main, [0], 0, 1), staged := staged, sink := sink))
  {
    hide Reached;
    ReachCopied(c);
    var full, v := !c.bitmap, PassedOver(c).(s := Passed(c).(head := 1), staged := [Tagged(0, E)]);
    assert [] + [Tagged(0, E)] == [Tagged(0, E)] && [Tagged(0, E)] + [] == [Tagged(0, E)];
    staged, sink := if c.stage == 1 then [] else [Tagged(0, E)], if c.stage == 1 then [Tagged(0, E)] else [];
    var u := v.(staged := staged, sink := sink);
    ConsumerReaches(c, v.(cpc := Room(full, Main, [0], 0, 1)), Proceed, u.(cpc := PopTail(full, Main, [0], 0, 1)));
  }

  lemma ReachOne(c: Config)
    requires Sane(c) && c.batch == 1
    ensures Reached(c, Drained(c))
  {
    hide Reached;
    ReachCopied(c);
    var v := PassedOver(c).(s := Passed(c).(head := 1), staged := [Tagged(0, E)]);
    assert [0][1..] == [];
    ConsumerReaches(c, v.(cpc := Room(!c.bitmap, Main, [0], 0, 1)), Proceed, v.(cpc := Scan(!c.bitmap, Main, [], 1)));
    assert [] + [Tagged(0, E)] == [Tagged(0, E)];
    ReachFlushed(c, [Tagged(0, E)], []);
  }

  lemma ReachDrained(c: Config)
    requires Sane(c)
    ensures Reached(c, Drained(c))
  {
    hide Reached;
    if c.batch == 1 { ReachOne(c); }
    else {
      var staged, sink := ReachSpent(c);
      var u := PassedOver(c).(s := Passed(c).(head := 1), staged := staged, sink := sink);
      assert [0][1..] == [];
      ConsumerReaches(c, u.(cpc := PopTail(!c.bitmap, Main, [0], 0, 1)), Proceed, u.(cpc := Scan(!c.bitmap, Main, [], 1)));
      ReachFlushed(c, staged, sink);
    }
  }

  /**
   * Under either scan policy, for every number of slots and every size, a retired
   * slot can be overlooked with its ring empty: its last event came after the pass
   * that found nothing, so the reclaiming scan skipped it, and the event has been
   * delivered since.
   */
  lemma SlotCanBeOverlooked(c: Config) returns (w: World)
    requires Sane(c)
    ensures Reachable(c, 1, w) && Overlooked(w, 0) && w.cpc.Loop? && w.running && w.threads == [Ppc.Out]
    ensures w.slots[0].head == w.slots[0].tail && Proj(w.sink, 0) == w.slots[0].log
  {
    ReachDrained(c);
    w := Of(c, Drained(c));
    assert w.sink[..0] == [];
    assert Proj(w.sink, 0) == [] + [E];
  }
}

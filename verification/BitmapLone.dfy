/** Go's Pop, run undisturbed from any reachable state: it finds what there is to find. */
module BitmapLone {
  import opened Slots
  import opened Ring
  import opened RingInvariant
  import opened RingSteps
  import opened RingTheorems
  import opened RingCalls
  import opened RingLone
  import opened BitmapWake
  import opened BitmapSafety

  ghost predicate Fine(c: Config, w: World, t: Tid) {
    Inv(c, w.ring) && t < |w.pcs| == |w.ring.threads| && Agree(w, t)
  }

  // In time, and a notifier finds a sleeper if there is one.
  ghost function Lone(w: World): WChoice { if w.asleep == {} then Proceed else var u :| u in w.asleep; Pick(u) }

  lemma LoneIs(w: World, pc: Wpc, res: Result)
    ensures Inner(pc, Lone(w)) == Go && Entering(pc, Lone(w)) == Entering(pc, Proceed) && Finish(pc, Lone(w), res) == Finish(pc, Proceed, res)
  {
  }

  // Thread t takes a step.
  ghost function WOnward(c: Config, cons: set<Tid>, w: World, t: Tid): (w': World)
    requires Fine(c, w, t)
    ensures Fine(c, w', t)
  {
    StepStepped(c, cons, w, t, Lone(w));
    WStep(c, cons, w, t, Lone(w))
  }

  /** The state after n more steps of thread t alone. */
  ghost function WSolo(c: Config, cons: set<Tid>, w: World, t: Tid, n: nat): (w': World)
    requires Fine(c, w, t)
    ensures Fine(c, w', t)
    decreases n
  {
    if n == 0 then w else WSolo(c, cons, WOnward(c, cons, w, t), t, n - 1)
  }

  lemma {:induction false} WSoloTwice(c: Config, cons: set<Tid>, w: World, t: Tid, m: nat, n: nat)
    requires Fine(c, w, t)
    ensures WSolo(c, cons, WSolo(c, cons, w, t, m), t, n) == WSolo(c, cons, w, t, m + n)
    decreases m
  {
    hide Fine, WOnward;
    if m > 0 { WSoloTwice(c, cons, WOnward(c, cons, w, t), t, m - 1, n); }
  }

  /** Thread t, running alone, comes from w to w'. */
  ghost predicate Leads(c: Config, cons: set<Tid>, w: World, w': World, t: Tid) {
    Fine(c, w, t) && exists n: nat :: WSolo(c, cons, w, t, n) == w'
  }

  lemma LeadsOne(c: Config, cons: set<Tid>, w: World, t: Tid)
    requires Fine(c, w, t)
    ensures Leads(c, cons, w, WOnward(c, cons, w, t), t)
  {
    hide Fine, WOnward;
    var w1 := WOnward(c, cons, w, t);
    assert WSolo(c, cons, w1, t, 0) == w1;
    assert WSolo(c, cons, w, t, 1) == w1;
  }

  lemma LeadsOn(c: Config, cons: set<Tid>, w: World, w1: World, w2: World, t: Tid)
    requires Leads(c, cons, w, w1, t) && Leads(c, cons, w1, w2, t)
    ensures Leads(c, cons, w, w2, t)
  {
    hide Fine, WOnward;
    var m: nat :| WSolo(c, cons, w, t, m) == w1;
    var n: nat :| WSolo(c, cons, w1, t, n) == w2;
    WSoloTwice(c, cons, w, t, m, n);
    hide WSolo;
  }

  lemma LeadsFine(c: Config, cons: set<Tid>, w: World, w': World, t: Tid)
    requires Leads(c, cons, w, w', t)
    ensures Fine(c, w', t) && t < |w'.pcs|
  {
    var n: nat :| WSolo(c, cons, w, t, n) == w';
    hide WSolo;
  }

  predicate ArrivesAt(w: World, t: Tid, ring: State, pc: Wpc) { t < |w.pcs| && w.pcs[t] == pc && w.ring == ring }

  predicate KeepsWakes(w: World, w': World) { w'.asleep == w.asleep && w'.tokens == w.tokens }

  // A ring operation of thread t runs as it would in the ring alone.
  lemma WithinOnward(c: Config, cons: set<Tid>, w: World, t: Tid)
    requires Fine(c, w, t) && !PcPlace(w.pcs[t]).Nowhere?
    ensures var ring' := Onward(c, w.ring, t);
      ArrivesAt(WOnward(c, cons, w, t), t, ring', if ring'.threads[t].pc.Idle? then Finish(w.pcs[t], Proceed, ring'.threads[t].pc.res) else w.pcs[t])
    ensures KeepsWakes(w, WOnward(c, cons, w, t))
  {
    var pc := Onward(c, w.ring, t).threads[t].pc;
    LoneIs(w, w.pcs[t], if pc.Idle? then pc.res else Nothing);
    hide Lone, Step, Inv, Finish;
  }

  // What Fine says about sizes and places.
  lemma FineFacts(c: Config, w: World, t: Tid)
    requires Fine(c, w, t)
    ensures Inv(c, w.ring) && t < |w.pcs| == |w.ring.threads| && Sized(c, w.ring.q)
    ensures !PcPlace(w.pcs[t]).Nowhere? ==> !w.ring.threads[t].pc.Idle?
  {
  }

  // Where a ring operation that ends in the state end leaves its call.
  predicate EndsAt(w: World, t: Tid, end: State, pc: Wpc) {
    t < |end.threads| && end.threads[t].pc.Idle? && ArrivesAt(w, t, end, Finish(pc, Proceed, end.threads[t].pc.res))
  }

  // One step of it.
  lemma OpStep(c: Config, cons: set<Tid>, w: World, t: Tid) returns (w1: World)
    requires Fine(c, w, t) && !PcPlace(w.pcs[t]).Nowhere?
    ensures Leads(c, cons, w, w1, t) && Fine(c, w1, t) && t < |w1.pcs| && Inv(c, w.ring) && t < |w.ring.threads|
    ensures var ring1 := Onward(c, w.ring, t);
      if ring1.threads[t].pc.Idle? then EndsAt(w1, t, ring1, w.pcs[t]) else w1.pcs[t] == w.pcs[t] && w1.ring == ring1
    ensures !w.ring.threads[t].pc.Idle? && KeepsWakes(w, w1)
  {
    FineFacts(c, w, t);
    WithinOnward(c, cons, w, t);
    LeadsOne(c, cons, w, t);
    hide Fine, Inv, WOnward, Onward, Finish, PcPlace, Leads;
    w1 := WOnward(c, cons, w, t);
  }

  // It ends as it does there, and the call goes on from its result.
  lemma {:induction false} OpEnds(c: Config, cons: set<Tid>, w: World, t: Tid, n: nat, end: State) returns (w': World)
    requires Fine(c, w, t) && !PcPlace(w.pcs[t]).Nowhere? && end == Solo(c, w.ring, t, n) && end.threads[t].pc.Idle?
    ensures Leads(c, cons, w, w', t) && EndsAt(w', t, end, w.pcs[t]) && KeepsWakes(w, w')
    decreases n
  {
    hide Fine, Inv, Onward, PcPlace, Leads, Solo, EndsAt;
    var w1 := OpStep(c, cons, w, t);
    SoloFirst(c, w.ring, t, n);
    var ring1 := Onward(c, w.ring, t);
    if ring1.threads[t].pc.Idle? {
      IdleStays(c, ring1, t, n - 1);
      w' := w1;
    } else {
      w' := OpEnds(c, cons, w1, t, n - 1, end);
      LeadsOn(c, cons, w, w1, w', t);
    }
  }

  // The start of a ring operation.
  lemma EnterOnward(c: Config, cons: set<Tid>, w: World, t: Tid)
    requires Fine(c, w, t) && PcPlace(w.pcs[t]).Nowhere? && Entering(w.pcs[t], Proceed).Enters?
    ensures !PcPlace(Entering(w.pcs[t], Proceed).pc).Nowhere?
    ensures var e := Entering(w.pcs[t], Proceed); ArrivesAt(WOnward(c, cons, w, t), t, To(w.ring, t, w.ring.q, First(e.call)), e.pc)
    ensures KeepsWakes(w, WOnward(c, cons, w, t))
  {
    LoneIs(w, w.pcs[t], Nothing);
    StartPlace(c, w.ring, t, Entering(w.pcs[t], Proceed).call);
    hide Step, Inv, Lone;
  }

  // A ring operation from its start to its end.
  lemma OpRuns(c: Config, cons: set<Tid>, w: World, t: Tid, e: BitmapWake.Entry, start: State, n: nat) returns (w': World)
    requires Fine(c, w, t) && PcPlace(w.pcs[t]).Nowhere? && e == Entering(w.pcs[t], Proceed) && e.Enters?
    requires Inv(c, start) && start == To(w.ring, t, w.ring.q, First(e.call)) && t < |start.threads|
    requires Solo(c, start, t, n).threads[t].pc.Idle?
    ensures Leads(c, cons, w, w', t)
    ensures EndsAt(w', t, Solo(c, start, t, n), e.pc) && KeepsWakes(w, w')
  {
    FineFacts(c, w, t);
    EnterOnward(c, cons, w, t);
    LeadsOne(c, cons, w, t);
    hide Fine, Inv, WOnward, Onward, Finish, PcPlace, Solo, Entering, To, Leads;
    var w1 := WOnward(c, cons, w, t);
    w' := OpEnds(c, cons, w1, t, n, Solo(c, start, t, n));
    LeadsOn(c, cons, w, w1, w', t);
  }

  lemma StartInv(c: Config, w: World, t: Tid, call: Call)
    requires Fine(c, w, t) && PcPlace(w.pcs[t]).Nowhere?
    ensures t < |w.ring.threads| && Inv(c, To(w.ring, t, w.ring.q, First(call)))
  {
    StartPlace(c, w.ring, t, call);
    StepInv(c, w.ring, t, Start(call));
  }

  // ------------------------------------------------------------ what there is to find

  // One of Pop's looks, at a ring with an event to take.
  lemma LookTakes(c: Config, cons: set<Tid>, w: World, t: Tid) returns (w': World)
    requires Fine(c, w, t) && w.pcs[t].NextPop? && ShownAt(w.ring.q, PastTombs(w.ring.q, w.ring.q.head))
    ensures Leads(c, cons, w, w', t) && t < |w.pcs| && t < |w'.pcs| && KeepsWakes(w, w')
    ensures var p := PastTombs(w.ring.q, w.ring.q.head);
      && w'.pcs[t] == AfterPop(w.pcs[t].site, PopOK(p, w.ring.q.log[p].v))
      && w'.ring.q.head == p + 1 && (ShownAt(w'.ring.q, p + 1) <==> ShownAt(w.ring.q, p + 1))
  {
    StartInv(c, w, t, TryPop);
    var start := To(w.ring, t, w.ring.q, PopLoad);
    var n := LonePop(c, start, t);
    w' := OpRuns(c, cons, w, t, Enters(TryPop, Popping(w.pcs[t].site)), start, n);
    hide Fine, Inv, WSolo, Solo, Leads;
  }

  /** Alone, Pop returns the first live event that is published behind at most tombstones, and its position. */
  lemma LonePopTakes(c: Config, cons: set<Tid>, w: World, t: Tid) returns (w': World)
    requires Fine(c, w, t) && w.pcs[t] == NextPop(Opening) && ShownAt(w.ring.q, PastTombs(w.ring.q, w.ring.q.head))
    ensures Leads(c, cons, w, w', t) && t < |w'.pcs|
    ensures var p := PastTombs(w.ring.q, w.ring.q.head);
      w'.pcs[t] == Out(Told(PopOK(p, w.ring.q.log[p].v))) && w'.ring.q.head == p + 1
  {
    w' := LookTakes(c, cons, w, t);
  }

  // ------------------------------------------------------------ woken

  // A step outside the ring.
  lemma LocalOnward(c: Config, cons: set<Tid>, w: World, t: Tid)
    requires Fine(c, w, t) && PcPlace(w.pcs[t]).Nowhere? && Entering(w.pcs[t], Proceed).NoEntry?
    ensures WOnward(c, cons, w, t) == Local(cons, w, t, Lone(w))
  {
    LoneIs(w, w.pcs[t], Nothing);
    hide Inv, Step, Lone, Local;
  }

  // A token ends the sleep, and a look follows.
  lemma TokenWakes(c: Config, cons: set<Tid>, w: World, t: Tid) returns (w': World)
    requires Fine(c, w, t) && w.pcs[t].Block? && t in w.tokens
    ensures Leads(c, cons, w, w', t) && t < |w'.pcs| && w'.pcs[t] == NextPop(Woken)
    ensures w'.ring == w.ring && w'.asleep == w.asleep - {t} && w'.tokens == w.tokens - {t}
  {
    hide Inv, Leads;
    LeadsOne(c, cons, w, t);
    LocalOnward(c, cons, w, t);
    var w1 := WOnward(c, cons, w, t);
    LeadsOne(c, cons, w1, t);
    LocalOnward(c, cons, w1, t);
    w' := WOnward(c, cons, w1, t);
    hide Fine, WOnward;
    LeadsOn(c, cons, w, w1, w', t);
  }

  lemma PeekSees(c: Config, cons: set<Tid>, w: World, t: Tid) returns (w': World)
    requires Fine(c, w, t) && w.pcs[t].NextPeek?
    ensures Leads(c, cons, w, w', t) && t < |w.pcs| && t < |w'.pcs| && KeepsWakes(w, w')
    ensures w'.pcs[t] == if ShownAt(w.ring.q, w.ring.q.head) then N1(Return(w.pcs[t].ans)) else Out(w.pcs[t].ans)
  {
    hide Inv, Solo, Leads, WOnward, ShownAt, KeepsWakes;
    StartInv(c, w, t, Peek);
    var start := To(w.ring, t, w.ring.q, PeekHead);
    LonePeek(c, start, t);
    hide Fine;
    w' := OpRuns(c, cons, w, t, Enters(Peek, Peeking(w.pcs[t].ans)), start, 2);
  }

  // The thread has given one sleeper a token; without sleepers, nobody.
  ghost predicate WakesOne(asleep: set<Tid>, tokens: set<Tid>, w': World) {
    if asleep == {} then w'.asleep == {} && w'.tokens == tokens
    else exists u: Tid :: u in asleep && w'.asleep == asleep - {u} && w'.tokens == tokens + {u}
  }

  lemma NotifyWakes(c: Config, cons: set<Tid>, w: World, t: Tid) returns (w': World)
    requires Fine(c, w, t) && w.pcs[t].N1?
    ensures Leads(c, cons, w, w', t) && t < |w.pcs| && t < |w'.pcs| && w'.pcs[t] == Resume(w.pcs[t].nx) && w'.ring == w.ring
    ensures WakesOne(w.asleep, w.tokens, w')
  {
    hide Leads, Inv;
    LeadsOne(c, cons, w, t);
    LocalOnward(c, cons, w, t);
    var w1 := WOnward(c, cons, w, t);
    if w.asleep == {} {
      w' := w1;
    } else {
      var u := w1.pcs[t].i;
      LeadsOne(c, cons, w1, t);
      LocalOnward(c, cons, w1, t);
      var w2 := WOnward(c, cons, w1, t);
      LeadsOne(c, cons, w2, t);
      LocalOnward(c, cons, w2, t);
      w' := WOnward(c, cons, w2, t);
      hide Fine, WOnward;
      LeadsOn(c, cons, w, w1, w2, t);
      LeadsOn(c, cons, w, w2, w', t);
    }
  }

  /**
   * Alone, a consumer with a token wakes, returns the first live event, and hands
   * the wake on: if there is another event behind it, one more sleeper gets a token.
   */
  lemma LoneWakeTakes(c: Config, cons: set<Tid>, w: World, t: Tid) returns (w': World)
    requires Fine(c, w, t) && w.pcs[t].Block? && t in w.tokens && ShownAt(w.ring.q, PastTombs(w.ring.q, w.ring.q.head))
    ensures Leads(c, cons, w, w', t) && t < |w'.pcs|
    ensures var p := PastTombs(w.ring.q, w.ring.q.head);
      && w'.pcs[t] == Out(Told(PopOK(p, w.ring.q.log[p].v)))
      && if ShownAt(w.ring.q, p + 1) then WakesOne(w.asleep - {t}, w.tokens - {t}, w')
         else w'.asleep == w.asleep - {t} && w'.tokens == w.tokens - {t}
  {
    hide Fine, Leads, WakesOne;
    var w1 := TokenWakes(c, cons, w, t);
    LeadsFine(c, cons, w, w1, t);
    var w2 := LookTakes(c, cons, w1, t);
    LeadsFine(c, cons, w1, w2, t);
    LeadsOn(c, cons, w, w1, w2, t);
    w' := PeekSees(c, cons, w2, t);
    LeadsOn(c, cons, w, w2, w', t);
    if w'.pcs[t].N1? {
      var w3 := w';
      LeadsFine(c, cons, w, w3, t);
      w' := NotifyWakes(c, cons, w3, t);
      LeadsOn(c, cons, w, w3, w', t);
    }
  }

  lemma LoneDrain(c: Config, s: State, t: Tid)
    requires Inv(c, s) && t < |s.threads| && s.threads[t].pc == DrainTail && c.rule.GoRule?
    requires s.q.closed && s.q.closedAt != 0 && s.q.head == s.q.limit
    ensures Solo(c, s, t, 3) == To(s, t, s.q, Idle(Drained))
  {
    var s1, s2 := Onward(c, s, t), Onward(c, Onward(c, s, t), t);
    assert s1 == To(s, t, s.q, DrainEnd);
    assert s2 == To(s, t, s.q, DrainHead(s.q.limit));
    assert Onward(c, s2, t) == To(s, t, s.q, Idle(Drained));
    hide Inv, Onward;
    SoloNext(c, s, t, 0);
    SoloNext(c, s, t, 1);
    SoloNext(c, s, t, 2);
  }

  // One of Pop's looks, at a ring with nothing left in it.
  lemma LookPasses(c: Config, cons: set<Tid>, w: World, t: Tid) returns (w': World)
    requires Fine(c, w, t) && w.pcs[t].NextPop? && w.ring.q.head == |w.ring.q.log|
    ensures Leads(c, cons, w, w', t) && t < |w.pcs| && t < |w'.pcs|
    ensures w'.pcs[t] == AfterPop(w.pcs[t].site, PopEmpty) && w'.ring.q == w.ring.q && KeepsWakes(w, w')
  {
    StartInv(c, w, t, TryPop);
    var start := To(w.ring, t, w.ring.q, PopLoad);
    LoneLook(c, start, t);
    w' := OpRuns(c, cons, w, t, Enters(TryPop, Popping(w.pcs[t].site)), start, 2);
    hide Fine, Inv, WSolo, Solo, Leads;
  }

  // Closed, recorded, and every position claimed.
  predicate AllClaimed(q: Shared) { q.closed && q.closedAt != 0 && q.head == q.limit }

  lemma LookDrains(c: Config, cons: set<Tid>, w: World, t: Tid) returns (w': World)
    requires Fine(c, w, t) && w.pcs[t] == NextDrain && c.rule.GoRule? && AllClaimed(w.ring.q)
    ensures Leads(c, cons, w, w', t) && t < |w'.pcs| && w'.pcs[t] == Out(Told(Drained))
  {
    StartInv(c, w, t, Drain);
    var start := To(w.ring, t, w.ring.q, DrainTail);
    LoneDrain(c, start, t);
    w' := OpRuns(c, cons, w, t, Enters(Drain, Draining), start, 3);
    hide Fine, Inv, WSolo, Solo, Leads;
  }

  lemma NothingLeft(c: Config, w: World, t: Tid)
    requires Fine(c, w, t) && c.rule.GoRule? && AllClaimed(w.ring.q)
    ensures w.ring.q.head == |w.ring.q.log|
  {
  }

  /** Alone, Pop on a closed ring from which every position has been claimed returns drained, once Close has recorded its position. */
  lemma LonePopDrains(c: Config, cons: set<Tid>, w: World, t: Tid) returns (w': World)
    requires Fine(c, w, t) && w.pcs[t] == NextPop(Opening) && c.rule.GoRule? && AllClaimed(w.ring.q)
    ensures Leads(c, cons, w, w', t) && t < |w'.pcs| && w'.pcs[t] == Out(Told(Drained))
  {
    NothingLeft(c, w, t);
    hide Fine, Leads, AllClaimed;
    var w1 := LookPasses(c, cons, w, t);
    LeadsFine(c, cons, w, w1, t);
    var w2 := LookPasses(c, cons, w1, t);
    LeadsFine(c, cons, w1, w2, t);
    w' := LookDrains(c, cons, w2, t);
    LeadsOn(c, cons, w, w1, w2, t);
    LeadsOn(c, cons, w, w2, w', t);
  }

  // ------------------------------------------------------------ nothing yet

  lemma OpenLook(c: Config, cons: set<Tid>, w: World, t: Tid) returns (w': World)
    requires Fine(c, w, t) && w.pcs[t] == NextDrain && !w.ring.q.closed
    ensures Leads(c, cons, w, w', t) && t < |w'.pcs| && w'.pcs[t] == Prepare && w'.ring.q == w.ring.q && KeepsWakes(w, w')
  {
    StartInv(c, w, t, Drain);
    var start := To(w.ring, t, w.ring.q, DrainTail);
    SoloNext(c, start, t, 0);
    assert Onward(c, start, t) == To(start, t, start.q, Idle(Open));
    w' := OpRuns(c, cons, w, t, Enters(Drain, Draining), start, 1);
    hide Fine, Inv, WSolo, Solo, Leads;
  }

  lemma PrepareAnnounces(c: Config, cons: set<Tid>, w: World, t: Tid) returns (w': World)
    requires Fine(c, w, t) && w.pcs[t].Prepare?
    ensures Leads(c, cons, w, w', t) && t < |w'.pcs| && w'.pcs[t] == NextPop(Recheck)
    ensures w'.ring == w.ring && w'.asleep == w.asleep + {t} && w'.tokens == w.tokens
  {
    hide Inv, Leads;
    LeadsOne(c, cons, w, t);
    LocalOnward(c, cons, w, t);
    w' := WOnward(c, cons, w, t);
  }

  lemma TailOpen(c: Config, cons: set<Tid>, w: World, t: Tid) returns (w': World)
    requires Fine(c, w, t) && w.pcs[t].LookTail? && !w.ring.q.closed
    ensures Leads(c, cons, w, w', t) && t < |w'.pcs| && w'.pcs[t] == Block && w'.ring == w.ring && KeepsWakes(w, w')
  {
    hide Inv, Leads;
    LeadsOne(c, cons, w, t);
    LocalOnward(c, cons, w, t);
    var w1 := WOnward(c, cons, w, t);
    LeadsOne(c, cons, w1, t);
    LocalOnward(c, cons, w1, t);
    w' := WOnward(c, cons, w1, t);
    hide Fine, WOnward;
    LeadsOn(c, cons, w, w1, w', t);
  }

  /** Alone, Pop on an open ring with nothing in it goes to sleep, announced. */
  lemma LonePopSleeps(c: Config, cons: set<Tid>, w: World, t: Tid) returns (w': World)
    requires Fine(c, w, t) && w.pcs[t] == NextPop(Opening) && !w.ring.q.closed && w.ring.q.head == |w.ring.q.log|
    ensures Leads(c, cons, w, w', t) && t < |w'.pcs| && w'.pcs[t] == Block
    ensures w'.ring.q == w.ring.q && w'.asleep == w.asleep + {t} && w'.tokens == w.tokens
  {
    hide Fine, Leads;
    var w1 := LookPasses(c, cons, w, t);
    LeadsFine(c, cons, w, w1, t);
    var w2 := LookPasses(c, cons, w1, t);
    LeadsFine(c, cons, w1, w2, t);
    LeadsOn(c, cons, w, w1, w2, t);
    var w3 := OpenLook(c, cons, w2, t);
    LeadsFine(c, cons, w2, w3, t);
    LeadsOn(c, cons, w, w2, w3, t);
    var w4 := PrepareAnnounces(c, cons, w3, t);
    LeadsFine(c, cons, w3, w4, t);
    LeadsOn(c, cons, w, w3, w4, t);
    var w5 := LookPasses(c, cons, w4, t);
    LeadsFine(c, cons, w4, w5, t);
    LeadsOn(c, cons, w, w4, w5, t);
    w' := TailOpen(c, cons, w5, t);
    LeadsOn(c, cons, w, w5, w', t);
  }

  // A step of thread t whose deadline has passed.
  ghost function Late(c: Config, cons: set<Tid>, w: World, t: Tid): (w': World)
    requires Fine(c, w, t)
    ensures Fine(c, w', t)
  {
    StepStepped(c, cons, w, t, Timeout);
    WStep(c, cons, w, t, Timeout)
  }

  /** A Pop that finds its deadline passed withdraws its announcement and says so. */
  lemma LateGivesUp(c: Config, cons: set<Tid>, w: World, t: Tid) returns (w': World)
    requires Fine(c, w, t) && w.pcs[t].Decide? && t in w.asleep
    ensures Leads(c, cons, Late(c, cons, w, t), w', t) && t < |w'.pcs| && w'.pcs[t] == Out(TimedOut)
    ensures w'.ring == w.ring && w'.asleep == w.asleep - {t} && w'.tokens == w.tokens
  {
    var w1 := Late(c, cons, w, t);
    assert w1 == At(w, t, Cancel(Return(TimedOut)));
    hide Inv, Leads, Late;
    LeadsOne(c, cons, w1, t);
    LocalOnward(c, cons, w1, t);
    w' := WOnward(c, cons, w1, t);
  }

  // ------------------------------------------------------------ pushes

  lemma PushEnds(c: Config, cons: set<Tid>, w: World, t: Tid, v: Value) returns (w': World)
    requires Fine(c, w, t) && w.pcs[t].Pushing? && t < |w.ring.threads| && w.ring.threads[t].pc == ClaimLoad(v, Plain)
    requires !w.ring.q.closed && Vacant(c, w.ring.q, w.ring.q.tail)
    ensures Leads(c, cons, w, w', t) && t < |w'.pcs| && w'.pcs[t] == N1(Return(Told(PushOK(w.ring.q.tail))))
    ensures PushedAt(w.ring, w'.ring, t, v) && KeepsWakes(w, w')
  {
    FineFacts(c, w, t);
    LonePush(c, w.ring, t, v);
    hide Fine, Inv, Solo, Leads, Vacant;
    w' := OpEnds(c, cons, w, t, 5, Solo(c, w.ring, t, 5));
  }

  /** Alone, a TryPush on an open ring with room publishes its value at the tail, gives a sleeper a token if there is one, and says ok. */
  lemma LonePushWakes(c: Config, cons: set<Tid>, w: World, t: Tid, v: Value) returns (w': World)
    requires Fine(c, w, t) && w.pcs[t].Pushing? && t < |w.ring.threads| && w.ring.threads[t].pc == ClaimLoad(v, Plain)
    requires !w.ring.q.closed && Vacant(c, w.ring.q, w.ring.q.tail)
    ensures Leads(c, cons, w, w', t) && t < |w'.pcs| && w'.pcs[t] == Out(Told(PushOK(w.ring.q.tail)))
    ensures PushedAt(w.ring, w'.ring, t, v) && WakesOne(w.asleep, w.tokens, w')
  {
    hide Fine, Leads, WakesOne, PushedAt, Vacant;
    var w1 := PushEnds(c, cons, w, t, v);
    LeadsFine(c, cons, w, w1, t);
    w' := NotifyWakes(c, cons, w1, t);
    LeadsOn(c, cons, w, w1, w', t);
  }
}

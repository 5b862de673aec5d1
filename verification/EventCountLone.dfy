/** The C++ pop, run undisturbed from any reachable state: it finds what there is to find. */
module EventCountLone {
  import opened Slots
  import opened Ring
  import opened RingInvariant
  import opened RingSteps
  import opened RingTheorems
  import opened RingCalls
  import opened RingLone
  import opened EventCount
  import opened EventCountSafety

  ghost predicate Fine(c: Config, w: World, t: Tid) {
    Inv(c, w.ring) && t < |w.pcs| == |w.ring.threads| && Agree(w, t)
  }

  // In time, and a wake reaches a sleeper if there is one.
  ghost function Lone(w: World): EChoice { if w.asleep == {} then Proceed else var u :| u in w.asleep; Pick(u) }

  lemma LoneIs(w: World, pc: Epc, res: Result)
    ensures Entering(pc, Lone(w)) == Entering(pc, Proceed) && Finish(pc, Lone(w), res) == Finish(pc, Proceed, res)
  {
  }

  // Thread t takes a step.
  ghost function EOnward(c: Config, p: Protocol, cons: set<Tid>, w: World, t: Tid): (w': World)
    requires Fine(c, w, t)
    ensures Fine(c, w', t)
  {
    StepStepped(c, p, cons, w, t, Lone(w));
    EStep(c, p, cons, w, t, Lone(w))
  }

  /** The state after n more steps of thread t alone. */
  ghost function ESolo(c: Config, p: Protocol, cons: set<Tid>, w: World, t: Tid, n: nat): (w': World)
    requires Fine(c, w, t)
    ensures Fine(c, w', t)
    decreases n
  {
    if n == 0 then w else ESolo(c, p, cons, EOnward(c, p, cons, w, t), t, n - 1)
  }

  lemma {:induction false} ESoloTwice(c: Config, p: Protocol, cons: set<Tid>, w: World, t: Tid, m: nat, n: nat)
    requires Fine(c, w, t)
    ensures ESolo(c, p, cons, ESolo(c, p, cons, w, t, m), t, n) == ESolo(c, p, cons, w, t, m + n)
    decreases m
  {
    hide Fine, EOnward;
    if m > 0 { ESoloTwice(c, p, cons, EOnward(c, p, cons, w, t), t, m - 1, n); }
  }

  /** Thread t, running alone, comes from w to w'. */
  ghost predicate Leads(c: Config, p: Protocol, cons: set<Tid>, w: World, w': World, t: Tid) {
    Fine(c, w, t) && exists n: nat :: ESolo(c, p, cons, w, t, n) == w'
  }

  lemma LeadsOne(c: Config, p: Protocol, cons: set<Tid>, w: World, t: Tid)
    requires Fine(c, w, t)
    ensures Leads(c, p, cons, w, EOnward(c, p, cons, w, t), t)
  {
    hide Fine, EOnward;
    var w1 := EOnward(c, p, cons, w, t);
    assert ESolo(c, p, cons, w1, t, 0) == w1;
    assert ESolo(c, p, cons, w, t, 1) == w1;
  }

  lemma LeadsOn(c: Config, p: Protocol, cons: set<Tid>, w: World, w1: World, w2: World, t: Tid)
    requires Leads(c, p, cons, w, w1, t) && Leads(c, p, cons, w1, w2, t)
    ensures Leads(c, p, cons, w, w2, t)
  {
    hide Fine, EOnward;
    var m: nat :| ESolo(c, p, cons, w, t, m) == w1;
    var n: nat :| ESolo(c, p, cons, w1, t, n) == w2;
    ESoloTwice(c, p, cons, w, t, m, n);
    hide ESolo;
  }

  lemma LeadsFine(c: Config, p: Protocol, cons: set<Tid>, w: World, w': World, t: Tid)
    requires Leads(c, p, cons, w, w', t)
    ensures Fine(c, w', t) && t < |w'.pcs|
  {
    var n: nat :| ESolo(c, p, cons, w, t, n) == w';
    hide ESolo;
  }

  predicate ArrivesAt(w: World, t: Tid, ring: State, pc: Epc) { t < |w.pcs| && w.pcs[t] == pc && w.ring == ring }

  predicate KeepsWakes(w: World, w': World) {
    w'.asleep == w.asleep && w'.waiters == w.waiters && w'.pending == w.pending && w'.epoch == w.epoch
  }

  // A ring operation of thread t runs as it would in the ring alone.
  lemma WithinOnward(c: Config, p: Protocol, cons: set<Tid>, w: World, t: Tid)
    requires Fine(c, w, t) && !PcPlace(w.pcs[t]).Nowhere?
    ensures var ring' := Onward(c, w.ring, t);
      ArrivesAt(EOnward(c, p, cons, w, t), t, ring', if ring'.threads[t].pc.Idle? then Finish(w.pcs[t], Proceed, ring'.threads[t].pc.res) else w.pcs[t])
    ensures KeepsWakes(w, EOnward(c, p, cons, w, t))
  {
    var pc := Onward(c, w.ring, t).threads[t].pc;
    LoneIs(w, w.pcs[t], if pc.Idle? then pc.res else Nothing);
    hide Lone, Step, Inv, Finish;
  }

  // What Fine says about sizes and places.
  lemma FineFacts(c: Config, w: World, t: Tid)
    requires Fine(c, w, t)
    ensures Inv(c, w.ring) && t < |w.pcs| == |w.ring.threads| && Sized(c, w.ring.q)
    ensures !PcPlace(w.pcs[t]).Nowhere? ==> !w.ring.threads[t].pc.Idle?
  {
  }

  // Where a ring operation that ends in the state end leaves its call.
  predicate EndsAt(w: World, t: Tid, end: State, pc: Epc) {
    t < |end.threads| && end.threads[t].pc.Idle? && ArrivesAt(w, t, end, Finish(pc, Proceed, end.threads[t].pc.res))
  }

  // One step of it.
  lemma OpStep(c: Config, p: Protocol, cons: set<Tid>, w: World, t: Tid) returns (w1: World)
    requires Fine(c, w, t) && !PcPlace(w.pcs[t]).Nowhere?
    ensures Leads(c, p, cons, w, w1, t) && Fine(c, w1, t) && t < |w1.pcs| && Inv(c, w.ring) && t < |w.ring.threads|
    ensures var ring1 := Onward(c, w.ring, t);
      if ring1.threads[t].pc.Idle? then EndsAt(w1, t, ring1, w.pcs[t]) else w1.pcs[t] == w.pcs[t] && w1.ring == ring1
    ensures !w.ring.threads[t].pc.Idle? && KeepsWakes(w, w1)
  {
    FineFacts(c, w, t);
    WithinOnward(c, p, cons, w, t);
    LeadsOne(c, p, cons, w, t);
    hide Fine, Inv, EOnward, Onward, Finish, PcPlace, Leads;
    w1 := EOnward(c, p, cons, w, t);
  }

  // It ends as it does there, and the call goes on from its result.
  lemma {:induction false} OpEnds(c: Config, p: Protocol, cons: set<Tid>, w: World, t: Tid, n: nat, end: State) returns (w': World)
    requires Fine(c, w, t) && !PcPlace(w.pcs[t]).Nowhere? && end == Solo(c, w.ring, t, n) && end.threads[t].pc.Idle?
    ensures Leads(c, p, cons, w, w', t) && EndsAt(w', t, end, w.pcs[t]) && KeepsWakes(w, w')
    decreases n
  {
    hide Fine, Inv, Onward, PcPlace, Leads, Solo, EndsAt;
    var w1 := OpStep(c, p, cons, w, t);
    SoloFirst(c, w.ring, t, n);
    var ring1 := Onward(c, w.ring, t);
    if ring1.threads[t].pc.Idle? {
      IdleStays(c, ring1, t, n - 1);
      w' := w1;
    } else {
      w' := OpEnds(c, p, cons, w1, t, n - 1, end);
      LeadsOn(c, p, cons, w, w1, w', t);
    }
  }

  // The start of a ring operation.
  lemma EnterOnward(c: Config, p: Protocol, cons: set<Tid>, w: World, t: Tid)
    requires Fine(c, w, t) && PcPlace(w.pcs[t]).Nowhere? && Entering(w.pcs[t], Proceed).Enters?
    ensures !PcPlace(Entering(w.pcs[t], Proceed).pc).Nowhere?
    ensures var e := Entering(w.pcs[t], Proceed); ArrivesAt(EOnward(c, p, cons, w, t), t, To(w.ring, t, w.ring.q, First(e.call)), e.pc)
    ensures KeepsWakes(w, EOnward(c, p, cons, w, t))
  {
    LoneIs(w, w.pcs[t], Nothing);
    StartPlace(c, w.ring, t, Entering(w.pcs[t], Proceed).call);
    hide Step, Inv, Lone;
  }

  // A ring operation from its start to its end.
  lemma OpRuns(c: Config, p: Protocol, cons: set<Tid>, w: World, t: Tid, e: EventCount.Entry, start: State, n: nat) returns (w': World)
    requires Fine(c, w, t) && PcPlace(w.pcs[t]).Nowhere? && e == Entering(w.pcs[t], Proceed) && e.Enters?
    requires Inv(c, start) && start == To(w.ring, t, w.ring.q, First(e.call)) && t < |start.threads|
    requires Solo(c, start, t, n).threads[t].pc.Idle?
    ensures Leads(c, p, cons, w, w', t)
    ensures EndsAt(w', t, Solo(c, start, t, n), e.pc) && KeepsWakes(w, w')
  {
    FineFacts(c, w, t);
    EnterOnward(c, p, cons, w, t);
    LeadsOne(c, p, cons, w, t);
    hide Fine, Inv, EOnward, Onward, Finish, PcPlace, Solo, Entering, To, Leads;
    var w1 := EOnward(c, p, cons, w, t);
    w' := OpEnds(c, p, cons, w1, t, n, Solo(c, start, t, n));
    LeadsOn(c, p, cons, w, w1, w', t);
  }

  lemma StartInv(c: Config, w: World, t: Tid, call: Call)
    requires Fine(c, w, t) && PcPlace(w.pcs[t]).Nowhere?
    ensures t < |w.ring.threads| && Inv(c, To(w.ring, t, w.ring.q, First(call)))
  {
    StartPlace(c, w.ring, t, call);
    StepInv(c, w.ring, t, Start(call));
  }

  // ------------------------------------------------------------ what there is to find

  // One of pop's looks, at a ring with an event to take.
  lemma LookTakes(c: Config, p: Protocol, cons: set<Tid>, w: World, t: Tid) returns (w': World)
    requires Fine(c, w, t) && w.pcs[t].NextPop? && ShownAt(w.ring.q, PastTombs(w.ring.q, w.ring.q.head))
    ensures Leads(c, p, cons, w, w', t) && t < |w.pcs| && t < |w'.pcs| && KeepsWakes(w, w')
    ensures var at := PastTombs(w.ring.q, w.ring.q.head);
      && w'.pcs[t] == AfterPop(w.pcs[t].site, PopOK(at, w.ring.q.log[at].v))
      && w'.ring.q.head == at + 1 && (ShownAt(w'.ring.q, at + 1) <==> ShownAt(w.ring.q, at + 1))
  {
    StartInv(c, w, t, TryPop);
    var start := To(w.ring, t, w.ring.q, PopLoad);
    var n := LonePop(c, start, t);
    w' := OpRuns(c, p, cons, w, t, Enters(TryPop, Popping(w.pcs[t].site)), start, n);
    hide Fine, Inv, ESolo, Solo, Leads;
  }

  /** Alone, pop returns the first live event that is published behind at most tombstones, and its position. */
  lemma LonePopTakes(c: Config, p: Protocol, cons: set<Tid>, w: World, t: Tid) returns (w': World)
    requires Fine(c, w, t) && w.pcs[t] == NextPop(Opening) && ShownAt(w.ring.q, PastTombs(w.ring.q, w.ring.q.head))
    ensures Leads(c, p, cons, w, w', t) && t < |w'.pcs|
    ensures var at := PastTombs(w.ring.q, w.ring.q.head);
      w'.pcs[t] == Out(Told(PopOK(at, w.ring.q.log[at].v))) && w'.ring.q.head == at + 1
  {
    w' := LookTakes(c, p, cons, w, t);
  }

  // ------------------------------------------------------------ woken

  // A step outside the ring.
  lemma LocalOnward(c: Config, p: Protocol, cons: set<Tid>, w: World, t: Tid)
    requires Fine(c, w, t) && PcPlace(w.pcs[t]).Nowhere? && Entering(w.pcs[t], Proceed).NoEntry?
    ensures EOnward(c, p, cons, w, t) == Local(p, cons, w, t, Lone(w))
  {
    LoneIs(w, w.pcs[t], Nothing);
    hide Inv, Step, Lone, Local;
  }

  // The operating system has woken thread t, and the epoch has moved past its key.
  predicate Notified(w: World, t: Tid) {
    t < |w.pcs| && w.pcs[t].Blocked? && t !in w.asleep && w.epoch != w.pcs[t].key
  }

  // One step of a thread that leaves wait.
  lemma WakeStep(c: Config, p: Protocol, cons: set<Tid>, w: World, t: Tid)
    requires Fine(c, w, t) && (Notified(w, t) || (w.pcs[t].Test? && w.epoch != w.pcs[t].key) || w.pcs[t].Delist? || w.pcs[t].Absorb?)
    ensures EOnward(c, p, cons, w, t) == WaitStep(p, w, t, Lone(w)) && Leads(c, p, cons, w, EOnward(c, p, cons, w, t), t)
  {
    LocalOnward(c, p, cons, w, t);
    LeadsOne(c, p, cons, w, t);
    hide Fine, EOnward, Leads, WaitStep, Lone;
  }

  function Unlisted(p: Protocol, w: World): nat { if p.EpochOnly? then w.waiters else Sub1(w.waiters) }

  // The sleeper leaves the wait.
  lemma WakeLeaves(c: Config, p: Protocol, cons: set<Tid>, w: World, t: Tid) returns (w': World)
    requires Fine(c, w, t) && Notified(w, t)
    ensures Leads(c, p, cons, w, w', t) && Fine(c, w', t) && t < |w'.pcs| && w'.pcs[t] == if p.EpochOnly? then NextPop(Woken) else Delist
    ensures w'.ring == w.ring && KeepsWakes(w, w')
  {
    hide Inv, Leads;
    WakeStep(c, p, cons, w, t);
    var w1 := EOnward(c, p, cons, w, t);
    WakeStep(c, p, cons, w1, t);
    w' := EOnward(c, p, cons, w1, t);
    LeadsOn(c, p, cons, w, w1, w', t);
  }

  // It takes itself off the count.
  lemma Delists(c: Config, p: Protocol, cons: set<Tid>, w: World, t: Tid) returns (w': World)
    requires Fine(c, w, t) && w.pcs[t].Delist?
    ensures Leads(c, p, cons, w, w', t) && t < |w'.pcs| && w'.pcs[t] == NextPop(Woken)
    ensures w'.ring == w.ring && w'.asleep == w.asleep && w'.epoch == w.epoch && w'.waiters == Sub1(w.waiters) && !w'.pending
  {
    hide Inv, Leads;
    WakeStep(c, p, cons, w, t);
    var w1 := EOnward(c, p, cons, w, t);
    WakeStep(c, p, cons, w1, t);
    w' := EOnward(c, p, cons, w1, t);
    LeadsOn(c, p, cons, w, w1, w', t);
  }

  /** A wake ends the sleep, and a look follows; the event counts have forgotten the sleeper by then. */
  lemma WakeLooks(c: Config, p: Protocol, cons: set<Tid>, w: World, t: Tid) returns (w': World)
    requires Fine(c, w, t) && Notified(w, t)
    ensures Leads(c, p, cons, w, w', t) && t < |w'.pcs| && w'.pcs[t] == NextPop(Woken)
    ensures w'.ring == w.ring && w'.asleep == w.asleep && w'.epoch == w.epoch
    ensures w'.waiters == Unlisted(p, w) && w'.pending == (p.EpochOnly? && w.pending)
  {
    hide Fine, Leads;
    w' := WakeLeaves(c, p, cons, w, t);
    if !p.EpochOnly? {
      var w1 := w';
      w' := Delists(c, p, cons, w1, t);
      LeadsOn(c, p, cons, w, w1, w', t);
    }
  }

  lemma PeekSees(c: Config, p: Protocol, cons: set<Tid>, w: World, t: Tid) returns (w': World)
    requires Fine(c, w, t) && w.pcs[t].NextPeek?
    ensures Leads(c, p, cons, w, w', t) && t < |w.pcs| && t < |w'.pcs| && KeepsWakes(w, w')
    ensures w'.pcs[t] == if ShownAt(w.ring.q, w.ring.q.head) then LoadWaiters(w.pcs[t].ans) else Out(w.pcs[t].ans)
  {
    hide Inv, Solo, Leads, EOnward, ShownAt, KeepsWakes;
    StartInv(c, w, t, Peek);
    var start := To(w.ring, t, w.ring.q, PeekHead);
    LonePeek(c, start, t);
    hide Fine;
    w' := OpRuns(c, p, cons, w, t, Enters(Peek, Peeking(w.pcs[t].ans)), start, 2);
  }

  // A notifier that finds waiters, and no wake on its way.
  predicate Notifies(p: Protocol, waiters: nat, pending: bool) {
    p.EpochOnly? || (waiters > 0 && (p.EveryPush? || !pending))
  }

  // The notification has advanced the epoch and woken one of the sleepers, if there were any.
  ghost predicate WakesOne(asleep: set<Tid>, epoch: nat, w': World) {
    && w'.epoch == epoch + 1
    && if asleep == {} then w'.asleep == {} else exists u: Tid :: u in asleep && w'.asleep == asleep - {u}
  }

  // One step of a notifier.
  lemma NotifyOnward(c: Config, p: Protocol, cons: set<Tid>, w: World, t: Tid)
    requires Fine(c, w, t) && InFlight(w.pcs[t])
    ensures EOnward(c, p, cons, w, t) == NotifyStep(p, cons, w, t, Lone(w)) && Leads(c, p, cons, w, EOnward(c, p, cons, w, t), t)
  {
    LocalOnward(c, p, cons, w, t);
    LeadsOne(c, p, cons, w, t);
    hide Fine, EOnward, Leads, NotifyStep, Lone;
  }

  lemma AdvanceWakes(c: Config, p: Protocol, cons: set<Tid>, w: World, t: Tid) returns (w': World)
    requires Fine(c, w, t) && w.pcs[t].Advance?
    ensures Leads(c, p, cons, w, w', t) && t < |w.pcs| && t < |w'.pcs| && w'.pcs[t] == Out(w.pcs[t].ans) && WakesOne(w.asleep, w.epoch, w')
    ensures w'.ring == w.ring
  {
    hide Inv, Leads;
    NotifyOnward(c, p, cons, w, t);
    var w1 := EOnward(c, p, cons, w, t);
    NotifyOnward(c, p, cons, w1, t);
    w' := EOnward(c, p, cons, w1, t);
    hide Fine, EOnward;
    LeadsOn(c, p, cons, w, w1, w', t);
  }

  // Up to the increment of the epoch.
  lemma NotifyAdvances(c: Config, p: Protocol, cons: set<Tid>, w: World, t: Tid) returns (w': World)
    requires Fine(c, w, t) && w.pcs[t].LoadWaiters? && Notifies(p, w.waiters, w.pending)
    ensures Leads(c, p, cons, w, w', t) && t < |w.pcs| && t < |w'.pcs| && w'.pcs[t] == Advance(w.pcs[t].ans)
    ensures w'.asleep == w.asleep && w'.epoch == w.epoch && w'.ring == w.ring
  {
    hide Inv, Leads;
    NotifyOnward(c, p, cons, w, t);
    w' := EOnward(c, p, cons, w, t);
    if p.Coalesced? {
      var w1 := w';
      NotifyOnward(c, p, cons, w1, t);
      var w2 := EOnward(c, p, cons, w1, t);
      NotifyOnward(c, p, cons, w2, t);
      w' := EOnward(c, p, cons, w2, t);
      hide Fine, EOnward;
      LeadsOn(c, p, cons, w, w1, w2, t);
      LeadsOn(c, p, cons, w, w2, w', t);
    }
  }

  /** Alone, a notifier that finds waiters, and no wake on its way, wakes a sleeper. */
  lemma NotifyWakes(c: Config, p: Protocol, cons: set<Tid>, w: World, t: Tid) returns (w': World)
    requires Fine(c, w, t) && w.pcs[t].LoadWaiters? && Notifies(p, w.waiters, w.pending)
    ensures Leads(c, p, cons, w, w', t) && t < |w.pcs| && t < |w'.pcs| && w'.pcs[t] == Out(w.pcs[t].ans) && WakesOne(w.asleep, w.epoch, w')
    ensures w'.ring == w.ring
  {
    hide Fine, Leads, WakesOne;
    var w1 := NotifyAdvances(c, p, cons, w, t);
    LeadsFine(c, p, cons, w, w1, t);
    w' := AdvanceWakes(c, p, cons, w1, t);
    LeadsOn(c, p, cons, w, w1, w', t);
  }

  /**
   * Alone, a notified consumer wakes, returns the first live event, and hands the
   * wake on: if there is another event behind it, and another waiter, it advances
   * the epoch and wakes a sleeper.
   */
  lemma LoneWakeTakes(c: Config, p: Protocol, cons: set<Tid>, w: World, t: Tid) returns (w': World)
    requires Fine(c, w, t) && Notified(w, t) && ShownAt(w.ring.q, PastTombs(w.ring.q, w.ring.q.head))
    requires p.EpochOnly? || w.waiters > 1
    ensures Leads(c, p, cons, w, w', t) && t < |w'.pcs|
    ensures var at := PastTombs(w.ring.q, w.ring.q.head);
      && w'.pcs[t] == Out(Told(PopOK(at, w.ring.q.log[at].v)))
      && if ShownAt(w.ring.q, at + 1) then WakesOne(w.asleep, w.epoch, w') else w'.asleep == w.asleep && w'.epoch == w.epoch
  {
    hide Fine, Leads, WakesOne;
    var w1 := WakeLooks(c, p, cons, w, t);
    LeadsFine(c, p, cons, w, w1, t);
    var w2 := LookTakes(c, p, cons, w1, t);
    LeadsFine(c, p, cons, w1, w2, t);
    LeadsOn(c, p, cons, w, w1, w2, t);
    w' := PeekSees(c, p, cons, w2, t);
    LeadsOn(c, p, cons, w, w2, w', t);
    if w'.pcs[t].LoadWaiters? {
      var w3 := w';
      LeadsFine(c, p, cons, w, w3, t);
      w' := NotifyWakes(c, p, cons, w3, t);
      LeadsOn(c, p, cons, w, w3, w', t);
    }
  }

  lemma LoneDrain(c: Config, s: State, t: Tid)
    requires Inv(c, s) && t < |s.threads| && s.threads[t].pc == DrainTail && c.rule.CppRule? && AllClaimed(s.q)
    ensures Solo(c, s, t, 2) == To(s, t, s.q, Idle(Drained))
  {
    var s1 := Onward(c, s, t);
    assert s1 == To(s, t, s.q, DrainHead(s.q.tail));
    assert Onward(c, s1, t) == To(s, t, s.q, Idle(Drained));
    hide Inv, Onward;
    SoloNext(c, s, t, 0);
    SoloNext(c, s, t, 1);
  }

  // One of pop's looks, at a ring with nothing left in it.
  lemma LookPasses(c: Config, p: Protocol, cons: set<Tid>, w: World, t: Tid) returns (w': World)
    requires Fine(c, w, t) && w.pcs[t].NextPop? && w.ring.q.head == |w.ring.q.log|
    ensures Leads(c, p, cons, w, w', t) && t < |w.pcs| && t < |w'.pcs|
    ensures w'.pcs[t] == AfterPop(w.pcs[t].site, PopEmpty) && w'.ring.q == w.ring.q && KeepsWakes(w, w')
  {
    StartInv(c, w, t, TryPop);
    var start := To(w.ring, t, w.ring.q, PopLoad);
    LoneLook(c, start, t);
    w' := OpRuns(c, p, cons, w, t, Enters(TryPop, Popping(w.pcs[t].site)), start, 2);
    hide Fine, Inv, ESolo, Solo, Leads;
  }

  // Closed, and every position claimed, the late tickets' included.
  predicate AllClaimed(q: Shared) { q.closed && q.head == q.tail }

  lemma LookDrains(c: Config, p: Protocol, cons: set<Tid>, w: World, t: Tid) returns (w': World)
    requires Fine(c, w, t) && w.pcs[t] == NextDrain && c.rule.CppRule? && AllClaimed(w.ring.q)
    ensures Leads(c, p, cons, w, w', t) && t < |w'.pcs| && w'.pcs[t] == Out(Told(Drained))
  {
    StartInv(c, w, t, Drain);
    var start := To(w.ring, t, w.ring.q, DrainTail);
    LoneDrain(c, start, t);
    w' := OpRuns(c, p, cons, w, t, Enters(Drain, Draining), start, 2);
    hide Fine, Inv, ESolo, Solo, Leads;
  }

  lemma NothingLeft(c: Config, w: World, t: Tid)
    requires Fine(c, w, t) && c.rule.CppRule? && AllClaimed(w.ring.q)
    ensures w.ring.q.head == |w.ring.q.log|
  {
  }

  /** Alone, pop on a closed ring from which every position has been claimed returns drained. */
  lemma LonePopDrains(c: Config, p: Protocol, cons: set<Tid>, w: World, t: Tid) returns (w': World)
    requires Fine(c, w, t) && w.pcs[t] == NextPop(Opening) && c.rule.CppRule? && AllClaimed(w.ring.q)
    ensures Leads(c, p, cons, w, w', t) && t < |w'.pcs| && w'.pcs[t] == Out(Told(Drained))
  {
    NothingLeft(c, w, t);
    hide Fine, Leads, AllClaimed;
    var w1 := LookPasses(c, p, cons, w, t);
    LeadsFine(c, p, cons, w, w1, t);
    var w2 := LookPasses(c, p, cons, w1, t);
    LeadsFine(c, p, cons, w1, w2, t);
    w' := LookDrains(c, p, cons, w2, t);
    LeadsOn(c, p, cons, w, w1, w2, t);
    LeadsOn(c, p, cons, w, w2, w', t);
  }

  // ------------------------------------------------------------ nothing yet

  lemma OpenLook(c: Config, p: Protocol, cons: set<Tid>, w: World, t: Tid) returns (w': World)
    requires Fine(c, w, t) && w.pcs[t] == NextDrain && !w.ring.q.closed
    ensures Leads(c, p, cons, w, w', t) && t < |w'.pcs| && w'.pcs[t] == LoadKey && w'.ring.q == w.ring.q && KeepsWakes(w, w')
  {
    StartInv(c, w, t, Drain);
    var start := To(w.ring, t, w.ring.q, DrainTail);
    SoloNext(c, start, t, 0);
    assert Onward(c, start, t) == To(start, t, start.q, Idle(Open));
    w' := OpRuns(c, p, cons, w, t, Enters(Drain, Draining), start, 1);
    hide Fine, Inv, ESolo, Solo, Leads;
  }

  // One step of prepare_wait, or of what follows the re-check.
  lemma PrepareOnward(c: Config, p: Protocol, cons: set<Tid>, w: World, t: Tid)
    requires Fine(c, w, t) && Preparing(w.pcs[t])
    ensures EOnward(c, p, cons, w, t) == PrepareStep(p, w, t, Lone(w)) && Leads(c, p, cons, w, EOnward(c, p, cons, w, t), t)
  {
    LocalOnward(c, p, cons, w, t);
    LeadsOne(c, p, cons, w, t);
    hide Fine, EOnward, Leads, PrepareStep, Lone;
  }

  // How many waiters there are once one more has been counted.
  function Listed(p: Protocol, w: World): nat { if p.EpochOnly? then w.waiters else w.waiters + 1 }

  lemma PrepareAnnounces(c: Config, p: Protocol, cons: set<Tid>, w: World, t: Tid) returns (w': World)
    requires Fine(c, w, t) && w.pcs[t].LoadKey?
    ensures Leads(c, p, cons, w, w', t) && t < |w'.pcs| && w'.pcs[t] == NextPop(Recheck(w.epoch)) && w'.ring == w.ring
    ensures w'.waiters == Listed(p, w) && w'.pending == (p.EpochOnly? && w.pending) && w'.epoch == w.epoch && w'.asleep == w.asleep
  {
    hide Inv, Leads;
    PrepareOnward(c, p, cons, w, t);
    w' := EOnward(c, p, cons, w, t);
    if !p.EpochOnly? {
      var w1 := w';
      PrepareOnward(c, p, cons, w1, t);
      var w2 := EOnward(c, p, cons, w1, t);
      PrepareOnward(c, p, cons, w2, t);
      w' := EOnward(c, p, cons, w2, t);
      hide Fine, EOnward;
      LeadsOn(c, p, cons, w, w1, w2, t);
      LeadsOn(c, p, cons, w, w2, w', t);
    }
  }

  // From the second look at the tail to the decision to park.
  lemma TailOpen(c: Config, p: Protocol, cons: set<Tid>, w: World, t: Tid) returns (w': World)
    requires Fine(c, w, t) && w.pcs[t].LookTail? && !w.ring.q.closed
    ensures Leads(c, p, cons, w, w', t) && t < |w.pcs| && t < |w'.pcs| && w'.pcs[t] == Test(w.pcs[t].key) && w'.ring == w.ring && KeepsWakes(w, w')
  {
    hide Inv, Leads;
    PrepareOnward(c, p, cons, w, t);
    var w1 := EOnward(c, p, cons, w, t);
    PrepareOnward(c, p, cons, w1, t);
    w' := EOnward(c, p, cons, w1, t);
    hide Fine, EOnward;
    LeadsOn(c, p, cons, w, w1, w', t);
  }

  // One step of a thread that finds its key unchanged.
  lemma SleepStep(c: Config, p: Protocol, cons: set<Tid>, w: World, t: Tid)
    requires Fine(c, w, t) && (w.pcs[t].Test? || w.pcs[t].WaitOn?) && w.epoch == w.pcs[t].key
    ensures EOnward(c, p, cons, w, t) == WaitStep(p, w, t, Lone(w)) && Leads(c, p, cons, w, EOnward(c, p, cons, w, t), t)
  {
    LocalOnward(c, p, cons, w, t);
    LeadsOne(c, p, cons, w, t);
    hide Fine, EOnward, Leads, WaitStep, Lone;
  }

  lemma TestSleeps(c: Config, p: Protocol, cons: set<Tid>, w: World, t: Tid) returns (w': World)
    requires Fine(c, w, t) && w.pcs[t] == Test(w.epoch)
    ensures Leads(c, p, cons, w, w', t) && t < |w'.pcs| && w'.pcs[t] == Blocked(w.epoch) && w'.ring == w.ring
    ensures w'.asleep == w.asleep + {t} && w'.waiters == w.waiters && w'.pending == w.pending && w'.epoch == w.epoch
  {
    hide Inv, Leads;
    SleepStep(c, p, cons, w, t);
    var w1 := EOnward(c, p, cons, w, t);
    SleepStep(c, p, cons, w1, t);
    w' := EOnward(c, p, cons, w1, t);
    hide Fine, EOnward;
    LeadsOn(c, p, cons, w, w1, w', t);
  }

  /** Alone, pop on an open ring with nothing in it goes to sleep, counted, with no wake taken to be on its way. */
  lemma LonePopSleeps(c: Config, p: Protocol, cons: set<Tid>, w: World, t: Tid) returns (w': World)
    requires Fine(c, w, t) && w.pcs[t] == NextPop(Opening) && !w.ring.q.closed && w.ring.q.head == |w.ring.q.log|
    ensures Leads(c, p, cons, w, w', t) && t < |w'.pcs| && w'.pcs[t] == Blocked(w.epoch) && w'.ring.q == w.ring.q
    ensures w'.asleep == w.asleep + {t} && w'.waiters == Listed(p, w) && w'.pending == (p.EpochOnly? && w.pending) && w'.epoch == w.epoch
  {
    hide Fine, Leads;
    var w1 := LookPasses(c, p, cons, w, t);
    LeadsFine(c, p, cons, w, w1, t);
    var w2 := LookPasses(c, p, cons, w1, t);
    LeadsFine(c, p, cons, w1, w2, t);
    LeadsOn(c, p, cons, w, w1, w2, t);
    var w3 := OpenLook(c, p, cons, w2, t);
    LeadsFine(c, p, cons, w2, w3, t);
    LeadsOn(c, p, cons, w, w2, w3, t);
    var w4 := PrepareAnnounces(c, p, cons, w3, t);
    LeadsFine(c, p, cons, w3, w4, t);
    LeadsOn(c, p, cons, w, w3, w4, t);
    var w5 := LookPasses(c, p, cons, w4, t);
    LeadsFine(c, p, cons, w4, w5, t);
    LeadsOn(c, p, cons, w, w4, w5, t);
    var w6 := TailOpen(c, p, cons, w5, t);
    LeadsFine(c, p, cons, w5, w6, t);
    LeadsOn(c, p, cons, w, w5, w6, t);
    w' := TestSleeps(c, p, cons, w6, t);
    LeadsOn(c, p, cons, w, w6, w', t);
  }

  // A step of thread t whose deadline has passed.
  ghost function Late(c: Config, p: Protocol, cons: set<Tid>, w: World, t: Tid): (w': World)
    requires Fine(c, w, t)
    ensures Fine(c, w', t)
  {
    StepStepped(c, p, cons, w, t, Timeout);
    EStep(c, p, cons, w, t, Timeout)
  }

  /** A pop that finds its deadline passed takes itself off the count and says so. */
  lemma LateGivesUp(c: Config, p: Protocol, cons: set<Tid>, w: World, t: Tid) returns (w': World)
    requires Fine(c, w, t) && w.pcs[t].Decide?
    ensures Leads(c, p, cons, Late(c, p, cons, w, t), w', t) && t < |w'.pcs| && w'.pcs[t] == Out(TimedOut)
    ensures w'.ring == w.ring && w'.asleep == w.asleep && w'.waiters == Unlisted(p, w) && w'.epoch == w.epoch
  {
    var w1 := Late(c, p, cons, w, t);
    assert w1 == At(w, t, Cancel(Return(TimedOut)));
    hide Inv, Leads, Late;
    LeadsOne(c, p, cons, w1, t);
    LocalOnward(c, p, cons, w1, t);
    w' := EOnward(c, p, cons, w1, t);
  }

  // ------------------------------------------------------------ pushes

  lemma PushEnds(c: Config, p: Protocol, cons: set<Tid>, w: World, t: Tid, v: Value) returns (w': World)
    requires Fine(c, w, t) && w.pcs[t].Pushing? && t < |w.ring.threads| && w.ring.threads[t].pc == ClaimLoad(v, Plain)
    requires !w.ring.q.closed && Vacant(c, w.ring.q, w.ring.q.tail)
    ensures Leads(c, p, cons, w, w', t) && t < |w'.pcs| && w'.pcs[t] == LoadWaiters(Told(PushOK(w.ring.q.tail)))
    ensures PushedAt(w.ring, w'.ring, t, v) && KeepsWakes(w, w')
  {
    FineFacts(c, w, t);
    LonePush(c, w.ring, t, v);
    hide Fine, Inv, Solo, Leads, Vacant;
    w' := OpEnds(c, p, cons, w, t, 5, Solo(c, w.ring, t, 5));
  }

  /** Alone, a try_push on an open ring with room publishes its value at the tail, wakes a sleeper if there are waiters and no wake on its way, and says ok. */
  lemma LonePushWakes(c: Config, p: Protocol, cons: set<Tid>, w: World, t: Tid, v: Value) returns (w': World)
    requires Fine(c, w, t) && w.pcs[t].Pushing? && t < |w.ring.threads| && w.ring.threads[t].pc == ClaimLoad(v, Plain)
    requires !w.ring.q.closed && Vacant(c, w.ring.q, w.ring.q.tail) && Notifies(p, w.waiters, w.pending)
    ensures Leads(c, p, cons, w, w', t) && t < |w'.pcs| && w'.pcs[t] == Out(Told(PushOK(w.ring.q.tail)))
    ensures PushedAt(w.ring, w'.ring, t, v) && WakesOne(w.asleep, w.epoch, w')
  {
    hide Fine, Leads, WakesOne, PushedAt, Vacant;
    var w1 := PushEnds(c, p, cons, w, t, v);
    LeadsFine(c, p, cons, w, w1, t);
    w' := NotifyWakes(c, p, cons, w1, t);
    LeadsOn(c, p, cons, w, w1, w', t);
  }
}

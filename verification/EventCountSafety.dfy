/** The C++ sleep protocols never strand a published event, coalesced wakes included. */
module EventCountSafety {
  import opened Slots
  import opened Ring
  import opened RingInvariant
  import opened RingSteps
  import opened RingTheorems
  import opened RingCalls
  import opened EventCount

  predicate Agree(w: World, t: Tid)
    requires t < |w.pcs| == |w.ring.threads|
  {
    PcPlace(w.pcs[t]) == RingPlace(w.ring.threads[t].pc)
  }

  predicate InPopCall(pc: Epc) {
    || (pc.NextPop? && !pc.site.Alone?) || (pc.Popping? && !pc.site.Alone?)
    || pc.NextDrain? || pc.Draining? || pc.LoadKey? || pc.Enlist? || pc.Unpend? || pc.LookTail? || pc.Decide?
    || pc.Test? || pc.WaitOn? || pc.Blocked? || pc.Delist? || pc.Absorb? || pc.Cancel? || pc.NextPeek? || pc.Peeking?
  }

  // The thread is counted in waiters_.
  predicate Counted(pc: Epc) {
    pc.Unpend? || Waiting(pc) || pc.Delist? || pc.Cancel?
  }

  // Past prepare_wait and not yet out of wait or cancel_wait: the thread has a key.
  predicate Waiting(pc: Epc) { Rechecking(pc) || Committed(pc) }

  predicate Rechecking(pc: Epc) {
    (pc.NextPop? && pc.site.Recheck?) || (pc.Popping? && pc.site.Recheck?)
  }

  // Its re-check has found the head unpublished and it is on its way to sleep, or asleep.
  predicate Committed(pc: Epc) { pc.LookTail? || pc.Decide? || InWait(pc) }

  function Key(pc: Epc): nat
    requires Waiting(pc) || pc.Enlist? || pc.Unpend?
  {
    if Rechecking(pc) then pc.site.key else pc.key
  }

  ghost predicate Shape(c: Config, p: Protocol, cons: set<Tid>, w: World) {
    && c.rule.CppRule?
    && Inv(c, w.ring) && |w.pcs| == |w.ring.threads|
    && (forall u | u in cons :: u < |w.pcs|)
    && (forall t | 0 <= t < |w.pcs| :: Agree(w, t) && RoleOk(p, cons, w, t))
    && (forall u | u in w.asleep :: u < |w.pcs|)
  }

  // What is true of one thread: its role, its key, its place in the two sets.
  ghost predicate RoleOk(p: Protocol, cons: set<Tid>, w: World, t: Tid)
    requires t < |w.pcs|
  {
    var pc := w.pcs[t];
    && (InPopCall(pc) ==> t in cons)
    && (Waiting(pc) || pc.Enlist? || pc.Unpend? ==> Key(pc) <= w.epoch)
    && (t in w.asleep ==> pc.Blocked?)
    && (pc.LoadPending? || pc.SwapPending? ==> p.Coalesced?)
    && (!p.EpochOnly? ==> (t in w.counted <==> Counted(pc)))
  }

  ghost predicate CountOk(p: Protocol, w: World) { !p.EpochOnly? ==> w.waiters == |w.counted| }

  // A notifier that has set pending_ and not yet advanced the epoch.
  ghost predicate AboutToAdvance(w: World) { exists v | 0 <= v < |w.pcs| :: w.pcs[v].Advance? }

  // Every thread with a key has a key from before the last advance.
  ghost predicate AllStale(w: World) { forall u | 0 <= u < |w.pcs| && Waiting(w.pcs[u]) :: Key(w.pcs[u]) < w.epoch }

  // Somebody will wake a sleeper or is awake and on the way out of wait.
  ghost predicate WakeComing(w: World) {
    exists v | 0 <= v < |w.pcs| ::
      w.pcs[v].WakeOne? || w.pcs[v].Delist? || w.pcs[v].Absorb? || (InWait(w.pcs[v]) && v !in w.asleep)
  }

  // Why skipping a wake is safe when pending_ is set.
  ghost predicate PendingOk(p: Protocol, w: World) {
    w.pending ==>
      && p.Coalesced?
      && (AboutToAdvance(w) || (AllStale(w) && (w.asleep != {} ==> WakeComing(w))))
  }

  ghost predicate AllCommitted(cons: set<Tid>, w: World) {
    cons != {} && forall u | u in cons :: u < |w.pcs| && Committed(w.pcs[u])
  }

  predicate BeforeAdvance(pc: Epc) { pc.LoadWaiters? || pc.LoadPending? || pc.SwapPending? || pc.Advance? }

  // A notification under way.
  predicate InFlight(pc: Epc) { BeforeAdvance(pc) || pc.WakeOne? }

  ghost predicate Covered(cons: set<Tid>, w: World) {
    || (exists v | 0 <= v < |w.pcs| :: BeforeAdvance(w.pcs[v]))
    || (AllStale(w) && ((exists v | 0 <= v < |w.pcs| :: w.pcs[v].WakeOne?) || (exists u | u in cons :: u !in w.asleep)))
  }

  // If every consumer is going to sleep while the head of the open queue is
  // published, somebody will wake one, or one is awake and will not sleep.
  ghost predicate NoStranding(c: Config, cons: set<Tid>, w: World) {
    AllCommitted(cons, w) && HeadShown(c, w.ring.q) && !w.ring.q.closed ==> Covered(cons, w)
  }

  // After close has advanced the epoch nobody can fall asleep, and after its wake
  // nobody is.
  ghost predicate CloseOk(w: World) {
    && (w.bumped ==> w.ring.q.closed)
    && (w.woke ==> w.bumped && w.asleep == {})
    && forall u | 0 <= u < |w.pcs| :: CloseRole(w, w.pcs[u])
  }

  predicate CloseRole(w: World, pc: Epc) {
    && (w.bumped && (pc.Decide? || InWait(pc)) ==> Key(pc) < w.epoch)
    && (pc.CloseAdvance? || pc.CloseWake? ==> w.ring.q.closed)
    && (pc.CloseWake? ==> w.bumped)
  }

  ghost predicate EInv(c: Config, p: Protocol, cons: set<Tid>, w: World) {
    Shape(c, p, cons, w) && CountOk(p, w) && PendingOk(p, w) && NoStranding(c, cons, w) && CloseOk(w)
  }

  // ---------------------------------------------------------------- shape

  ghost predicate Stepped(c: Config, w: World, w': World, t: Tid) {
    && t < |w.pcs| == |w'.pcs| == |w.ring.threads| == |w'.ring.threads|
    && w'.pcs == w.pcs[t := w'.pcs[t]]
    && w'.ring.threads == w.ring.threads[t := w'.ring.threads[t]]
    && Inv(c, w'.ring) && Agree(w', t)
  }

  lemma EnterStepped(c: Config, p: Protocol, cons: set<Tid>, w: World, t: Tid, k: EChoice)
    requires Inv(c, w.ring) && t < |w.pcs| == |w.ring.threads| && Agree(w, t)
    requires PcPlace(w.pcs[t]).Nowhere? && Entering(w.pcs[t], k).Enters?
    ensures var w' := EStep(c, p, cons, w, t, k); Stepped(c, w, w', t) && w'.ring.q == w.ring.q
  {
    var e := Entering(w.pcs[t], k);
    StartPlace(c, w.ring, t, e.call);
    StepInv(c, w.ring, t, Start(e.call));
  }

  lemma LandedStepped(c: Config, w: World, ring': State, t: Tid, k: EChoice)
    requires t < |w.pcs| == |w.ring.threads| == |ring'.threads| && Agree(w, t) && !PcPlace(w.pcs[t]).Nowhere?
    requires ring'.threads == w.ring.threads[t := ring'.threads[t]] && Inv(c, ring')
    requires RingPlace(ring'.threads[t].pc) == RingPlace(w.ring.threads[t].pc) || ring'.threads[t].pc.Idle?
    ensures Stepped(c, w, Landed(w, ring', t, k), t)
  {
  }

  lemma WithinStepped(c: Config, p: Protocol, cons: set<Tid>, w: World, t: Tid, k: EChoice)
    requires Inv(c, w.ring) && t < |w.pcs| == |w.ring.threads| && Agree(w, t) && !PcPlace(w.pcs[t]).Nowhere?
    ensures Stepped(c, w, EStep(c, p, cons, w, t, k), t)
  {
    StepMoves(c, w.ring, t, Go);
    StepPlace(c, w.ring, t, Go);
    StepInv(c, w.ring, t, Go);
    LandedStepped(c, w, Step(c, w.ring, t, Go), t, k);
  }

  // Local steps leave the ring and the other threads alone, and stay outside the ring.
  ghost predicate Outside(w: World, w': World, t: Tid)
    requires t < |w.pcs|
  {
    && |w'.pcs| == |w.pcs| && w'.ring == w.ring && PcPlace(w'.pcs[t]).Nowhere?
    && forall u | 0 <= u < |w.pcs| && u != t :: w'.pcs[u] == w.pcs[u]
  }

  lemma PrepareOutside(p: Protocol, w: World, t: Tid, k: EChoice)
    requires t < |w.pcs| && PcPlace(w.pcs[t]).Nowhere?
    ensures Outside(w, PrepareStep(p, w, t, k), t)
  {
  }

  lemma WaitOutside(p: Protocol, w: World, t: Tid, k: EChoice)
    requires t < |w.pcs| && PcPlace(w.pcs[t]).Nowhere?
    ensures Outside(w, WaitStep(p, w, t, k), t)
  {
  }

  lemma NotifyOutside(p: Protocol, cons: set<Tid>, w: World, t: Tid, k: EChoice)
    requires t < |w.pcs| && PcPlace(w.pcs[t]).Nowhere?
    ensures Outside(w, NotifyStep(p, cons, w, t, k), t)
  {
  }

  lemma LocalStepped(c: Config, p: Protocol, cons: set<Tid>, w: World, t: Tid, k: EChoice)
    requires Inv(c, w.ring) && t < |w.pcs| == |w.ring.threads| && Agree(w, t)
    requires PcPlace(w.pcs[t]).Nowhere? && Entering(w.pcs[t], k).NoEntry?
    ensures Stepped(c, w, Local(p, cons, w, t, k), t)
  {
    PrepareOutside(p, w, t, k);
    WaitOutside(p, w, t, k);
    NotifyOutside(p, cons, w, t, k);
  }

  lemma StepStepped(c: Config, p: Protocol, cons: set<Tid>, w: World, t: Tid, k: EChoice)
    requires Inv(c, w.ring) && t < |w.pcs| == |w.ring.threads| && Agree(w, t)
    ensures Stepped(c, w, EStep(c, p, cons, w, t, k), t)
  {
    if !PcPlace(w.pcs[t]).Nowhere? { WithinStepped(c, p, cons, w, t, k); }
    else if Entering(w.pcs[t], k).Enters? { EnterStepped(c, p, cons, w, t, k); }
    else { LocalStepped(c, p, cons, w, t, k); }
  }

  // How the fields outside the ring may change, seen from the other threads.
  ghost predicate Frame(p: Protocol, w: World, w': World, t: Tid) {
    && w'.epoch >= w.epoch
    && w'.asleep <= w.asleep + {t}
    && w'.counted - {t} == w.counted - {t}
  }

  lemma FinishRole(pc: Epc, k: EChoice, res: Result)
    requires !PcPlace(pc).Nowhere?
    ensures var pc' := Finish(pc, k, res);
            && (InPopCall(pc') ==> InPopCall(pc))
            && (Waiting(pc') ==> Waiting(pc) && Key(pc') == Key(pc))
            && !pc'.Enlist? && !pc'.Unpend? && !pc'.Blocked? && !pc'.LoadPending? && !pc'.SwapPending?
            && (Counted(pc') <==> Counted(pc))
  {
  }

  lemma LandedRoles(p: Protocol, cons: set<Tid>, w: World, ring': State, t: Tid, k: EChoice)
    requires t < |w.pcs| && RoleOk(p, cons, w, t) && !PcPlace(w.pcs[t]).Nowhere?
    ensures var w' := Landed(w, ring', t, k); |w'.pcs| == |w.pcs| && RoleOk(p, cons, w', t) && Frame(p, w, w', t)
  {
    if t < |ring'.threads| && ring'.threads[t].pc.Idle? { FinishRole(w.pcs[t], k, ring'.threads[t].pc.res); }
  }

  lemma PrepareRoles(p: Protocol, cons: set<Tid>, w: World, t: Tid, k: EChoice)
    requires t < |w.pcs| && RoleOk(p, cons, w, t) && Preparing(w.pcs[t])
    ensures var w' := PrepareStep(p, w, t, k); |w'.pcs| == |w.pcs| && RoleOk(p, cons, w', t) && Frame(p, w, w', t)
  {
  }

  lemma WaitRoles(p: Protocol, cons: set<Tid>, w: World, t: Tid, k: EChoice)
    requires t < |w.pcs| && RoleOk(p, cons, w, t) && Sleeping(w.pcs[t])
    ensures var w' := WaitStep(p, w, t, k); |w'.pcs| == |w.pcs| && RoleOk(p, cons, w', t) && Frame(p, w, w', t)
  {
    if InWait(w.pcs[t]) { BlockRoles(p, cons, w, t, k); } else { LeaveRoles(p, cons, w, t, k); }
    hide WaitStep, RoleOk, Frame;
  }

  lemma BlockRoles(p: Protocol, cons: set<Tid>, w: World, t: Tid, k: EChoice)
    requires t < |w.pcs| && RoleOk(p, cons, w, t) && Sleeping(w.pcs[t]) && InWait(w.pcs[t])
    ensures var w' := WaitStep(p, w, t, k); |w'.pcs| == |w.pcs| && RoleOk(p, cons, w', t) && Frame(p, w, w', t)
  {
  }

  lemma LeaveRoles(p: Protocol, cons: set<Tid>, w: World, t: Tid, k: EChoice)
    requires t < |w.pcs| && RoleOk(p, cons, w, t) && Sleeping(w.pcs[t]) && !InWait(w.pcs[t])
    ensures var w' := WaitStep(p, w, t, k); |w'.pcs| == |w.pcs| && RoleOk(p, cons, w', t) && Frame(p, w, w', t)
  {
  }

  predicate Calling(pc: Epc) { InFlight(pc) || pc.CloseAdvance? || pc.CloseWake? || pc.Out? || pc == NextPop(Opening) }

  lemma NotifyMoves(p: Protocol, cons: set<Tid>, w: World, t: Tid, k: EChoice)
    requires t < |w.pcs| && !Preparing(w.pcs[t]) && !Sleeping(w.pcs[t])
    ensures var w' := NotifyStep(p, cons, w, t, k);
            && |w'.pcs| == |w.pcs|
            && (w'.pcs[t].LoadPending? || w'.pcs[t].SwapPending? ==> p.Coalesced? || w'.pcs[t] == w.pcs[t] || w.pcs[t].LoadPending?)
            && (w' == w || (Calling(w'.pcs[t]) && Calling(w.pcs[t]) && (w'.pcs[t] == NextPop(Opening) ==> t in cons)))
  {
  }

  lemma NotifyFrame(p: Protocol, cons: set<Tid>, w: World, t: Tid, k: EChoice)
    requires t < |w.pcs|
    ensures var w' := NotifyStep(p, cons, w, t, k);
            w'.epoch >= w.epoch && w'.asleep <= w.asleep && w'.counted == w.counted && w'.waiters == w.waiters
  {
  }

  lemma NotifyRoles(p: Protocol, cons: set<Tid>, w: World, t: Tid, k: EChoice)
    requires t < |w.pcs| && RoleOk(p, cons, w, t) && !Preparing(w.pcs[t]) && !Sleeping(w.pcs[t])
    ensures var w' := NotifyStep(p, cons, w, t, k); |w'.pcs| == |w.pcs| && RoleOk(p, cons, w', t) && Frame(p, w, w', t)
  {
    NotifyMoves(p, cons, w, t, k);
    NotifyFrame(p, cons, w, t, k);
  }

  lemma LocalRoles(p: Protocol, cons: set<Tid>, w: World, t: Tid, k: EChoice)
    requires t < |w.pcs| && RoleOk(p, cons, w, t)
    ensures var w' := Local(p, cons, w, t, k); |w'.pcs| == |w.pcs| && RoleOk(p, cons, w', t) && Frame(p, w, w', t)
  {
    if Preparing(w.pcs[t]) { PrepareRoles(p, cons, w, t, k); }
    else if Sleeping(w.pcs[t]) { WaitRoles(p, cons, w, t, k); }
    else { NotifyRoles(p, cons, w, t, k); }
  }

  lemma EnterRoles(p: Protocol, cons: set<Tid>, w: World, ring': State, t: Tid, k: EChoice)
    requires t < |w.pcs| && RoleOk(p, cons, w, t) && PcPlace(w.pcs[t]).Nowhere? && Entering(w.pcs[t], k).Enters?
    ensures var w' := At(w.(ring := ring'), t, Entering(w.pcs[t], k).pc); RoleOk(p, cons, w', t) && Frame(p, w, w', t)
  {
  }

  lemma RolesStep(c: Config, p: Protocol, cons: set<Tid>, w: World, t: Tid, k: EChoice)
    requires Sized(c, w.ring.q) && t < |w.pcs| == |w.ring.threads| && RoleOk(p, cons, w, t)
    ensures var w' := EStep(c, p, cons, w, t, k); |w'.pcs| == |w.pcs| && RoleOk(p, cons, w', t) && Frame(p, w, w', t)
  {
    if !PcPlace(w.pcs[t]).Nowhere? { LandedRoles(p, cons, w, Step(c, w.ring, t, Go), t, k); }
    else if Entering(w.pcs[t], k).Enters? { EnterRoles(p, cons, w, Step(c, w.ring, t, Start(Entering(w.pcs[t], k).call)), t, k); }
    else { LocalRoles(p, cons, w, t, k); }
  }

  lemma ShapeStep(c: Config, p: Protocol, cons: set<Tid>, w: World, t: Tid, k: EChoice)
    requires Shape(c, p, cons, w) && t < |w.pcs|
    ensures Shape(c, p, cons, EStep(c, p, cons, w, t, k)) && Stepped(c, w, EStep(c, p, cons, w, t, k), t)
    ensures Frame(p, w, EStep(c, p, cons, w, t, k), t)
  {
    var w' := EStep(c, p, cons, w, t, k);
    assert Agree(w, t) && RoleOk(p, cons, w, t);
    StepStepped(c, p, cons, w, t, k);
    RolesStep(c, p, cons, w, t, k);
    forall u | 0 <= u < |w.pcs| && u != t ensures Agree(w', u) && RoleOk(p, cons, w', u) {
      assert Agree(w, u) && RoleOk(p, cons, w, u);
      assert u in w'.counted <==> u in w'.counted - {t};
      assert u in w.counted <==> u in w.counted - {t};
    }
  }

  // ------------------------------------------------------------- the count

  lemma WaitCount(p: Protocol, cons: set<Tid>, w: World, t: Tid, k: EChoice)
    requires t < |w.pcs| && RoleOk(p, cons, w, t) && CountOk(p, w) && Sleeping(w.pcs[t])
    ensures CountOk(p, WaitStep(p, w, t, k))
  {
    if t in w.counted { assert |w.counted - {t}| == |w.counted| - 1; }
  }

  lemma PrepareCount(p: Protocol, cons: set<Tid>, w: World, t: Tid, k: EChoice)
    requires t < |w.pcs| && RoleOk(p, cons, w, t) && CountOk(p, w) && Preparing(w.pcs[t])
    ensures CountOk(p, PrepareStep(p, w, t, k))
  {
    if t !in w.counted { assert |w.counted + {t}| == |w.counted| + 1; }
  }

  lemma CountStep(c: Config, p: Protocol, cons: set<Tid>, w: World, t: Tid, k: EChoice)
    requires Shape(c, p, cons, w) && CountOk(p, w) && t < |w.pcs|
    ensures CountOk(p, EStep(c, p, cons, w, t, k))
  {
    assert RoleOk(p, cons, w, t);
    if PcPlace(w.pcs[t]).Nowhere? && Entering(w.pcs[t], k).NoEntry? {
      if Preparing(w.pcs[t]) { PrepareCount(p, cons, w, t, k); }
      else if Sleeping(w.pcs[t]) { WaitCount(p, cons, w, t, k); }
      else { NotifyFrame(p, cons, w, t, k); }
    }
  }

  // ------------------------------------------------------------ pending_

  // A counter whose thread is neither about to advance nor a wake in coming.
  predicate Passive(pc: Epc) {
    !pc.Advance? && !pc.WakeOne? && !pc.Delist? && !pc.Absorb? && !InWait(pc)
  }

  // t takes no key, and nothing that the other threads rely on changes.
  ghost predicate Calm(w: World, w': World, t: Tid)
    requires t < |w.pcs| == |w'.pcs|
  {
    && w'.pcs == w.pcs[t := w'.pcs[t]]
    && w'.epoch == w.epoch && w'.asleep == w.asleep
    && (Waiting(w'.pcs[t]) ==> Waiting(w.pcs[t]) && Key(w'.pcs[t]) == Key(w.pcs[t]))
  }

  lemma PendingCalm(p: Protocol, w: World, w': World, t: Tid)
    requires t < |w.pcs| == |w'.pcs| && Calm(w, w', t) && Passive(w.pcs[t]) && PendingOk(p, w)
    requires w'.pending ==> w.pending
    ensures PendingOk(p, w')
  {
    if w'.pending {
      if AboutToAdvance(w) {
        var v :| 0 <= v < |w.pcs| && w.pcs[v].Advance?;
        assert w'.pcs[v].Advance?;
      } else if w.asleep != {} {
        var v :| 0 <= v < |w.pcs| && (w.pcs[v].WakeOne? || w.pcs[v].Delist? || w.pcs[v].Absorb? || (InWait(w.pcs[v]) && v !in w.asleep));
        assert w'.pcs[v] == w.pcs[v];
      }
    }
  }

  lemma KeptAdvance(w: World, w': World, t: Tid)
    requires t < |w.pcs| == |w'.pcs| && w'.pcs == w.pcs[t := w'.pcs[t]] && !w.pcs[t].Advance? && AboutToAdvance(w)
    ensures AboutToAdvance(w')
  {
    var v :| 0 <= v < |w.pcs| && w.pcs[v].Advance?;
    assert w'.pcs[v].Advance?;
  }

  lemma WaitPending(p: Protocol, cons: set<Tid>, w: World, t: Tid, k: EChoice)
    requires t < |w.pcs| && RoleOk(p, cons, w, t) && PendingOk(p, w) && Sleeping(w.pcs[t])
    ensures PendingOk(p, WaitStep(p, w, t, k))
  {
    var w' := WaitStep(p, w, t, k);
    if w'.pending {
      if w.pcs[t].Cancel? {
        PendingCalm(p, w, w', t);
      } else if AboutToAdvance(w) {
        KeptAdvance(w, w', t);
      } else if w' != w {
        assert w'.pcs[t].WakeOne? || w'.pcs[t].Delist? || w'.pcs[t].Absorb? || (InWait(w'.pcs[t]) && t !in w'.asleep);
      }
    }
  }

  lemma PreparePending(p: Protocol, cons: set<Tid>, w: World, t: Tid, k: EChoice)
    requires t < |w.pcs| && RoleOk(p, cons, w, t) && PendingOk(p, w) && Preparing(w.pcs[t])
    ensures PendingOk(p, PrepareStep(p, w, t, k))
  {
    var w' := PrepareStep(p, w, t, k);
    if w'.pending { PendingCalm(p, w, w', t); }
  }

  lemma AdvanceStale(p: Protocol, cons: set<Tid>, w: World, w': World, t: Tid)
    requires t < |w.pcs| == |w'.pcs| && w'.pcs == w.pcs[t := w'.pcs[t]] && w'.epoch == w.epoch + 1 && !Waiting(w'.pcs[t])
    requires forall u | 0 <= u < |w.pcs| :: RoleOk(p, cons, w, u)
    ensures AllStale(w')
  {
    forall u | 0 <= u < |w'.pcs| && Waiting(w'.pcs[u]) ensures Key(w'.pcs[u]) < w'.epoch { assert RoleOk(p, cons, w, u); }
  }

  lemma NotifyPending(p: Protocol, cons: set<Tid>, w: World, t: Tid, k: EChoice)
    requires t < |w.pcs| && PendingOk(p, w) && !Preparing(w.pcs[t]) && !Sleeping(w.pcs[t])
    requires forall u | 0 <= u < |w.pcs| :: RoleOk(p, cons, w, u)
    requires forall u | u in w.asleep :: u < |w.pcs|
    ensures PendingOk(p, NotifyStep(p, cons, w, t, k))
  {
    var w' := NotifyStep(p, cons, w, t, k);
    var pc := w.pcs[t];
    assert RoleOk(p, cons, w, t);
    if w'.pending && w' != w {
      if pc.Advance? {
        AdvanceStale(p, cons, w, w', t);
        assert w'.pcs[t].WakeOne?;
      } else if pc.SwapPending? {
        if w.pending { PendingCalm(p, w, w', t); } else { assert w'.pcs[t].Advance?; }
      } else if AboutToAdvance(w) {
        KeptAdvance(w, w', t);
      } else if pc.WakeOne? {
        if w'.asleep != {} { assert RoleOk(p, cons, w, k.u); assert InWait(w'.pcs[k.u]) && k.u !in w'.asleep; }
      } else if pc.CloseAdvance? {
        AdvanceStale(p, cons, w, w', t);
        if w.asleep != {} {
          var v :| 0 <= v < |w.pcs| && (w.pcs[v].WakeOne? || w.pcs[v].Delist? || w.pcs[v].Absorb? || (InWait(w.pcs[v]) && v !in w.asleep));
          assert w'.pcs[v] == w.pcs[v];
        }
      } else if !pc.CloseWake? {
        PendingCalm(p, w, w', t);
      }
    }
  }

  lemma LandedCalm(w: World, ring': State, t: Tid, k: EChoice)
    requires t < |w.pcs| && !PcPlace(w.pcs[t]).Nowhere?
    ensures var w' := Landed(w, ring', t, k);
            |w'.pcs| == |w.pcs| && Calm(w, w', t) && Passive(w.pcs[t]) && w'.pending == w.pending
  {
    if t < |ring'.threads| && ring'.threads[t].pc.Idle? { FinishRole(w.pcs[t], k, ring'.threads[t].pc.res); }
  }

  lemma EnterCalm(w: World, ring': State, t: Tid, k: EChoice)
    requires t < |w.pcs| && PcPlace(w.pcs[t]).Nowhere? && Entering(w.pcs[t], k).Enters?
    ensures var w' := At(w.(ring := ring'), t, Entering(w.pcs[t], k).pc);
            Calm(w, w', t) && Passive(w.pcs[t]) && w'.pending == w.pending
  {
  }

  lemma PendingStep(c: Config, p: Protocol, cons: set<Tid>, w: World, t: Tid, k: EChoice)
    requires Shape(c, p, cons, w) && PendingOk(p, w) && t < |w.pcs|
    ensures PendingOk(p, EStep(c, p, cons, w, t, k))
  {
    var w' := EStep(c, p, cons, w, t, k);
    assert RoleOk(p, cons, w, t);
    if !PcPlace(w.pcs[t]).Nowhere? {
      LandedCalm(w, Step(c, w.ring, t, Go), t, k);
      PendingCalm(p, w, w', t);
    } else if Entering(w.pcs[t], k).Enters? {
      EnterCalm(w, Step(c, w.ring, t, Start(Entering(w.pcs[t], k).call)), t, k);
      PendingCalm(p, w, w', t);
    } else if Preparing(w.pcs[t]) { PreparePending(p, cons, w, t, k); }
    else if Sleeping(w.pcs[t]) { WaitPending(p, cons, w, t, k); }
    else { NotifyPending(p, cons, w, t, k); }
  }

  // ------------------------------------------------------ no event is stranded

  lemma LandedCommits(w: World, ring': State, t: Tid, k: EChoice)
    requires t < |w.pcs| && !PcPlace(w.pcs[t]).Nowhere? && Committed(Landed(w, ring', t, k).pcs[t])
    ensures w.pcs[t].Popping? && t < |ring'.threads| && ring'.threads[t].pc.Idle? && !ring'.threads[t].pc.res.PopOK?
  {
  }

  lemma LandedShows(w: World, ring': State, t: Tid, k: EChoice)
    requires t < |w.pcs| && w.pcs[t].Pushing? && t < |ring'.threads| && ring'.threads[t].pc.Idle?
    requires ring'.threads[t].pc.res.PushOK? || ring'.threads[t].pc.res.PushPanicked?
    ensures Landed(w, ring', t, k).pcs[t].LoadWaiters?
  {
  }

  // Nothing that covers the consumers depends on t, and t commits only with the
  // head unpublished.
  lemma CoveredCalm(cons: set<Tid>, w: World, w': World, t: Tid)
    requires t < |w.pcs| == |w'.pcs| && Calm(w, w', t) && !InFlight(w.pcs[t]) && Covered(cons, w)
    ensures Covered(cons, w')
  {
    if v :| 0 <= v < |w.pcs| && BeforeAdvance(w.pcs[v]) {
      assert BeforeAdvance(w'.pcs[v]);
    } else if v :| 0 <= v < |w.pcs| && w.pcs[v].WakeOne? {
      assert w'.pcs[v].WakeOne?;
    }
  }

  lemma RingStranding(c: Config, p: Protocol, cons: set<Tid>, w: World, t: Tid, k: EChoice)
    requires Inv(c, w.ring) && t < |w.pcs| == |w.ring.threads| && Agree(w, t)
    requires NoStranding(c, cons, w) && !PcPlace(w.pcs[t]).Nowhere?
    ensures NoStranding(c, cons, EStep(c, p, cons, w, t, k))
  {
    var ring' := Step(c, w.ring, t, Go);
    var w' := Landed(w, ring', t, k);
    LandedCalm(w, ring', t, k);
    StepClosed(c, w.ring, t, Go);
    if AllCommitted(cons, w') && HeadShown(c, ring'.q) && !ring'.q.closed {
      if !HeadShown(c, w.ring.q) {
        StepShows(c, w.ring, t, Go);
        StepMoves(c, w.ring, t, Go);
        LandedShows(w, ring', t, k);
        assert BeforeAdvance(w'.pcs[t]);
      } else {
        if t in cons {
          LandedCommits(w, ring', t, k);
          EmptyCommits(c, w.ring, t);
        }
        assert AllCommitted(cons, w);
        CoveredCalm(cons, w, w', t);
      }
    }
  }

  lemma EnterStranding(c: Config, p: Protocol, cons: set<Tid>, w: World, t: Tid, k: EChoice)
    requires Inv(c, w.ring) && t < |w.pcs| == |w.ring.threads| && Agree(w, t) && NoStranding(c, cons, w)
    requires PcPlace(w.pcs[t]).Nowhere? && Entering(w.pcs[t], k).Enters?
    ensures NoStranding(c, cons, EStep(c, p, cons, w, t, k))
  {
    var w' := EStep(c, p, cons, w, t, k);
    EnterStepped(c, p, cons, w, t, k);
    EnterCalm(w, Step(c, w.ring, t, Start(Entering(w.pcs[t], k).call)), t, k);
    if AllCommitted(cons, w') && HeadShown(c, w'.ring.q) && !w'.ring.q.closed {
      assert t !in cons;
      assert AllCommitted(cons, w);
      CoveredCalm(cons, w, w', t);
    }
  }

  lemma PrepareStranding(c: Config, p: Protocol, cons: set<Tid>, w: World, t: Tid, k: EChoice)
    requires t < |w.pcs| && RoleOk(p, cons, w, t) && NoStranding(c, cons, w) && Preparing(w.pcs[t])
    ensures NoStranding(c, cons, PrepareStep(p, w, t, k))
  {
    var w' := PrepareStep(p, w, t, k);
    if AllCommitted(cons, w') && HeadShown(c, w'.ring.q) && !w'.ring.q.closed {
      assert t in cons && Committed(w.pcs[t]);
      assert AllCommitted(cons, w);
      CoveredCalm(cons, w, w', t);
    }
  }

  lemma WaitMoves(p: Protocol, w: World, t: Tid, k: EChoice)
    requires t < |w.pcs| && Sleeping(w.pcs[t])
    ensures var w' := WaitStep(p, w, t, k); var pc, pc' := w.pcs[t], w'.pcs[t];
            && |w'.pcs| == |w.pcs| && w'.pcs == w.pcs[t := pc'] && w'.ring == w.ring && w'.epoch == w.epoch
            && w'.bumped == w.bumped && w'.woke == w.woke
            && (w'.asleep <= w.asleep || (w'.asleep == w.asleep + {t} && InWait(pc) && Key(pc) == w.epoch))
            && (Committed(pc') ==> InWait(pc) && InWait(pc') && Key(pc') == Key(pc))
            && !pc'.Decide? && !pc'.CloseAdvance? && !pc'.CloseWake?
            && (Waiting(pc') ==> Committed(pc'))
  {
    if InWait(w.pcs[t]) { BlockMoves(p, w, t, k); } else { LeaveMoves(p, w, t, k); }
    hide WaitStep;
  }

  lemma BlockMoves(p: Protocol, w: World, t: Tid, k: EChoice)
    requires t < |w.pcs| && Sleeping(w.pcs[t]) && InWait(w.pcs[t])
    ensures var w' := WaitStep(p, w, t, k); var pc, pc' := w.pcs[t], w'.pcs[t];
            && |w'.pcs| == |w.pcs| && w'.pcs == w.pcs[t := pc'] && w'.ring == w.ring && w'.epoch == w.epoch
            && w'.bumped == w.bumped && w'.woke == w.woke
            && (w'.asleep <= w.asleep || (w'.asleep == w.asleep + {t} && Key(pc) == w.epoch))
            && (Committed(pc') ==> InWait(pc') && Key(pc') == Key(pc))
            && !pc'.Decide? && !pc'.CloseAdvance? && !pc'.CloseWake? && (Waiting(pc') ==> Committed(pc'))
  {
    var w' := WaitStep(p, w, t, k);
    assert w'.pcs == w.pcs[t := w'.pcs[t]];
  }

  lemma LeaveMoves(p: Protocol, w: World, t: Tid, k: EChoice)
    requires t < |w.pcs| && Sleeping(w.pcs[t]) && !InWait(w.pcs[t])
    ensures var w' := WaitStep(p, w, t, k); var pc' := w'.pcs[t];
            && |w'.pcs| == |w.pcs| && w'.pcs == w.pcs[t := pc'] && w'.ring == w.ring && w'.epoch == w.epoch
            && w'.bumped == w.bumped && w'.woke == w.woke && w'.asleep == w.asleep
            && !Committed(pc') && !pc'.Decide? && !pc'.CloseAdvance? && !pc'.CloseWake? && !Waiting(pc')
  {
    var w' := WaitStep(p, w, t, k);
    assert w'.pcs == w.pcs[t := w'.pcs[t]];
  }

  lemma WaitStranding(c: Config, p: Protocol, cons: set<Tid>, w: World, t: Tid, k: EChoice)
    requires t < |w.pcs| && RoleOk(p, cons, w, t) && NoStranding(c, cons, w) && Sleeping(w.pcs[t])
    ensures NoStranding(c, cons, WaitStep(p, w, t, k))
  {
    var w' := WaitStep(p, w, t, k);
    WaitMoves(p, w, t, k);
    if AllCommitted(cons, w') && HeadShown(c, w'.ring.q) && !w'.ring.q.closed {
      assert AllCommitted(cons, w);
      WaitCovered(cons, w, w', t);
    }
  }

  lemma WaitCovered(cons: set<Tid>, w: World, w': World, t: Tid)
    requires t < |w.pcs| == |w'.pcs| && w'.pcs == w.pcs[t := w'.pcs[t]] && w'.epoch == w.epoch && Sleeping(w.pcs[t])
    requires w'.asleep <= w.asleep || (w'.asleep == w.asleep + {t} && InWait(w.pcs[t]) && Key(w.pcs[t]) == w.epoch)
    requires Waiting(w'.pcs[t]) ==> InWait(w.pcs[t]) && Key(w'.pcs[t]) == Key(w.pcs[t])
    requires Covered(cons, w)
    ensures Covered(cons, w')
  {
    if v :| 0 <= v < |w.pcs| && BeforeAdvance(w.pcs[v]) {
      assert BeforeAdvance(w'.pcs[v]);
    } else {
      assert AllStale(w');
      if v :| 0 <= v < |w.pcs| && w.pcs[v].WakeOne? {
        assert w'.pcs[v].WakeOne?;
      } else {
        var u :| u in cons && u !in w.asleep;
        assert u !in w'.asleep;
      }
    }
  }

  // A notifier that finds pending_ set leaves the consumers covered.
  lemma SkipCovers(p: Protocol, cons: set<Tid>, w: World, w': World, t: Tid)
    requires t < |w.pcs| == |w'.pcs| && (w.pcs[t].LoadPending? || w.pcs[t].SwapPending?)
    requires w'.pcs == w.pcs[t := Out(w.pcs[t].ans)] && w'.epoch == w.epoch && w'.asleep == w.asleep
    requires w.pending && PendingOk(p, w) && AllCommitted(cons, w')
    requires forall u | 0 <= u < |w.pcs| :: RoleOk(p, cons, w, u)
    ensures Covered(cons, w')
  {
    if AboutToAdvance(w) {
      KeptAdvance(w, w', t);
      var v :| 0 <= v < |w'.pcs| && w'.pcs[v].Advance?;
      assert BeforeAdvance(w'.pcs[v]);
    } else if w.asleep == {} {
      var u :| u in cons;
      assert u !in w'.asleep;
    } else {
      var v :| 0 <= v < |w.pcs| && (w.pcs[v].WakeOne? || w.pcs[v].Delist? || w.pcs[v].Absorb? || (InWait(w.pcs[v]) && v !in w.asleep));
      assert RoleOk(p, cons, w, v) && w'.pcs[v] == w.pcs[v];
      if w.pcs[v].WakeOne? { assert w'.pcs[v].WakeOne?; } else { assert v in cons && Committed(w'.pcs[v]); }
    }
  }

  lemma WakeCovers(p: Protocol, cons: set<Tid>, w: World, w': World, t: Tid)
    requires t < |w.pcs| == |w'.pcs| && w.pcs[t].WakeOne?
    requires w'.pcs == w.pcs[t := Out(w.pcs[t].ans)] && w'.epoch == w.epoch
    requires w'.asleep == w.asleep == {} || exists u | u in w.asleep :: w'.asleep == w.asleep - {u}
    requires AllCommitted(cons, w') && Covered(cons, w)
    requires forall u | 0 <= u < |w.pcs| :: RoleOk(p, cons, w, u)
    requires forall u | u in w.asleep :: u < |w.pcs|
    ensures Covered(cons, w')
  {
    if v :| 0 <= v < |w.pcs| && BeforeAdvance(w.pcs[v]) {
      assert BeforeAdvance(w'.pcs[v]);
    } else {
      assert AllStale(w');
      if w.asleep == {} {
        var u :| u in cons;
        assert u !in w'.asleep;
      } else {
        var u :| u in w.asleep && w'.asleep == w.asleep - {u};
        assert RoleOk(p, cons, w, u);
        assert u in cons && u !in w'.asleep;
      }
    }
  }

  lemma SomebodyCounted(p: Protocol, cons: set<Tid>, w: World)
    requires AllCommitted(cons, w) && CountOk(p, w) && !p.EpochOnly?
    requires forall u | 0 <= u < |w.pcs| :: RoleOk(p, cons, w, u)
    ensures w.waiters != 0
  {
    var u :| u in cons;
    assert RoleOk(p, cons, w, u);
    assert u in w.counted;
  }

  lemma NotifyStranding(c: Config, p: Protocol, cons: set<Tid>, w: World, t: Tid, k: EChoice)
    requires t < |w.pcs| && NoStranding(c, cons, w) && PendingOk(p, w) && CountOk(p, w) && CloseOk(w)
    requires !Preparing(w.pcs[t]) && !Sleeping(w.pcs[t])
    requires forall u | 0 <= u < |w.pcs| :: RoleOk(p, cons, w, u)
    requires forall u | u in w.asleep :: u < |w.pcs|
    ensures NoStranding(c, cons, NotifyStep(p, cons, w, t, k))
  {
    var w' := NotifyStep(p, cons, w, t, k);
    var pc := w.pcs[t];
    NotifyOutsideRing(p, cons, w, t, k);
    if w' != w && AllCommitted(cons, w') && HeadShown(c, w'.ring.q) && !w'.ring.q.closed {
      NotifyMoves(p, cons, w, t, k);
      assert t !in cons && AllCommitted(cons, w);
      if BeforeAdvance(w'.pcs[t]) {
      } else if pc.LoadWaiters? {
        SomebodyCounted(p, cons, w);
      } else if pc.LoadPending? || pc.SwapPending? {
        SkipCovers(p, cons, w, w', t);
      } else if pc.Advance? {
        AdvanceStale(p, cons, w, w', t);
        assert w'.pcs[t].WakeOne?;
      } else if pc.WakeOne? {
        WakeCovers(p, cons, w, w', t);
      } else {
        CoveredCalm(cons, w, w', t);
      }
    }
  }

  lemma NotifyOutsideRing(p: Protocol, cons: set<Tid>, w: World, t: Tid, k: EChoice)
    requires t < |w.pcs|
    ensures var w' := NotifyStep(p, cons, w, t, k); w'.ring == w.ring && |w'.pcs| == |w.pcs| && w'.pcs == w.pcs[t := w'.pcs[t]]
  {
    if BeforeAdvance(w.pcs[t]) {
      LoadsOutsideRing(p, cons, w, t, k);
      hide NotifyStep;
    }
  }

  lemma LoadsOutsideRing(p: Protocol, cons: set<Tid>, w: World, t: Tid, k: EChoice)
    requires t < |w.pcs| && BeforeAdvance(w.pcs[t])
    ensures var w' := NotifyStep(p, cons, w, t, k); w'.ring == w.ring && |w'.pcs| == |w.pcs| && w'.pcs == w.pcs[t := w'.pcs[t]]
  {
  }

  lemma StrandingStep(c: Config, p: Protocol, cons: set<Tid>, w: World, t: Tid, k: EChoice)
    requires EInv(c, p, cons, w) && t < |w.pcs|
    ensures NoStranding(c, cons, EStep(c, p, cons, w, t, k))
  {
    assert Agree(w, t) && RoleOk(p, cons, w, t);
    if !PcPlace(w.pcs[t]).Nowhere? { RingStranding(c, p, cons, w, t, k); }
    else if Entering(w.pcs[t], k).Enters? { EnterStranding(c, p, cons, w, t, k); }
    else if Preparing(w.pcs[t]) { PrepareStranding(c, p, cons, w, t, k); }
    else if Sleeping(w.pcs[t]) { WaitStranding(c, p, cons, w, t, k); }
    else { NotifyStranding(c, p, cons, w, t, k); }
  }

  // ------------------------------------------------------------------ close

  lemma LandedClose(w: World, ring': State, t: Tid, k: EChoice)
    requires t < |w.pcs| && !PcPlace(w.pcs[t]).Nowhere?
    ensures var w' := Landed(w, ring', t, k);
            && |w'.pcs| == |w.pcs| && w'.ring == ring' && w' == w.(ring := ring', pcs := w'.pcs)
            && w'.pcs == w.pcs[t := w'.pcs[t]]
            && !w'.pcs[t].Decide? && !InWait(w'.pcs[t]) && !w'.pcs[t].CloseWake?
            && (w'.pcs[t].CloseAdvance? ==> w.pcs[t].Closing? && t < |ring'.threads| && ring'.threads[t].pc.Idle?)
  {
    assert !InWait(w.pcs[t]);
    if t < |ring'.threads| && ring'.threads[t].pc.Idle? { FinishClose(w.pcs[t], k, ring'.threads[t].pc.res); }
    hide Finish;
  }

  lemma FinishClose(pc: Epc, k: EChoice, res: Result)
    requires !PcPlace(pc).Nowhere?
    ensures var pc' := Finish(pc, k, res);
            !pc'.Decide? && !InWait(pc') && !pc'.CloseWake? && (pc'.CloseAdvance? ==> pc.Closing?)
  {
  }

  // The step keeps every other thread's part, and t's new counter has its own.
  ghost predicate ClosesWell(w: World, w': World, t: Tid)
    requires t < |w.pcs| == |w'.pcs|
  {
    && w'.pcs == w.pcs[t := w'.pcs[t]] && w'.epoch >= w.epoch
    && (w.ring.q.closed ==> w'.ring.q.closed)
    && (w'.bumped ==> w'.ring.q.closed)
    && (w.bumped ==> w'.bumped) && (w'.bumped && !w.bumped ==> w'.epoch > w.epoch)
    && (w'.woke ==> w'.bumped && w'.asleep == {})
    && CloseRole(w', w'.pcs[t])
  }

  lemma CloseFrame(p: Protocol, cons: set<Tid>, w: World, w': World, t: Tid)
    requires t < |w.pcs| == |w'.pcs| && CloseOk(w) && ClosesWell(w, w', t)
    requires forall u | 0 <= u < |w.pcs| :: RoleOk(p, cons, w, u)
    ensures CloseOk(w')
  {
    forall u | 0 <= u < |w'.pcs| ensures CloseRole(w', w'.pcs[u]) {
      assert CloseRole(w, w.pcs[u]) && RoleOk(p, cons, w, u);
    }
  }

  lemma RingClose(c: Config, p: Protocol, cons: set<Tid>, w: World, t: Tid, k: EChoice)
    requires Inv(c, w.ring) && t < |w.pcs| == |w.ring.threads| && Agree(w, t) && CloseOk(w) && !PcPlace(w.pcs[t]).Nowhere?
    ensures var w' := EStep(c, p, cons, w, t, k); |w'.pcs| == |w.pcs| && ClosesWell(w, w', t)
  {
    StepClosed(c, w.ring, t, Go);
    LandedClose(w, Step(c, w.ring, t, Go), t, k);
  }

  lemma StepCloses(c: Config, p: Protocol, cons: set<Tid>, w: World, t: Tid, k: EChoice)
    requires Inv(c, w.ring) && t < |w.pcs| == |w.ring.threads| && Agree(w, t) && CloseOk(w)
    ensures var w' := EStep(c, p, cons, w, t, k); |w'.pcs| == |w.pcs| && ClosesWell(w, w', t)
  {
    if !PcPlace(w.pcs[t]).Nowhere? {
      RingClose(c, p, cons, w, t, k);
    } else if Entering(w.pcs[t], k).Enters? {
      EnterStepped(c, p, cons, w, t, k);
      EnterClose(w, Step(c, w.ring, t, Start(Entering(w.pcs[t], k).call)), t, k);
    } else if Preparing(w.pcs[t]) { PrepareClose(p, w, t, k); }
    else if Sleeping(w.pcs[t]) { WaitClose(p, w, t, k); }
    else { NotifyClose(p, cons, w, t, k); }
  }

  lemma CloseOkStep(c: Config, p: Protocol, cons: set<Tid>, w: World, t: Tid, k: EChoice)
    requires Shape(c, p, cons, w) && CloseOk(w) && t < |w.pcs|
    ensures CloseOk(EStep(c, p, cons, w, t, k))
  {
    assert Agree(w, t);
    StepCloses(c, p, cons, w, t, k);
    CloseFrame(p, cons, w, EStep(c, p, cons, w, t, k), t);
  }

  lemma EnterClose(w: World, ring': State, t: Tid, k: EChoice)
    requires t < |w.pcs| && CloseOk(w) && PcPlace(w.pcs[t]).Nowhere? && Entering(w.pcs[t], k).Enters? && ring'.q == w.ring.q
    ensures ClosesWell(w, At(w.(ring := ring'), t, Entering(w.pcs[t], k).pc), t)
  {
  }

  lemma PrepareClose(p: Protocol, w: World, t: Tid, k: EChoice)
    requires t < |w.pcs| && CloseOk(w) && Preparing(w.pcs[t])
    ensures var w' := PrepareStep(p, w, t, k); |w'.pcs| == |w.pcs| && ClosesWell(w, w', t)
  {
    assert CloseRole(w, w.pcs[t]);
  }

  lemma WaitClose(p: Protocol, w: World, t: Tid, k: EChoice)
    requires t < |w.pcs| && CloseOk(w) && Sleeping(w.pcs[t])
    ensures var w' := WaitStep(p, w, t, k); |w'.pcs| == |w.pcs| && ClosesWell(w, w', t)
  {
    assert CloseRole(w, w.pcs[t]);
    WaitMoves(p, w, t, k);
  }

  lemma NotifyClose(p: Protocol, cons: set<Tid>, w: World, t: Tid, k: EChoice)
    requires t < |w.pcs| && CloseOk(w) && PcPlace(w.pcs[t]).Nowhere? && !Preparing(w.pcs[t]) && !Sleeping(w.pcs[t])
    ensures var w' := NotifyStep(p, cons, w, t, k); |w'.pcs| == |w.pcs| && ClosesWell(w, w', t)
  {
    var w' := NotifyStep(p, cons, w, t, k);
    assert CloseRole(w, w.pcs[t]);
    NotifyFrame(p, cons, w, t, k);
    NotifyOutsideRing(p, cons, w, t, k);
    if w' != w { NotifyMoves(p, cons, w, t, k); }
  }

  // ------------------------------------------------------------- theorems

  lemma EStepInv(c: Config, p: Protocol, cons: set<Tid>, w: World, t: Tid, k: EChoice)
    requires EInv(c, p, cons, w) && t < |w.pcs|
    ensures EInv(c, p, cons, EStep(c, p, cons, w, t, k))
  {
    ShapeStep(c, p, cons, w, t, k);
    CountStep(c, p, cons, w, t, k);
    PendingStep(c, p, cons, w, t, k);
    StrandingStep(c, p, cons, w, t, k);
    CloseOkStep(c, p, cons, w, t, k);
  }

  lemma EInitInv(c: Config, p: Protocol, cons: set<Tid>, w: World)
    requires EInit(c, w) && c.rule.CppRule? && forall u | u in cons :: u < |w.pcs|
    ensures EInv(c, p, cons, w)
  {
    InitInv(c, w.ring);
    forall t | 0 <= t < |w.pcs| ensures Agree(w, t) && RoleOk(p, cons, w, t) {}
  }

  lemma ENextInv(c: Config, p: Protocol, cons: set<Tid>, w: World, w': World)
    requires EInv(c, p, cons, w) && ENext(c, p, cons, w, w')
    ensures EInv(c, p, cons, w')
  {
    var t: Tid, k: EChoice :| t < |w.pcs| && w' == EStep(c, p, cons, w, t, k);
    EStepInv(c, p, cons, w, t, k);
  }

  lemma {:induction false} ERunInv(c: Config, p: Protocol, cons: set<Tid>, tr: seq<World>, j: nat)
    requires ERun(c, p, cons, tr) && j < |tr|
    ensures EInv(c, p, cons, tr[j])
  {
    if j == 0 {
      EInitInv(c, p, cons, tr[0]);
    } else {
      ERunInv(c, p, cons, tr, j - 1);
      assert ENextAt(c, p, cons, tr, j - 1);
      ENextInv(c, p, cons, tr[j - 1], tr[j]);
    }
  }

  // The operating system has thread t blocked in wait.
  predicate Asleep(w: World, t: Tid) { t < |w.pcs| && w.pcs[t].Blocked? && t in w.asleep }

  /**
   * No published event is stranded, under any of the three protocols. In no
   * reachable state are all the consumers of an open queue blocked while the head
   * is published and no notification is under way: although notifiers skip when
   * pending_ is set, waiters cancel, and the system may wake anybody.
   */
  lemma NeverStranded(c: Config, p: Protocol, cons: set<Tid>, tr: seq<World>, j: nat)
    requires ERun(c, p, cons, tr) && j < |tr|
    requires cons != {} && forall u | u in cons :: Asleep(tr[j], u)
    requires HeadShown(c, tr[j].ring.q) && !tr[j].ring.q.closed
    ensures exists v | 0 <= v < |tr[j].pcs| :: InFlight(tr[j].pcs[v])
  {
    ERunInv(c, p, cons, tr, j);
    var w := tr[j];
    assert Covered(cons, w);
    if v :| 0 <= v < |w.pcs| && BeforeAdvance(w.pcs[v]) { assert InFlight(w.pcs[v]); }
    else if v :| 0 <= v < |w.pcs| && w.pcs[v].WakeOne? { assert InFlight(w.pcs[v]); }
  }

  /** Once close has woken everybody, nobody is blocked and nobody blocks again. */
  lemma CloseWakesAll(c: Config, p: Protocol, cons: set<Tid>, tr: seq<World>, j: nat, u: Tid)
    requires ERun(c, p, cons, tr) && j < |tr| && tr[j].woke
    ensures !Asleep(tr[j], u)
    ensures u < |tr[j].pcs| && InWait(tr[j].pcs[u]) ==> Key(tr[j].pcs[u]) != tr[j].epoch
  {
    ERunInv(c, p, cons, tr, j);
  }

  // In close, from its start to its return.
  predicate InCloseCall(pc: Epc) { pc.Closing? || pc.CloseAdvance? || pc.CloseWake? }

  // The step does not take the wakes back; and thread t leaves close only by the wake.
  predicate ClosesOn(w: World, w': World, t: Tid) {
    && |w'.pcs| == |w.pcs| && (w.woke ==> w'.woke)
    && (t < |w.pcs| && InCloseCall(w.pcs[t]) ==> InCloseCall(w'.pcs[t]) || (w'.woke && w'.pcs[t] == Out(Told(CloseDone))))
  }

  lemma PrepareCloses(p: Protocol, w: World, u: Tid, k: EChoice, t: Tid)
    requires u < |w.pcs| && Preparing(w.pcs[u])
    ensures ClosesOn(w, PrepareStep(p, w, u, k), t)
  {
  }

  lemma WaitCloses(p: Protocol, w: World, u: Tid, k: EChoice, t: Tid)
    requires u < |w.pcs| && Sleeping(w.pcs[u])
    ensures ClosesOn(w, WaitStep(p, w, u, k), t)
  {
  }

  lemma NotifyCloses(p: Protocol, cons: set<Tid>, w: World, u: Tid, k: EChoice, t: Tid)
    requires u < |w.pcs| && !w.pcs[u].Closing?
    ensures ClosesOn(w, NotifyStep(p, cons, w, u, k), t)
  {
  }

  lemma LocalCloses(p: Protocol, cons: set<Tid>, w: World, u: Tid, k: EChoice, t: Tid)
    requires u < |w.pcs| && Entering(w.pcs[u], k).NoEntry? && PcPlace(w.pcs[u]).Nowhere?
    ensures ClosesOn(w, Local(p, cons, w, u, k), t)
  {
    if Preparing(w.pcs[u]) { PrepareCloses(p, w, u, k, t); }
    else if Sleeping(w.pcs[u]) { WaitCloses(p, w, u, k, t); }
    else { NotifyCloses(p, cons, w, u, k, t); }
    hide PrepareStep, WaitStep, NotifyStep, ClosesOn;
  }

  lemma CloseStep(c: Config, p: Protocol, cons: set<Tid>, w: World, u: Tid, k: EChoice, t: Tid)
    requires Sized(c, w.ring.q) && u < |w.pcs| == |w.ring.threads|
    ensures ClosesOn(w, EStep(c, p, cons, w, u, k), t)
  {
    if PcPlace(w.pcs[u]).Nowhere? && Entering(w.pcs[u], k).NoEntry? { LocalCloses(p, cons, w, u, k, t); }
    hide Step, Local;
  }

  lemma {:induction false} WokeStays(c: Config, p: Protocol, cons: set<Tid>, tr: seq<World>, j: nat, l: nat)
    requires ERun(c, p, cons, tr) && j <= l < |tr| && tr[j].woke
    ensures tr[l].woke
    decreases l
  {
    if j < l {
      WokeStays(c, p, cons, tr, j, l - 1);
      assert ENextAt(c, p, cons, tr, l - 1);
      var u: Tid, k: EChoice :| u < |tr[l - 1].pcs| && tr[l] == EStep(c, p, cons, tr[l - 1], u, k);
      CloseStep(c, p, cons, tr[l - 1], u, k, 0);
      hide EStep;
    }
  }

  /** A close that returns has woken everybody, and nobody sleeps from then on. */
  lemma CloseReturnsAwake(c: Config, p: Protocol, cons: set<Tid>, tr: seq<World>, j: nat, l: nat, t: Tid, u: Tid)
    requires ERun(c, p, cons, tr) && j < l < |tr| && t < |tr[j].pcs| && t < |tr[j + 1].pcs|
    requires InCloseCall(tr[j].pcs[t]) && !InCloseCall(tr[j + 1].pcs[t])
    ensures tr[j + 1].pcs[t] == Out(Told(CloseDone)) && tr[l].woke && !Asleep(tr[l], u)
  {
    hide EStep, InCloseCall;
    assert ENextAt(c, p, cons, tr, j);
    var v: Tid, k: EChoice :| v < |tr[j].pcs| && tr[j + 1] == EStep(c, p, cons, tr[j], v, k);
    CloseStep(c, p, cons, tr[j], v, k, t);
    WokeStays(c, p, cons, tr, j + 1, l);
    CloseWakesAll(c, p, cons, tr, l, u);
  }

  /** A waiter is counted from before its re-check until it leaves, so a count of zero means nobody waits. */
  lemma CountIsExact(c: Config, p: Protocol, cons: set<Tid>, tr: seq<World>, j: nat)
    requires ERun(c, p, cons, tr) && j < |tr| && !p.EpochOnly?
    ensures tr[j].waiters == |tr[j].counted|
    ensures forall t | 0 <= t < |tr[j].pcs| :: t in tr[j].counted <==> Counted(tr[j].pcs[t])
  {
    ERunInv(c, p, cons, tr, j);
    forall t | 0 <= t < |tr[j].pcs| ensures t in tr[j].counted <==> Counted(tr[j].pcs[t]) { assert RoleOk(p, cons, tr[j], t); }
  }

  /** The ring inside any run of the protocol is a run of the ring. */
  lemma RingRuns(c: Config, p: Protocol, cons: set<Tid>, tr: seq<World>)
    requires ERun(c, p, cons, tr)
    ensures Run(c, seq(|tr|, j requires 0 <= j < |tr| => tr[j].ring))
  {
    var rr := seq(|tr|, j requires 0 <= j < |tr| => tr[j].ring);
    forall j | 0 <= j < |rr| - 1 ensures NextAt(c, rr, j) { RingNext(c, p, cons, tr, j); }
  }

  lemma RingNext(c: Config, p: Protocol, cons: set<Tid>, tr: seq<World>, j: nat)
    requires ERun(c, p, cons, tr) && j + 1 < |tr|
    ensures Next(c, tr[j].ring, tr[j + 1].ring)
  {
    assert ENextAt(c, p, cons, tr, j);
    var t: Tid, k: EChoice :| t < |tr[j].pcs| && tr[j + 1] == EStep(c, p, cons, tr[j], t, k);
    StepsRing(c, p, cons, tr[j], t, k);
  }

  lemma StepsRing(c: Config, p: Protocol, cons: set<Tid>, w: World, t: Tid, k: EChoice)
    requires Sized(c, w.ring.q) && t < |w.pcs| == |w.ring.threads|
    ensures Next(c, w.ring, EStep(c, p, cons, w, t, k).ring)
  {
    var pc := w.pcs[t];
    if !PcPlace(pc).Nowhere? { assert EStep(c, p, cons, w, t, k).ring == Step(c, w.ring, t, Go); }
    else if Entering(pc, k).Enters? { assert EStep(c, p, cons, w, t, k).ring == Step(c, w.ring, t, Start(Entering(pc, k).call)); }
    else {
      PrepareOutside(p, w, t, k);
      WaitOutside(p, w, t, k);
      NotifyOutside(p, cons, w, t, k);
    }
  }
}

/** Go's sleep protocol never strands a published event, and Close strands no sleeper. */
module BitmapSafety {
  import opened Slots
  import opened Ring
  import opened RingInvariant
  import opened RingSteps
  import opened RingTheorems
  import opened RingCalls
  import opened BitmapWake

  // ------------------------------------------------- the two layers agree

  predicate Agree(w: World, t: Tid)
    requires t < |w.pcs| == |w.ring.threads|
  {
    PcPlace(w.pcs[t]) == RingPlace(w.ring.threads[t].pc)
  }

  // ------------------------------------------------------------ the invariant

  predicate InPopCall(pc: Wpc) {
    || (pc.NextPop? && !pc.site.Alone?) || (pc.Popping? && !pc.site.Alone?)
    || pc.NextDrain? || pc.Draining? || pc.Prepare? || pc.LookTail? || pc.Decide? || pc.Block?
    || pc.WaitClear? || pc.Cancel? || pc.CancelDrop? || pc.NextPeek? || pc.Peeking?
    || (pc.N1? && pc.nx.Again?) || (pc.N2? && pc.nx.Again?) || (pc.N3? && pc.nx.Again?)
  }

  // The thread has announced itself and neither slept nor withdrawn.
  predicate Announced(pc: Wpc) {
    || (pc.NextPop? && pc.site.Recheck?) || (pc.Popping? && pc.site.Recheck?)
    || Committed(pc)
  }

  // Its re-check has found the head unpublished and it is on its way to sleep, or asleep.
  predicate Committed(pc: Wpc) { pc.LookTail? || pc.Decide? || pc.Block? }

  predicate Sends(pc: Wpc, u: Tid) { (pc.N3? && pc.i == u) || (pc.CloseSend? && u in pc.m) }

  // A notification under way.
  predicate InFlight(pc: Wpc) { pc.N1? || pc.N2? || pc.N3? || (pc.CloseSend? && pc.m != {}) }

  predicate Targets(cons: set<Tid>, pc: Wpc) {
    && (pc.N2? || pc.N3? ==> pc.i in cons)
    && (pc.CloseSend? ==> pc.m <= cons)
  }

  ghost predicate Sender(w: World, u: Tid) { exists v | 0 <= v < |w.pcs| :: Sends(w.pcs[v], u) }

  // A wake for u is still possible, waiting in its channel, or on its way.
  ghost predicate Reached(w: World, u: Tid) { u in w.asleep || u in w.tokens || Sender(w, u) }

  ghost predicate Reaches(w: World) {
    forall u | 0 <= u < |w.pcs| && Announced(w.pcs[u]) :: Reached(w, u)
  }

  ghost predicate AllCommitted(cons: set<Tid>, w: World) {
    cons != {} && forall u | u in cons :: u < |w.pcs| && Committed(w.pcs[u])
  }

  ghost predicate Covered(cons: set<Tid>, w: World) {
    (exists u | u in cons :: u in w.tokens) || (exists v | 0 <= v < |w.pcs| :: InFlight(w.pcs[v]))
  }

  // If every consumer is going to sleep while the head is published, somebody will wake one.
  ghost predicate NoStranding(c: Config, cons: set<Tid>, w: World) {
    AllCommitted(cons, w) && HeadShown(c, w.ring.q) ==> Covered(cons, w)
  }

  ghost predicate CloseOk(w: World) {
    && (w.swept ==> w.ring.q.closed)
    && (forall t | 0 <= t < |w.pcs| && (w.pcs[t].CloseCas? || w.pcs[t].CloseSwap?) :: w.ring.q.closed)
    && (w.swept ==> forall u | 0 <= u < |w.pcs| && (w.pcs[u].Decide? || w.pcs[u].Block?) :: u in w.tokens || Sender(w, u))
  }

  ghost predicate Shape(c: Config, cons: set<Tid>, w: World) {
    && c.rule.GoRule?
    && Inv(c, w.ring) && |w.pcs| == |w.ring.threads|
    && (forall u | u in cons :: u < |w.pcs|)
    && w.asleep <= cons
    && (forall t | 0 <= t < |w.pcs| :: Agree(w, t) && (InPopCall(w.pcs[t]) ==> t in cons) && Targets(cons, w.pcs[t]))
  }

  ghost predicate WInv(c: Config, cons: set<Tid>, w: World) {
    Shape(c, cons, w) && Reaches(w) && NoStranding(c, cons, w) && CloseOk(w)
  }

  // --------------------------------------------------------------- shape

  // The step moves only thread t, in both layers, and keeps the ring's invariant.
  ghost predicate Stepped(c: Config, w: World, w': World, t: Tid) {
    && t < |w.pcs| == |w'.pcs| == |w.ring.threads| == |w'.ring.threads|
    && w'.pcs == w.pcs[t := w'.pcs[t]]
    && w'.ring.threads == w.ring.threads[t := w'.ring.threads[t]]
    && Inv(c, w'.ring) && Agree(w', t)
  }

  lemma EnterStepped(c: Config, cons: set<Tid>, w: World, t: Tid, k: WChoice)
    requires Inv(c, w.ring) && t < |w.pcs| == |w.ring.threads| && Agree(w, t)
    requires PcPlace(w.pcs[t]).Nowhere? && Entering(w.pcs[t], k).Enters?
    ensures var w' := WStep(c, cons, w, t, k); Stepped(c, w, w', t) && w'.ring.q == w.ring.q
  {
    var e := Entering(w.pcs[t], k);
    StartPlace(c, w.ring, t, e.call);
    StepInv(c, w.ring, t, Start(e.call));
  }

  lemma LandedStepped(c: Config, w: World, ring': State, t: Tid, k: WChoice)
    requires t < |w.pcs| == |w.ring.threads| == |ring'.threads| && Agree(w, t) && !PcPlace(w.pcs[t]).Nowhere?
    requires ring'.threads == w.ring.threads[t := ring'.threads[t]] && Inv(c, ring')
    requires RingPlace(ring'.threads[t].pc) == RingPlace(w.ring.threads[t].pc) || ring'.threads[t].pc.Idle?
    ensures Stepped(c, w, Landed(w, ring', t, k), t)
  {
  }

  lemma WithinStepped(c: Config, cons: set<Tid>, w: World, t: Tid, k: WChoice)
    requires Inv(c, w.ring) && t < |w.pcs| == |w.ring.threads| && Agree(w, t) && !PcPlace(w.pcs[t]).Nowhere?
    ensures Stepped(c, w, WStep(c, cons, w, t, k), t)
  {
    var r := Inner(w.pcs[t], k);
    StepMoves(c, w.ring, t, r);
    StepPlace(c, w.ring, t, r);
    StepInv(c, w.ring, t, r);
    LandedStepped(c, w, Step(c, w.ring, t, r), t, k);
  }

  lemma StepStepped(c: Config, cons: set<Tid>, w: World, t: Tid, k: WChoice)
    requires Inv(c, w.ring) && t < |w.pcs| == |w.ring.threads| && Agree(w, t)
    ensures Stepped(c, w, WStep(c, cons, w, t, k), t)
  {
    if !PcPlace(w.pcs[t]).Nowhere? { WithinStepped(c, cons, w, t, k); }
    else if Entering(w.pcs[t], k).Enters? { EnterStepped(c, cons, w, t, k); }
    else { LocalStepped(c, cons, w, t, k); }
  }

  lemma LocalStepped(c: Config, cons: set<Tid>, w: World, t: Tid, k: WChoice)
    requires Inv(c, w.ring) && t < |w.pcs| == |w.ring.threads| && Agree(w, t)
    requires PcPlace(w.pcs[t]).Nowhere? && Entering(w.pcs[t], k).NoEntry?
    ensures Stepped(c, w, Local(cons, w, t, k), t)
  {
    LocalMoves(cons, w, t, k);
    hide Inv, Local;
  }

  predicate Signals(pc: Wpc) { pc.N1? || pc.N2? || pc.N3? || pc.CloseCas? || pc.CloseSwap? || pc.CloseSend? }

  // A step outside the ring moves one thread, to a counter outside the ring.
  lemma LocalMoves(cons: set<Tid>, w: World, t: Tid, k: WChoice)
    requires t < |w.pcs| && PcPlace(w.pcs[t]).Nowhere?
    ensures var w' := Local(cons, w, t, k);
      |w'.pcs| == |w.pcs| && w'.ring == w.ring && w'.pcs == w.pcs[t := w'.pcs[t]] && PcPlace(w'.pcs[t]).Nowhere?
  {
    if Signals(w.pcs[t]) { SignalMoves(cons, w, t, k); } else { SleeperMoves(cons, w, t, k); }
    hide Local;
  }

  lemma SignalMoves(cons: set<Tid>, w: World, t: Tid, k: WChoice)
    requires t < |w.pcs| && Signals(w.pcs[t])
    ensures var w' := Local(cons, w, t, k);
      |w'.pcs| == |w.pcs| && w'.ring == w.ring && w'.pcs == w.pcs[t := w'.pcs[t]] && PcPlace(w'.pcs[t]).Nowhere?
  {
  }

  lemma SleeperMoves(cons: set<Tid>, w: World, t: Tid, k: WChoice)
    requires t < |w.pcs| && PcPlace(w.pcs[t]).Nowhere? && !Signals(w.pcs[t])
    ensures var w' := Local(cons, w, t, k);
      |w'.pcs| == |w.pcs| && w'.ring == w.ring && w'.pcs == w.pcs[t := w'.pcs[t]] && PcPlace(w'.pcs[t]).Nowhere?
  {
  }

  // The counter t goes to is one that t may be at, and names only consumers.
  ghost predicate RoleOk(cons: set<Tid>, w: World, t: Tid)
    requires t < |w.pcs|
  {
    (InPopCall(w.pcs[t]) ==> t in cons) && Targets(cons, w.pcs[t]) && w.asleep <= cons
  }

  lemma LocalRoles(cons: set<Tid>, w: World, t: Tid, k: WChoice)
    requires t < |w.pcs| && RoleOk(cons, w, t)
    ensures var w' := Local(cons, w, t, k); |w'.pcs| == |w.pcs| && RoleOk(cons, w', t)
  {
    if Signals(w.pcs[t]) { SignalRoles(cons, w, t, k); } else { SleeperRoles(cons, w, t, k); }
    hide Local, RoleOk;
  }

  lemma SignalRoles(cons: set<Tid>, w: World, t: Tid, k: WChoice)
    requires t < |w.pcs| && RoleOk(cons, w, t) && Signals(w.pcs[t])
    ensures var w' := Local(cons, w, t, k); |w'.pcs| == |w.pcs| && RoleOk(cons, w', t)
  {
  }

  lemma SleeperRoles(cons: set<Tid>, w: World, t: Tid, k: WChoice)
    requires t < |w.pcs| && RoleOk(cons, w, t) && !Signals(w.pcs[t])
    ensures var w' := Local(cons, w, t, k); |w'.pcs| == |w.pcs| && RoleOk(cons, w', t)
  {
  }

  lemma LandedRoles(cons: set<Tid>, w: World, ring': State, t: Tid, k: WChoice)
    requires t < |w.pcs| && RoleOk(cons, w, t) && !PcPlace(w.pcs[t]).Nowhere?
    ensures var w' := Landed(w, ring', t, k); |w'.pcs| == |w.pcs| && RoleOk(cons, w', t)
  {
  }

  lemma RolesStep(c: Config, cons: set<Tid>, w: World, t: Tid, k: WChoice)
    requires Sized(c, w.ring.q) && t < |w.pcs| == |w.ring.threads| && RoleOk(cons, w, t)
    ensures var w' := WStep(c, cons, w, t, k); |w'.pcs| == |w.pcs| && RoleOk(cons, w', t)
  {
    if !PcPlace(w.pcs[t]).Nowhere? { LandedRoles(cons, w, Step(c, w.ring, t, Inner(w.pcs[t], k)), t, k); }
    else { LocalRoles(cons, w, t, k); }
  }

  lemma ShapeStep(c: Config, cons: set<Tid>, w: World, t: Tid, k: WChoice)
    requires Shape(c, cons, w) && t < |w.pcs|
    ensures Shape(c, cons, WStep(c, cons, w, t, k)) && Stepped(c, w, WStep(c, cons, w, t, k), t)
  {
    var w' := WStep(c, cons, w, t, k);
    assert Agree(w, t);
    StepStepped(c, cons, w, t, k);
    RolesStep(c, cons, w, t, k);
    forall u | 0 <= u < |w.pcs| && u != t ensures Agree(w', u) { assert Agree(w, u); }
  }

  // --------------------------------------------------- announced sleepers are reached

  // How a step may change the bitmap, the tokens and its own counter.
  ghost predicate KeepsReach(w: World, w': World, t: Tid)
    requires t < |w.pcs| == |w'.pcs|
  {
    && (forall u | u in w.asleep && u !in w'.asleep :: (u == t && !Announced(w'.pcs[t])) || Sends(w'.pcs[t], u))
    && (forall u | u in w.tokens && u !in w'.tokens :: u == t && !Announced(w'.pcs[t]))
    && (forall u | Sends(w.pcs[t], u) :: Sends(w'.pcs[t], u) || u in w'.tokens)
    && (Announced(w'.pcs[t]) ==> Announced(w.pcs[t]) || t in w'.asleep)
  }

  lemma NotifyKeepsReach(cons: set<Tid>, w: World, t: Tid, k: WChoice)
    requires t < |w.pcs| && (w.pcs[t].N1? || w.pcs[t].N2? || w.pcs[t].N3?)
    ensures var w' := Local(cons, w, t, k); |w'.pcs| == |w.pcs| && KeepsReach(w, w', t)
  {
  }

  lemma CloseKeepsReach(cons: set<Tid>, w: World, t: Tid, k: WChoice)
    requires t < |w.pcs| && (w.pcs[t].CloseCas? || w.pcs[t].CloseSwap? || w.pcs[t].CloseSend?)
    ensures var w' := Local(cons, w, t, k); |w'.pcs| == |w.pcs| && KeepsReach(w, w', t)
  {
  }

  predicate Notifying(pc: Wpc) { pc.N1? || pc.N2? || pc.N3? || pc.CloseCas? || pc.CloseSwap? || pc.CloseSend? }

  lemma SleeperKeepsReach(cons: set<Tid>, w: World, t: Tid, k: WChoice)
    requires t < |w.pcs| && !Notifying(w.pcs[t])
    ensures var w' := Local(cons, w, t, k); |w'.pcs| == |w.pcs| && KeepsReach(w, w', t)
  {
    var pc' := Local(cons, w, t, k).pcs[t];
    assert forall u :: !Sends(pc', u) && !Sends(w.pcs[t], u);
  }

  lemma LandedKeepsReach(w: World, ring': State, t: Tid, k: WChoice)
    requires t < |w.pcs| && !PcPlace(w.pcs[t]).Nowhere?
    ensures var w' := Landed(w, ring', t, k); |w'.pcs| == |w.pcs| && KeepsReach(w, w', t)
  {
  }

  lemma StepKeepsReach(c: Config, cons: set<Tid>, w: World, t: Tid, k: WChoice)
    requires Sized(c, w.ring.q) && t < |w.pcs| == |w.ring.threads|
    ensures var w' := WStep(c, cons, w, t, k); |w'.pcs| == |w.pcs| && KeepsReach(w, w', t)
  {
    var pc := w.pcs[t];
    if !PcPlace(pc).Nowhere? { LandedKeepsReach(w, Step(c, w.ring, t, Inner(pc, k)), t, k); }
    else if Entering(pc, k).Enters? { EnterKeepsReach(w, t, k, Step(c, w.ring, t, Start(Entering(pc, k).call))); }
    else if pc.N1? || pc.N2? || pc.N3? { NotifyKeepsReach(cons, w, t, k); }
    else if pc.CloseCas? || pc.CloseSwap? || pc.CloseSend? { CloseKeepsReach(cons, w, t, k); }
    else { SleeperKeepsReach(cons, w, t, k); }
  }

  lemma EnterKeepsReach(w: World, t: Tid, k: WChoice, ring': State)
    requires t < |w.pcs| && PcPlace(w.pcs[t]).Nowhere? && Entering(w.pcs[t], k).Enters?
    ensures KeepsReach(w, At(w.(ring := ring'), t, Entering(w.pcs[t], k).pc), t)
  {
  }

  lemma ReachedStep(c: Config, w: World, w': World, t: Tid, u: Tid)
    requires Stepped(c, w, w', t) && KeepsReach(w, w', t) && u < |w.pcs|
    requires Reached(w, u) && (u == t ==> Announced(w'.pcs[t]))
    ensures Reached(w', u)
  {
    if u !in w'.asleep && u !in w'.tokens {
      if Sender(w, u) {
        var v :| 0 <= v < |w.pcs| && Sends(w.pcs[v], u);
        assert Sends(w'.pcs[v], u);
      } else {
        assert Sends(w'.pcs[t], u);
      }
    }
  }

  lemma ReachesStep(c: Config, cons: set<Tid>, w: World, t: Tid, k: WChoice)
    requires Shape(c, cons, w) && Reaches(w) && t < |w.pcs|
    ensures Reaches(WStep(c, cons, w, t, k))
  {
    var w' := WStep(c, cons, w, t, k);
    ShapeStep(c, cons, w, t, k);
    StepKeepsReach(c, cons, w, t, k);
    forall u | 0 <= u < |w'.pcs| && Announced(w'.pcs[u]) ensures Reached(w', u) {
      if u != t || Announced(w.pcs[t]) { ReachedStep(c, w, w', t, u); }
    }
  }

  // ------------------------------------------------------- no event is stranded

  lemma LandedCommits(w: World, ring': State, t: Tid, k: WChoice)
    requires t < |w.pcs| && !PcPlace(w.pcs[t]).Nowhere?
    requires Committed(Landed(w, ring', t, k).pcs[t])
    ensures w.pcs[t] == Popping(Recheck) && t < |ring'.threads| && ring'.threads[t].pc.Idle? && !ring'.threads[t].pc.res.PopOK?
  {
  }

  lemma LocalCommits(cons: set<Tid>, w: World, t: Tid, k: WChoice)
    requires t < |w.pcs|
    ensures var w' := Local(cons, w, t, k); |w'.pcs| == |w.pcs| && (Committed(w'.pcs[t]) ==> Committed(w.pcs[t]))
  {
  }

  // A thread commits only when its re-check has just found the head unpublished.
  lemma CommitStep(c: Config, cons: set<Tid>, w: World, t: Tid, k: WChoice)
    requires Inv(c, w.ring) && t < |w.pcs| == |w.ring.threads| && Agree(w, t)
    requires var w' := WStep(c, cons, w, t, k); t < |w'.pcs| && Committed(w'.pcs[t]) && !Committed(w.pcs[t])
    ensures !HeadShown(c, WStep(c, cons, w, t, k).ring.q)
  {
    if !PcPlace(w.pcs[t]).Nowhere? {
      LandedCommits(w, Step(c, w.ring, t, Inner(w.pcs[t], k)), t, k);
      EmptyCommits(c, w.ring, t);
    } else {
      LocalCommits(cons, w, t, k);
    }
  }

  // The head becomes published only as its producer enters Notify.
  lemma ShowStep(c: Config, cons: set<Tid>, w: World, t: Tid, k: WChoice)
    requires Inv(c, w.ring) && c.rule.GoRule? && t < |w.pcs| == |w.ring.threads| && Agree(w, t)
    requires !HeadShown(c, w.ring.q) && HeadShown(c, WStep(c, cons, w, t, k).ring.q)
    ensures var w' := WStep(c, cons, w, t, k); t < |w'.pcs| && w'.pcs[t].N1?
  {
    if !PcPlace(w.pcs[t]).Nowhere? {
      var r := Inner(w.pcs[t], k);
      StepShows(c, w.ring, t, r);
      StepMoves(c, w.ring, t, r);
      LandedShows(w, Step(c, w.ring, t, r), t, k);
    } else if Entering(w.pcs[t], k).Enters? {
      EnterStepped(c, cons, w, t, k);
    } else {
      LocalClosed(cons, w, t, k);
    }
  }

  lemma LandedShows(w: World, ring': State, t: Tid, k: WChoice)
    requires t < |w.pcs| && w.pcs[t].Pushing? && t < |ring'.threads| && ring'.threads[t].pc.Idle?
    requires ring'.threads[t].pc.res.PushOK? || ring'.threads[t].pc.res.PushPanicked?
    ensures Landed(w, ring', t, k).pcs[t].N1?
  {
  }

  // A notifier leaves a non-empty set of committed consumers only if one of them is
  // reached in another way.
  lemma LeaveStep(c: Config, cons: set<Tid>, w: World, w': World, t: Tid)
    requires Stepped(c, w, w', t) && Reaches(w) && AllCommitted(cons, w')
    requires w.pcs[t].N1? && w.asleep == {} && w'.tokens == w.tokens && !Committed(w'.pcs[t])
    ensures Covered(cons, w')
  {
    var u :| u in cons;
    assert u != t;
    assert Reached(w, u);
    if u !in w.tokens {
      var v :| 0 <= v < |w.pcs| && Sends(w.pcs[v], u);
      assert InFlight(w'.pcs[v]);
    }
  }

  lemma QuietStep(c: Config, cons: set<Tid>, w: World, t: Tid, k: WChoice)
    requires Shape(c, cons, w) && NoStranding(c, cons, w) && t < |w.pcs|
    requires !InFlight(w.pcs[t])
    ensures NoStranding(c, cons, WStep(c, cons, w, t, k))
  {
    var w' := WStep(c, cons, w, t, k);
    ShapeStep(c, cons, w, t, k);
    StepKeepsReach(c, cons, w, t, k);
    assert Agree(w, t);
    if AllCommitted(cons, w') && HeadShown(c, w'.ring.q) && !InFlight(w'.pcs[t]) {
      if !HeadShown(c, w.ring.q) { ShowStep(c, cons, w, t, k); }
      if Committed(w'.pcs[t]) && !Committed(w.pcs[t]) { CommitStep(c, cons, w, t, k); }
      assert AllCommitted(cons, w);
      if v :| 0 <= v < |w.pcs| && InFlight(w.pcs[v]) {
        assert InFlight(w'.pcs[v]);
      } else {
        var u :| u in cons && u in w.tokens;
        assert u in w'.tokens;
      }
    }
  }

  lemma NotifierMoves(cons: set<Tid>, w: World, t: Tid, k: WChoice)
    requires t < |w.pcs| && InFlight(w.pcs[t]) && Targets(cons, w.pcs[t])
    ensures var w' := Local(cons, w, t, k); var pc := w.pcs[t];
            && |w'.pcs| == |w.pcs|
            && (|| InFlight(w'.pcs[t])
                || (pc.N1? && w.asleep == {} && w'.tokens == w.tokens && !Committed(w'.pcs[t]))
                || exists u | u in cons :: u in w'.tokens)
  {
  }

  lemma NoStrandingStep(c: Config, cons: set<Tid>, w: World, t: Tid, k: WChoice)
    requires Shape(c, cons, w) && Reaches(w) && NoStranding(c, cons, w) && t < |w.pcs|
    ensures NoStranding(c, cons, WStep(c, cons, w, t, k))
  {
    if !InFlight(w.pcs[t]) {
      QuietStep(c, cons, w, t, k);
    } else {
      var w' := Local(cons, w, t, k);
      assert WStep(c, cons, w, t, k) == w';
      ShapeStep(c, cons, w, t, k);
      NotifierMoves(cons, w, t, k);
      if AllCommitted(cons, w') && !InFlight(w'.pcs[t]) && !(exists u | u in cons :: u in w'.tokens) {
        LeaveStep(c, cons, w, w', t);
      }
    }
  }

  // ------------------------------------------------------------------ close

  ghost predicate Assured(w: World, u: Tid) { u in w.tokens || Sender(w, u) }

  lemma AssuredStep(c: Config, w: World, w': World, t: Tid, u: Tid)
    requires Stepped(c, w, w', t) && KeepsReach(w, w', t) && u < |w.pcs|
    requires Assured(w, u) && (u == t ==> Announced(w'.pcs[t]))
    ensures Assured(w', u)
  {
    if u !in w'.tokens {
      var v :| 0 <= v < |w.pcs| && Sends(w.pcs[v], u);
      assert Sends(w'.pcs[v], u);
    }
  }

  lemma SweepStep(c: Config, cons: set<Tid>, w: World, t: Tid, k: WChoice, u: Tid)
    requires Shape(c, cons, w) && Reaches(w) && t < |w.pcs| && w.pcs[t].CloseSwap? && u < |w.pcs| && u != t
    requires Announced(w.pcs[u])
    ensures Assured(WStep(c, cons, w, t, k), u)
  {
    var w' := WStep(c, cons, w, t, k);
    ShapeStep(c, cons, w, t, k);
    assert Reached(w, u);
    assert w'.pcs[t] == CloseSend(w.asleep) && w'.tokens == w.tokens;
    if u in w.asleep {
      assert Sends(w'.pcs[t], u);
    } else if u !in w.tokens {
      var v :| 0 <= v < |w.pcs| && Sends(w.pcs[v], u);
      assert Sends(w'.pcs[v], u);
    }
  }

  lemma ClosedStep(c: Config, cons: set<Tid>, w: World, t: Tid, k: WChoice)
    requires Shape(c, cons, w) && t < |w.pcs|
    ensures var w' := WStep(c, cons, w, t, k);
            && t < |w'.pcs|
            && (w.ring.q.closed ==> w'.ring.q.closed)
            && (w'.pcs[t].CloseCas? && !w.pcs[t].CloseCas? ==> w'.ring.q.closed)
            && (w'.pcs[t].CloseSwap? && !w.pcs[t].CloseSwap? ==> w.pcs[t].CloseCas? && w'.ring == w.ring)
            && (w'.swept && !w.swept ==> w.pcs[t].CloseSwap? && w'.ring == w.ring)
            && (w'.pcs[t].Decide? || w'.pcs[t].Block? ==> w.pcs[t].Decide? || w.pcs[t].Block? || (w.pcs[t].LookTail? && !w.ring.q.closed))
  {
    assert Agree(w, t);
    var pc := w.pcs[t];
    if !PcPlace(pc).Nowhere? { StepClosed(c, w.ring, t, Inner(pc, k)); LandedClosed(w, Step(c, w.ring, t, Inner(pc, k)), t, k); }
    else if Entering(pc, k).Enters? { EnterStepped(c, cons, w, t, k); }
    else { LocalClosed(cons, w, t, k); }
  }

  lemma LandedClosed(w: World, ring': State, t: Tid, k: WChoice)
    requires t < |w.pcs| && !PcPlace(w.pcs[t]).Nowhere?
    ensures var w' := Landed(w, ring', t, k);
            && |w'.pcs| == |w.pcs| && w'.ring == ring' && w'.swept == w.swept
            && !w'.pcs[t].CloseSwap? && !w'.pcs[t].Decide? && !w'.pcs[t].Block?
            && (w'.pcs[t].CloseCas? ==> w.pcs[t].Closing? && t < |ring'.threads| && ring'.threads[t].pc.Idle?)
  {
  }

  lemma LocalClosed(cons: set<Tid>, w: World, t: Tid, k: WChoice)
    requires t < |w.pcs| && PcPlace(w.pcs[t]).Nowhere?
    ensures var w' := Local(cons, w, t, k);
            && |w'.pcs| == |w.pcs| && w'.ring == w.ring
            && (w'.pcs[t].CloseCas? ==> w.pcs[t].CloseCas?)
            && (w'.pcs[t].CloseSwap? ==> w.pcs[t].CloseSwap? || w.pcs[t].CloseCas?)
            && (w'.swept && !w.swept ==> w.pcs[t].CloseSwap?)
            && (w'.pcs[t].Decide? || w'.pcs[t].Block? ==> w.pcs[t].Decide? || w.pcs[t].Block? || (w.pcs[t].LookTail? && !w.ring.q.closed))
  {
  }

  lemma CloseOkStep(c: Config, cons: set<Tid>, w: World, t: Tid, k: WChoice)
    requires Shape(c, cons, w) && Reaches(w) && CloseOk(w) && t < |w.pcs|
    ensures CloseOk(WStep(c, cons, w, t, k))
  {
    var w' := WStep(c, cons, w, t, k);
    ShapeStep(c, cons, w, t, k);
    StepKeepsReach(c, cons, w, t, k);
    ClosedStep(c, cons, w, t, k);
    if w'.swept {
      forall u | 0 <= u < |w'.pcs| && (w'.pcs[u].Decide? || w'.pcs[u].Block?) ensures Assured(w', u) {
        if !w.swept { SweepStep(c, cons, w, t, k, u); }
        else { assert Assured(w, u); AssuredStep(c, w, w', t, u); }
      }
    }
  }

  // ------------------------------------------------------------- theorems

  lemma WStepInv(c: Config, cons: set<Tid>, w: World, t: Tid, k: WChoice)
    requires WInv(c, cons, w) && t < |w.pcs|
    ensures WInv(c, cons, WStep(c, cons, w, t, k))
  {
    ShapeStep(c, cons, w, t, k);
    ReachesStep(c, cons, w, t, k);
    NoStrandingStep(c, cons, w, t, k);
    CloseOkStep(c, cons, w, t, k);
  }

  lemma WInitInv(c: Config, cons: set<Tid>, w: World)
    requires WInit(c, w) && c.rule.GoRule? && forall u | u in cons :: u < |w.pcs|
    ensures WInv(c, cons, w)
  {
    InitInv(c, w.ring);
    forall t | 0 <= t < |w.pcs| ensures Agree(w, t) {}
  }

  lemma WNextInv(c: Config, cons: set<Tid>, w: World, w': World)
    requires WInv(c, cons, w) && WNext(c, cons, w, w')
    ensures WInv(c, cons, w')
  {
    var t: Tid, k: WChoice :| t < |w.pcs| && w' == WStep(c, cons, w, t, k);
    WStepInv(c, cons, w, t, k);
    hide WInv, WStep;
  }

  lemma {:induction false} WRunInv(c: Config, cons: set<Tid>, tr: seq<World>, j: nat)
    requires WRun(c, cons, tr) && j < |tr|
    ensures WInv(c, cons, tr[j])
  {
    hide WInv, WNext, WInit;
    if j == 0 {
      WInitInv(c, cons, tr[0]);
    } else {
      WRunInv(c, cons, tr, j - 1);
      assert WNextAt(c, cons, tr, j - 1);
      WNextInv(c, cons, tr[j - 1], tr[j]);
    }
  }

  // Thread t is in its select with no token in its channel.
  predicate Asleep(w: World, t: Tid) { t < |w.pcs| && w.pcs[t].Block? && t !in w.tokens }

  /**
   * No published event is stranded. In no reachable state are all the consumers
   * asleep, without a token, while the head is published and no notification is
   * under way - holes, cancelled waits, tokens left from earlier wakes and timers
   * that fire at any time included.
   */
  lemma NeverStranded(c: Config, cons: set<Tid>, tr: seq<World>, j: nat)
    requires WRun(c, cons, tr) && j < |tr|
    requires cons != {} && forall u | u in cons :: Asleep(tr[j], u)
    requires HeadShown(c, tr[j].ring.q)
    ensures exists v | 0 <= v < |tr[j].pcs| :: InFlight(tr[j].pcs[v])
  {
    WRunInv(c, cons, tr, j);
  }

  /**
   * Once the Close that swept the bitmap has sent its tokens, no consumer sleeps
   * without a token but for the moment before a notifier that had already
   * claimed it sends one.
   */
  lemma CloseWakesAll(c: Config, cons: set<Tid>, tr: seq<World>, j: nat, u: Tid)
    requires WRun(c, cons, tr) && j < |tr|
    requires tr[j].swept && Asleep(tr[j], u)
    ensures exists v | 0 <= v < |tr[j].pcs| :: Sends(tr[j].pcs[v], u)
  {
    WRunInv(c, cons, tr, j);
    assert Assured(tr[j], u);
  }

  // In Close, from its start to its return.
  predicate InCloseCall(pc: Wpc) { pc.Closing? || pc.CloseCas? || pc.CloseSwap? || pc.CloseSend? }

  // Someone has begun to wake the sleepers, and has swapped the bitmap out or is about to.
  ghost predicate Sweeps(w: World) { w.closing ==> w.swept || exists v | 0 <= v < |w.pcs| :: w.pcs[v].CloseSwap? }

  // The flags stay set, and only a thread in Close sets the first.
  predicate FlagsGrow(w: World, w': World, u: Tid) {
    && u < |w.pcs| == |w'.pcs| && (w.closing ==> w'.closing) && (w.swept ==> w'.swept)
    && (w'.closing && !w.closing ==> w'.pcs[u].CloseSwap?)
  }

  // How its own step moves thread u through Close.
  predicate ClosesOn(w: World, w': World, u: Tid) {
    && FlagsGrow(w, w', u)
    && (InCloseCall(w.pcs[u]) ==> InCloseCall(w'.pcs[u]) || (w'.closing && w'.pcs[u] == Out(Told(CloseDone))))
    && (w.pcs[u].CloseSwap? ==> w'.swept)
    && (w'.pcs[u].CloseSwap? || w'.pcs[u].CloseSend? ==> w'.closing)
  }

  lemma LocalCloses(cons: set<Tid>, w: World, u: Tid, k: WChoice)
    requires u < |w.pcs| && Entering(w.pcs[u], k).NoEntry? && PcPlace(w.pcs[u]).Nowhere? && (w.pcs[u].CloseSwap? || w.pcs[u].CloseSend? ==> w.closing)
    ensures ClosesOn(w, Local(cons, w, u, k), u)
  {
  }

  lemma CloseStep(c: Config, cons: set<Tid>, w: World, u: Tid, k: WChoice)
    requires Sized(c, w.ring.q) && u < |w.pcs| == |w.ring.threads| && (w.pcs[u].CloseSwap? || w.pcs[u].CloseSend? ==> w.closing)
    ensures ClosesOn(w, WStep(c, cons, w, u, k), u)
  {
    if PcPlace(w.pcs[u]).Nowhere? && Entering(w.pcs[u], k).NoEntry? { LocalCloses(cons, w, u, k); }
    hide Step, Local;
  }

  // Whoever is past the flag finds it set.
  ghost predicate Flagged(w: World) { forall v | 0 <= v < |w.pcs| :: w.pcs[v].CloseSwap? || w.pcs[v].CloseSend? ==> w.closing }

  // A step of thread u takes thread t no further through Close than its own steps do.
  predicate ClosedBy(w: World, w': World, t: Tid) {
    t < |w.pcs| == |w'.pcs| && InCloseCall(w.pcs[t]) ==> InCloseCall(w'.pcs[t]) || (w'.closing && w'.pcs[t] == Out(Told(CloseDone)))
  }

  lemma CloseNext(c: Config, cons: set<Tid>, w: World, w': World, t: Tid)
    requires WNext(c, cons, w, w') && Sweeps(w) && Flagged(w)
    ensures Sweeps(w') && Flagged(w') && ClosedBy(w, w', t)
  {
    hide WStep;
    var u: Tid, k: WChoice :| u < |w.pcs| && w' == WStep(c, cons, w, u, k);
    CloseStep(c, cons, w, u, k);
    StepElsewhere(c, cons, w, u, k);
    if w'.closing && !w'.swept {
      if w.closing {
        var v :| 0 <= v < |w.pcs| && w.pcs[v].CloseSwap?;
        assert w'.pcs[v].CloseSwap?;
      } else {
        assert w'.pcs[u].CloseSwap?;
      }
    }
  }

  // A step moves no other thread, and announces no other.
  predicate Elsewhere(w: World, w': World, u: Tid) {
    && u < |w.pcs| == |w'.pcs| && w'.pcs == w.pcs[u := w'.pcs[u]] && w'.asleep <= w.asleep + {u}
  }

  lemma LocalElsewhere(cons: set<Tid>, w: World, u: Tid, k: WChoice)
    requires u < |w.pcs|
    ensures Elsewhere(w, Local(cons, w, u, k), u)
  {
  }

  lemma StepElsewhere(c: Config, cons: set<Tid>, w: World, u: Tid, k: WChoice)
    requires Sized(c, w.ring.q) && u < |w.pcs| == |w.ring.threads|
    ensures Elsewhere(w, WStep(c, cons, w, u, k), u)
  {
    LocalElsewhere(cons, w, u, k);
    hide Step, Finish, Local, Entering, PcPlace;
  }

  lemma {:induction false} RunSweeps(c: Config, cons: set<Tid>, tr: seq<World>, j: nat)
    requires WRun(c, cons, tr) && j < |tr|
    ensures Sweeps(tr[j]) && Flagged(tr[j])
  {
    hide WNext;
    if j > 0 {
      RunSweeps(c, cons, tr, j - 1);
      assert WNextAt(c, cons, tr, j - 1);
      CloseNext(c, cons, tr[j - 1], tr[j], 0);
    }
  }

  /** When a Close returns, it or another has swapped the bitmap of the sleepers out, or is about to. */
  lemma CloseReturns(c: Config, cons: set<Tid>, tr: seq<World>, j: nat, t: Tid)
    requires WRun(c, cons, tr) && j + 1 < |tr| && t < |tr[j].pcs| && t < |tr[j + 1].pcs|
    requires InCloseCall(tr[j].pcs[t]) && !InCloseCall(tr[j + 1].pcs[t])
    ensures tr[j + 1].pcs[t] == Out(Told(CloseDone)) && tr[j + 1].closing && Sweeps(tr[j + 1])
  {
    hide InCloseCall;
    RunSweeps(c, cons, tr, j);
    RunSweeps(c, cons, tr, j + 1);
    assert WNextAt(c, cons, tr, j);
    hide WNext;
    CloseNext(c, cons, tr[j], tr[j + 1], t);
  }

  /**
   * The protocol runs on the ring itself: the ring inside any run of it is a run of
   * the ring, so that everything proved about the ring holds here.
   */
  lemma RingRuns(c: Config, cons: set<Tid>, tr: seq<World>)
    requires WRun(c, cons, tr)
    ensures Run(c, seq(|tr|, j requires 0 <= j < |tr| => tr[j].ring))
  {
    var rr := seq(|tr|, j requires 0 <= j < |tr| => tr[j].ring);
    forall j | 0 <= j < |rr| - 1 ensures NextAt(c, rr, j) { RingNext(c, cons, tr, j); }
  }

  lemma RingNext(c: Config, cons: set<Tid>, tr: seq<World>, j: nat)
    requires WRun(c, cons, tr) && j + 1 < |tr|
    ensures Next(c, tr[j].ring, tr[j + 1].ring)
  {
    assert WNextAt(c, cons, tr, j);
    var t: Tid, k: WChoice :| t < |tr[j].pcs| && tr[j + 1] == WStep(c, cons, tr[j], t, k);
    StepsRing(c, cons, tr[j], t, k);
  }

  lemma StepsRing(c: Config, cons: set<Tid>, w: World, t: Tid, k: WChoice)
    requires Sized(c, w.ring.q) && t < |w.pcs| == |w.ring.threads|
    ensures Next(c, w.ring, WStep(c, cons, w, t, k).ring)
  {
    var pc := w.pcs[t];
    if !PcPlace(pc).Nowhere? { assert WStep(c, cons, w, t, k).ring == Step(c, w.ring, t, Inner(pc, k)); }
    else if Entering(pc, k).Enters? { assert WStep(c, cons, w, t, k).ring == Step(c, w.ring, t, Start(Entering(pc, k).call)); }
    else { LocalClosed(cons, w, t, k); }
  }
}

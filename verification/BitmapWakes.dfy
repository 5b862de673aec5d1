/** No wake is swallowed, over every run of Go's queue: whoever a notifier claims looks at the ring for it or hands it on. */
module BitmapWakes {
  import opened Ring
  import opened RingInvariant
  import opened RingSteps
  import opened RingTheorems
  import opened RingCalls
  import opened BitmapWake
  import opened BitmapSafety

  // Between the announcement and its withdrawal.
  predicate Announced(pc: Wpc) {
    pc == NextPop(Recheck) || pc == Popping(Recheck) || pc.LookTail? || pc.Decide? || pc.Block? || pc.WaitClear? || pc.Cancel?
  }

  /** A notifier, or Close, has cleared thread t's bit: the wake is t's to heed. */
  predicate Claimed(w: World, t: Tid) { t < |w.pcs| && Announced(w.pcs[t]) && t !in w.asleep }

  predicate Notifying(pc: Wpc) { pc.N1? || pc.N2? || pc.N3? }

  // In the step from w to w', thread t ends a notification: nobody is asleep, or
  // the sleeper whose bit it has cleared gets a token.
  predicate Notifies(w: World, w': World, t: Tid) {
    && t < |w.pcs| && t < |w'.pcs| && Notifying(w.pcs[t]) && w'.pcs[t] == Resume(w.pcs[t].nx)
    && (w.asleep == {} || (w.pcs[t].N3? && w.pcs[t].i in w'.tokens))
  }

  // At state m it goes to look at the ring for the wake, or hands it on.
  predicate Heeds(tr: seq<World>, m: nat, t: Tid) {
    m < |tr| && ((t < |tr[m].pcs| && tr[m].pcs[t] == NextPop(Woken)) || (m + 1 < |tr| && Notifies(tr[m], tr[m + 1], t)))
  }

  // The wake is still t's to heed.
  predicate Owed(w: World, t: Tid) { Claimed(w, t) || (t < |w.pcs| && (w.pcs[t].CancelDrop? || Notifying(w.pcs[t]))) }

  // One step: the wake stays owed until it is heeded.
  predicate Holds(w: World, w': World, t: Tid) {
    Owed(w, t) ==> Owed(w', t) || (t < |w'.pcs| && w'.pcs[t] == NextPop(Woken)) || Notifies(w, w', t)
  }

  lemma OtherHolds(c: Config, cons: set<Tid>, w: World, u: Tid, k: WChoice, t: Tid)
    requires Sized(c, w.ring.q) && u < |w.pcs| == |w.ring.threads| && t != u
    ensures Holds(w, WStep(c, cons, w, u, k), t)
  {
    StepElsewhere(c, cons, w, u, k);
    hide WStep, Announced;
  }

  lemma LocalHolds(cons: set<Tid>, w: World, t: Tid, k: WChoice)
    requires t < |w.pcs| && PcPlace(w.pcs[t]).Nowhere? && Entering(w.pcs[t], k).NoEntry?
    ensures Holds(w, Local(cons, w, t, k), t)
  {
  }

  // A ring operation that starts.
  lemma EnterHolds(c: Config, cons: set<Tid>, w: World, t: Tid, k: WChoice)
    requires Sized(c, w.ring.q) && t < |w.pcs| == |w.ring.threads| && PcPlace(w.pcs[t]).Nowhere?
    ensures Holds(w, WStep(c, cons, w, t, k), t)
  {
    if Entering(w.pcs[t], k).NoEntry? { LocalHolds(cons, w, t, k); }
    hide Step, Local;
  }

  // The re-check ends in a cancelled wait, or goes on towards the sleep.
  lemma RecheckHolds(c: Config, cons: set<Tid>, w: World, t: Tid, k: WChoice)
    requires Sized(c, w.ring.q) && t < |w.pcs| == |w.ring.threads| && !PcPlace(w.pcs[t]).Nowhere?
    ensures Holds(w, WStep(c, cons, w, t, k), t)
  {
    hide Step;
  }

  lemma NextHolds(c: Config, cons: set<Tid>, w: World, w': World, t: Tid)
    requires WNext(c, cons, w, w')
    ensures Holds(w, w', t)
  {
    var u: Tid, k: WChoice :| u < |w.pcs| && w' == WStep(c, cons, w, u, k);
    if u != t { OtherHolds(c, cons, w, u, k, t); }
    else if PcPlace(w.pcs[t]).Nowhere? { EnterHolds(c, cons, w, t, k); }
    else { RecheckHolds(c, cons, w, t, k); }
    hide Holds, WStep;
  }

  lemma {:induction false} OwedUntilHeeded(c: Config, cons: set<Tid>, tr: seq<World>, j: nat, l: nat, t: Tid)
    requires WRun(c, cons, tr) && j <= l < |tr| && Claimed(tr[j], t)
    ensures Owed(tr[l], t) || exists m | j <= m <= l :: Heeds(tr, m, t)
    decreases l
  {
    hide Owed, Notifies, Claimed, WNext, WInit;
    if l == j {
      ClaimIsOwed(tr[j], t);
    } else {
      OwedUntilHeeded(c, cons, tr, j, l - 1, t);
      if Owed(tr[l - 1], t) {
        assert WNextAt(c, cons, tr, l - 1);
        NextHolds(c, cons, tr[l - 1], tr[l], t);
        if !Owed(tr[l], t) { assert Heeds(tr, l, t) || Heeds(tr, l - 1, t); }
      } else {
        var m :| j <= m <= l - 1 && Heeds(tr, m, t);
      }
    }
  }

  lemma ClaimIsOwed(w: World, t: Tid)
    requires Claimed(w, t)
    ensures Owed(w, t)
  {
  }

  /**
   * A consumer that a notifier has claimed does not leave its Pop, nor start it
   * over, before it has looked at the ring for that wake, or has found nobody
   * else asleep, or has sent another sleeper a token: a cancelled wait loses no wake.
   */
  lemma WakeIsHeeded(c: Config, cons: set<Tid>, tr: seq<World>, j: nat, l: nat, t: Tid)
    requires WRun(c, cons, tr) && j <= l < |tr| && Claimed(tr[j], t)
    requires t < |tr[l].pcs| && (tr[l].pcs[t].Out? || tr[l].pcs[t] == NextPop(Opening))
    ensures exists m | j <= m <= l :: Heeds(tr, m, t)
  {
    OwedUntilHeeded(c, cons, tr, j, l, t);
    hide Heeds;
  }
}

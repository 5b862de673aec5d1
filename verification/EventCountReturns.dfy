/** What the calls of the C++ queue tell their callers, over every run of its three sleep protocols. */
module EventCountReturns {
  import opened Options
  import opened Slots
  import opened Ring
  import opened RingInvariant
  import opened RingTheorems
  import opened RingCalls
  import opened RingReturns
  import opened CallAnswers
  import opened EventCount
  import opened EventCountSafety

  /** The answer that a call at pc is bound to give. Only these counters carry one: none of them looks at the ring again or sleeps. */
  function Bound(pc: Epc): Option<Answer> {
    match pc
    case Cancel(nx) => if nx.Return? then Some(nx.ans) else None
    case NextPeek(ans) => Some(ans)
    case Peeking(ans) => Some(ans)
    case LoadWaiters(ans) => Some(ans)
    case LoadPending(ans) => Some(ans)
    case SwapPending(ans) => Some(ans)
    case Advance(ans) => Some(ans)
    case WakeOne(ans) => Some(ans)
    case CloseAdvance => Some(Told(CloseDone))
    case CloseWake => Some(Told(CloseDone))
    case _ => None
  }

  // The call is pop; a call that only notifies any more is told apart by its answer.
  predicate IsPop(pc: Epc) { if InFlight(pc) then PopAnswer(pc.ans) else InPopCall(pc) }

  function ViewOf(pc: Epc): View { if pc.Out? then Between(pc.last) else Going(Bound(pc), IsPop(pc)) }

  // A result of the ring operation that a call at pc is in ends the call's search.
  predicate Settles(pc: Epc, res: Result) {
    match pc
    case Pushing => true
    case Popping(site) => res.PopOK? || site.Alone?
    case Draining => res.Drained?
    case Closing => true
    case _ => false
  }

  // What the step from w to w' gives thread t's call.
  function GivenBy(w: World, w': World, t: Tid): Option<Answer> {
    if t < |w.pcs| && Ends(w.ring, w'.ring, t) && Settles(w.pcs[t], w'.ring.threads[t].pc.res)
    then Some(Told(w'.ring.threads[t].pc.res)) else None
  }

  // A step that thread t takes only because its deadline has passed.
  ghost predicate ByDeadline(c: Config, p: Protocol, cons: set<Tid>, w: World, w': World, t: Tid) {
    && Sized(c, w.ring.q) && t < |w.pcs| == |w.ring.threads|
    && w' == EStep(c, p, cons, w, t, Timeout) && w' != EStep(c, p, cons, w, t, Proceed)
  }

  // ------------------------------------------------------- one step

  // Thread t's call, over one step.
  predicate CallMoved(w: World, w': World, t: Tid, late: bool) {
    t < |w.pcs| && t < |w'.pcs| && Moved(ViewOf(w.pcs[t]), ViewOf(w'.pcs[t]), GivenBy(w, w', t), late)
  }

  // The end of a ring operation.
  lemma FinishView(pc: Epc, k: EChoice, res: Result, late: bool)
    requires !PcPlace(pc).Nowhere? && ViewOk(ViewOf(pc)) && (pc.Closing? ==> res == CloseDone)
    requires pc.Draining? && Finish(pc, k, res) == Out(TimedOut) ==> late
    ensures Moved(ViewOf(pc), ViewOf(Finish(pc, k, res)), if Settles(pc, res) then Some(Told(res)) else None, late)
  {
    if pc.Popping? { PopFinishView(pc, k, res, late); } else { OtherFinishView(pc, k, res, late); }
    hide Finish, Moved, Settles;
  }

  lemma PopFinishView(pc: Epc, k: EChoice, res: Result, late: bool)
    requires pc.Popping? && ViewOk(ViewOf(pc))
    ensures Moved(ViewOf(pc), ViewOf(Finish(pc, k, res)), if Settles(pc, res) then Some(Told(res)) else None, late)
  {
  }

  lemma OtherFinishView(pc: Epc, k: EChoice, res: Result, late: bool)
    requires !PcPlace(pc).Nowhere? && !pc.Popping? && ViewOk(ViewOf(pc)) && (pc.Closing? ==> res == CloseDone)
    requires pc.Draining? && Finish(pc, k, res) == Out(TimedOut) ==> late
    ensures Moved(ViewOf(pc), ViewOf(Finish(pc, k, res)), if Settles(pc, res) then Some(Told(res)) else None, late)
  {
  }

  lemma WithinView(c: Config, p: Protocol, cons: set<Tid>, w: World, t: Tid, k: EChoice)
    requires Inv(c, w.ring) && t < |w.pcs| == |w.ring.threads| && Agree(w, t) && !PcPlace(w.pcs[t]).Nowhere? && ViewOk(ViewOf(w.pcs[t]))
    ensures var w' := EStep(c, p, cons, w, t, k); CallMoved(w, w', t, ByDeadline(c, p, cons, w, w', t))
  {
    var w' := EStep(c, p, cons, w, t, k);
    hide Moved, Bound, Settles, ViewOk, Inv, Step, IsPop;
    var r := Go;
    var late := ByDeadline(c, p, cons, w, w', t);
    StepMoves(c, w.ring, t, r);
    var ring' := Step(c, w.ring, t, r);
    if ring'.threads[t].pc.Idle? {
      if w.pcs[t].Closing? { CloseResult(c, w.ring, t, r); }
      if w.pcs[t].Draining? && w'.pcs[t] == Out(TimedOut) { LateLook(c, p, cons, w, t, k); }
      FinishView(w.pcs[t], k, ring'.threads[t].pc.res, late);
    } else {
      SameView(ViewOf(w.pcs[t]), late);
    }
  }

  // A look at the tail ends the call as late only because of the deadline.
  lemma LateLook(c: Config, p: Protocol, cons: set<Tid>, w: World, t: Tid, k: EChoice)
    requires Sized(c, w.ring.q) && t < |w.pcs| == |w.ring.threads| && w.pcs[t].Draining?
    requires var w' := EStep(c, p, cons, w, t, k); t < |w'.pcs| && w'.pcs[t] == Out(TimedOut)
    ensures ByDeadline(c, p, cons, w, EStep(c, p, cons, w, t, k), t)
  {
    hide Step;
  }

  lemma EnterView(c: Config, p: Protocol, cons: set<Tid>, w: World, t: Tid, k: EChoice)
    requires Sized(c, w.ring.q) && t < |w.pcs| == |w.ring.threads| && Agree(w, t) && PcPlace(w.pcs[t]).Nowhere?
    requires Entering(w.pcs[t], k).Enters? && ViewOk(ViewOf(w.pcs[t]))
    ensures var w' := EStep(c, p, cons, w, t, k); CallMoved(w, w', t, ByDeadline(c, p, cons, w, w', t))
  {
    hide Step, ByDeadline;
  }

  // A step outside the ring.
  lemma LocalView(p: Protocol, cons: set<Tid>, w: World, t: Tid, k: EChoice, late: bool)
    requires t < |w.pcs| && PcPlace(w.pcs[t]).Nowhere? && Entering(w.pcs[t], k).NoEntry? && ViewOk(ViewOf(w.pcs[t]))
    requires w.pcs[t].Decide? && k.Timeout? ==> late
    ensures var w' := Local(p, cons, w, t, k); t < |w'.pcs| && w'.ring == w.ring && Moved(ViewOf(w.pcs[t]), ViewOf(w'.pcs[t]), None, late)
  {
    if Preparing(w.pcs[t]) { PrepareView(p, w, t, k, late); }
    else if Sleeping(w.pcs[t]) { WaitView(p, w, t, k, late); }
    else { NotifyView(p, cons, w, t, k, late); }
    hide PrepareStep, WaitStep, NotifyStep, Moved, ViewOf;
  }

  lemma PrepareView(p: Protocol, w: World, t: Tid, k: EChoice, late: bool)
    requires t < |w.pcs| && ViewOk(ViewOf(w.pcs[t])) && Preparing(w.pcs[t])
    requires w.pcs[t].Decide? && k.Timeout? ==> late
    ensures var w' := PrepareStep(p, w, t, k); t < |w'.pcs| && w'.ring == w.ring && Moved(ViewOf(w.pcs[t]), ViewOf(w'.pcs[t]), None, late)
  {
  }

  lemma WaitView(p: Protocol, w: World, t: Tid, k: EChoice, late: bool)
    requires t < |w.pcs| && ViewOk(ViewOf(w.pcs[t])) && Sleeping(w.pcs[t])
    ensures var w' := WaitStep(p, w, t, k); t < |w'.pcs| && w'.ring == w.ring && Moved(ViewOf(w.pcs[t]), ViewOf(w'.pcs[t]), None, late)
  {
    if InWait(w.pcs[t]) {
      SleepView(p, w, t, k, late);
      hide WaitStep, Moved, ViewOf;
    }
  }

  lemma SleepView(p: Protocol, w: World, t: Tid, k: EChoice, late: bool)
    requires t < |w.pcs| && ViewOk(ViewOf(w.pcs[t])) && InWait(w.pcs[t])
    ensures var w' := WaitStep(p, w, t, k); t < |w'.pcs| && w'.ring == w.ring && Moved(ViewOf(w.pcs[t]), ViewOf(w'.pcs[t]), None, late)
  {
  }

  lemma NotifyView(p: Protocol, cons: set<Tid>, w: World, t: Tid, k: EChoice, late: bool)
    requires t < |w.pcs| && ViewOk(ViewOf(w.pcs[t])) && !Preparing(w.pcs[t]) && !Sleeping(w.pcs[t])
    requires PcPlace(w.pcs[t]).Nowhere? && Entering(w.pcs[t], k).NoEntry?
    ensures var w' := NotifyStep(p, cons, w, t, k); t < |w'.pcs| && w'.ring == w.ring && Moved(ViewOf(w.pcs[t]), ViewOf(w'.pcs[t]), None, late)
  {
    if InFlight(w.pcs[t]) { SignalView(p, cons, w, t, k, late); } else { OutsideView(p, cons, w, t, k, late); }
    hide NotifyStep, Moved, ViewOf;
  }

  lemma SignalView(p: Protocol, cons: set<Tid>, w: World, t: Tid, k: EChoice, late: bool)
    requires t < |w.pcs| && ViewOk(ViewOf(w.pcs[t])) && InFlight(w.pcs[t])
    ensures var w' := NotifyStep(p, cons, w, t, k); t < |w'.pcs| && w'.ring == w.ring && Moved(ViewOf(w.pcs[t]), ViewOf(w'.pcs[t]), None, late)
  {
    if w.pcs[t].LoadWaiters? || w.pcs[t].LoadPending? { LoadView(p, cons, w, t, k, late); }
    else { SwapView(p, cons, w, t, k, late); }
    hide NotifyStep, Moved, ViewOf;
  }

  lemma LoadView(p: Protocol, cons: set<Tid>, w: World, t: Tid, k: EChoice, late: bool)
    requires t < |w.pcs| && ViewOk(ViewOf(w.pcs[t])) && (w.pcs[t].LoadWaiters? || w.pcs[t].LoadPending?)
    ensures var w' := NotifyStep(p, cons, w, t, k); t < |w'.pcs| && w'.ring == w.ring && Moved(ViewOf(w.pcs[t]), ViewOf(w'.pcs[t]), None, late)
  {
  }

  lemma SwapView(p: Protocol, cons: set<Tid>, w: World, t: Tid, k: EChoice, late: bool)
    requires t < |w.pcs| && ViewOk(ViewOf(w.pcs[t])) && (w.pcs[t].SwapPending? || w.pcs[t].Advance? || w.pcs[t].WakeOne?)
    ensures var w' := NotifyStep(p, cons, w, t, k); t < |w'.pcs| && w'.ring == w.ring && Moved(ViewOf(w.pcs[t]), ViewOf(w'.pcs[t]), None, late)
  {
  }

  lemma OutsideView(p: Protocol, cons: set<Tid>, w: World, t: Tid, k: EChoice, late: bool)
    requires t < |w.pcs| && ViewOk(ViewOf(w.pcs[t])) && !Preparing(w.pcs[t]) && !Sleeping(w.pcs[t]) && !InFlight(w.pcs[t])
    requires PcPlace(w.pcs[t]).Nowhere? && Entering(w.pcs[t], k).NoEntry?
    ensures var w' := NotifyStep(p, cons, w, t, k); t < |w'.pcs| && w'.ring == w.ring && Moved(ViewOf(w.pcs[t]), ViewOf(w'.pcs[t]), None, late)
  {
  }

  lemma LateDecides(c: Config, p: Protocol, cons: set<Tid>, w: World, t: Tid)
    requires Sized(c, w.ring.q) && t < |w.pcs| == |w.ring.threads| && w.pcs[t].Decide?
    ensures ByDeadline(c, p, cons, w, EStep(c, p, cons, w, t, Timeout), t)
  {
    hide Step;
    assert EStep(c, p, cons, w, t, Timeout).pcs[t] != EStep(c, p, cons, w, t, Proceed).pcs[t];
  }

  lemma OwnView(c: Config, p: Protocol, cons: set<Tid>, w: World, t: Tid, k: EChoice)
    requires Inv(c, w.ring) && t < |w.pcs| == |w.ring.threads| && Agree(w, t) && ViewOk(ViewOf(w.pcs[t]))
    ensures var w' := EStep(c, p, cons, w, t, k); CallMoved(w, w', t, ByDeadline(c, p, cons, w, w', t))
  {
    if !PcPlace(w.pcs[t]).Nowhere? { WithinView(c, p, cons, w, t, k); }
    else if Entering(w.pcs[t], k).Enters? { EnterView(c, p, cons, w, t, k); }
    else {
      if w.pcs[t].Decide? && k.Timeout? { LateDecides(c, p, cons, w, t); }
      LocalView(p, cons, w, t, k, ByDeadline(c, p, cons, w, EStep(c, p, cons, w, t, k), t));
      hide ByDeadline, Local, Moved, ViewOf;
    }
  }

  lemma NextView(c: Config, p: Protocol, cons: set<Tid>, w: World, w': World, t: Tid)
    requires Shape(c, p, cons, w) && ENext(c, p, cons, w, w') && t < |w.pcs| && ViewOk(ViewOf(w.pcs[t]))
    ensures CallMoved(w, w', t, ByDeadline(c, p, cons, w, w', t))
  {
    hide EStep, ByDeadline, Moved, ViewOk, Inv;
    var u: Tid, k: EChoice :| u < |w.pcs| && w' == EStep(c, p, cons, w, u, k);
    assert Agree(w, t) && Agree(w, u);
    if u == t {
      OwnView(c, p, cons, w, t, k);
    } else {
      StepStepped(c, p, cons, w, u, k);
      SameView(ViewOf(w.pcs[t]), ByDeadline(c, p, cons, w, w', t));
    }
  }

  // ------------------------------------------------------- runs

  function ViewAt(w: World, t: Tid): View { if t < |w.pcs| then ViewOf(w.pcs[t]) else Between(Told(Nothing)) }

  /** Thread t's calls along a run, what its ring operations gave them, and where a deadline struck. */
  function Views(tr: seq<World>, t: Tid): seq<View> { seq(|tr|, (j: nat) requires j < |tr| => ViewAt(tr[j], t)) }

  function Givens(tr: seq<World>, t: Tid): seq<Option<Answer>>
    requires |tr| > 0
  {
    seq(|tr| - 1, (j: nat) requires j < |tr| - 1 => GivenBy(tr[j], tr[j + 1], t))
  }

  ghost function Lates(c: Config, p: Protocol, cons: set<Tid>, tr: seq<World>, t: Tid): seq<bool>
    requires |tr| > 0
  {
    seq(|tr| - 1, (j: nat) requires j < |tr| - 1 => ByDeadline(c, p, cons, tr[j], tr[j + 1], t))
  }

  function Rings(tr: seq<World>): seq<State> { seq(|tr|, (j: nat) requires j < |tr| => tr[j].ring) }

  lemma RunStep(c: Config, p: Protocol, cons: set<Tid>, tr: seq<World>, j: nat)
    requires ERun(c, p, cons, tr) && 0 < j < |tr|
    ensures Shape(c, p, cons, tr[j - 1]) && ENext(c, p, cons, tr[j - 1], tr[j])
  {
    hide ENext;
    ERunInv(c, p, cons, tr, j - 1);
    assert ENextAt(c, p, cons, tr, j - 1);
  }

  lemma {:induction false} RunView(c: Config, p: Protocol, cons: set<Tid>, tr: seq<World>, j: nat, t: Tid)
    requires ERun(c, p, cons, tr) && j < |tr| && t < |tr[0].pcs|
    ensures t < |tr[j].pcs| && ViewOk(ViewOf(tr[j].pcs[t]))
    ensures j > 0 ==> CallMoved(tr[j - 1], tr[j], t, ByDeadline(c, p, cons, tr[j - 1], tr[j], t))
  {
    hide Shape, ENext, ByDeadline, GivenBy, Moved;
    if j > 0 {
      hide ERun, ViewOf, ViewOk;
      RunView(c, p, cons, tr, j - 1, t);
      RunStep(c, p, cons, tr, j);
      NextView(c, p, cons, tr[j - 1], tr[j], t);
      MovedOk(ViewOf(tr[j - 1].pcs[t]), ViewOf(tr[j].pcs[t]), GivenBy(tr[j - 1], tr[j], t), ByDeadline(c, p, cons, tr[j - 1], tr[j], t));
    }
  }

  lemma RunViews(c: Config, p: Protocol, cons: set<Tid>, tr: seq<World>, t: Tid)
    requires ERun(c, p, cons, tr) && t < |tr[0].pcs|
    ensures Runs(Views(tr, t), Givens(tr, t), Lates(c, p, cons, tr, t))
  {
    var vs, givens, lates := Views(tr, t), Givens(tr, t), Lates(c, p, cons, tr, t);
    assert tr[0].pcs[t] == Out(Told(Nothing));
    forall j | 0 <= j < |givens| ensures Moved(vs[j], vs[j + 1], givens[j], lates[j]) {
      RunView(c, p, cons, tr, j, t);
      RunView(c, p, cons, tr, j + 1, t);
      hide ERun, ByDeadline, GivenBy, ViewOf, Moved;
    }
  }

  lemma GivesTheNews(c: Config, p: Protocol, cons: set<Tid>, tr: seq<World>, j: nat, t: Tid)
    requires ERun(c, p, cons, tr) && j + 1 < |tr| && t < |tr[0].pcs|
    ensures EventsIn(t, Listed(GivenBy(tr[j], tr[j + 1], t))) == News(tr[j].ring, tr[j + 1].ring, t)
  {
    RunView(c, p, cons, tr, j, t);
    ERunInv(c, p, cons, tr, j);
    RingNext(c, p, cons, tr, j);
    var w, w' := tr[j], tr[j + 1];
    assert Agree(w, t);
    if Ends(w.ring, w'.ring, t) && w'.ring.threads[t].pc.res.PopOK? { PopsEnd(c, w.ring, w'.ring, t); }
    var given := GivenBy(w, w', t);
    if given.Some? { assert Listed(given)[..0] == []; }
  }

  lemma BoundOfView(pc: Epc)
    ensures BoundOf(ViewOf(pc)) == Bound(pc)
  {
  }

  // ------------------------------------------------------- what follows

  /**
   * Every event a thread has read is answered by its calls, pop's included, once
   * and in the order of the reads, up to the one its call is bound to answer and
   * the one whose slot it is still releasing.
   */
  lemma EventsReachCallers(c: Config, p: Protocol, cons: set<Tid>, tr: seq<World>, j: nat, t: Tid)
    requires ERun(c, p, cons, tr) && j < |tr| && t < |tr[0].pcs|
    ensures t < |tr[j].pcs|
    ensures EventsIn(t, Answered(Views(tr, t), j)) + EventsIn(t, Listed(Bound(tr[j].pcs[t]))) + InHand(tr[j].ring, t)
      == ReadBy(tr[j].ring.q.delivered, t)
  {
    hide ERun, Run, Runs, InHand, ReadBy, EventsIn, Answered, News, GivenBy, ByDeadline, Bound, ViewOk;
    RunView(c, p, cons, tr, j, t);
    RunViews(c, p, cons, tr, t);
    RingRuns(c, p, cons, tr);
    var vs, givens := Views(tr, t), Givens(tr, t);
    assert Rings(tr) == seq(|tr|, j requires 0 <= j < |tr| => tr[j].ring);
    forall l | 0 <= l < j ensures EventsIn(t, Listed(givens[l])) == News(Rings(tr)[l], Rings(tr)[l + 1], t) { GivesTheNews(c, p, cons, tr, l, t); }
    ReadIsAnswered(c, vs, givens, Lates(c, p, cons, tr, t), Rings(tr), j, t);
    BoundOfView(tr[j].pcs[t]);
    assert vs[j] == ViewOf(tr[j].pcs[t]);
  }

  /** Every call answers what its ring operation gave it: pushes, lone TryPops, Close, and Pop's event or drained; only running out of time is Pop's own. */
  lemma CallsAnswer(c: Config, p: Protocol, cons: set<Tid>, tr: seq<World>, j: nat, t: Tid)
    requires ERun(c, p, cons, tr) && j < |tr| && t < |tr[0].pcs|
    ensures t < |tr[j].pcs|
    ensures InTime(Answered(Views(tr, t), j)) + InTime(Listed(Bound(tr[j].pcs[t]))) == Obtained(Givens(tr, t), j)
  {
    RunView(c, p, cons, tr, j, t);
    RunViews(c, p, cons, tr, t);
    AnsweredIsObtained(Views(tr, t), Givens(tr, t), Lates(c, p, cons, tr, t), j);
    assert Views(tr, t)[j] == ViewOf(tr[j].pcs[t]);
  }

  // A counter at which a call searches on, or goes to sleep.
  predicate Searching(pc: Epc) {
    pc.NextPop? || pc.Popping? || pc.NextDrain? || pc.Draining? || Preparing(pc) || InWait(pc) || pc.Delist? || pc.Absorb?
  }

  lemma GotSettles(w: World, w': World, t: Tid, late: bool)
    requires CallMoved(w, w', t, late) && ViewOk(ViewOf(w.pcs[t])) && ViewOk(ViewOf(w'.pcs[t])) && w.pcs[t].Popping?
    requires Ends(w.ring, w'.ring, t) && w'.ring.threads[t].pc.res.PopOK?
    ensures var a, pc := Told(w'.ring.threads[t].pc.res), w'.pcs[t]; pc == Out(a) || Bound(pc) == Some(a)
  {
  }

  /** A TryPop that ends with an event settles the call: it has returned the event, or is bound to. */
  lemma EventSettles(c: Config, p: Protocol, cons: set<Tid>, tr: seq<World>, j: nat, t: Tid)
    requires ERun(c, p, cons, tr) && j + 1 < |tr| && t < |tr[0].pcs|
    requires Ends(tr[j].ring, tr[j + 1].ring, t) && tr[j + 1].ring.threads[t].pc.res.PopOK?
    ensures t < |tr[j + 1].pcs|
    ensures var a, pc := Told(tr[j + 1].ring.threads[t].pc.res), tr[j + 1].pcs[t]; pc == Out(a) || Bound(pc) == Some(a)
  {
    RunView(c, p, cons, tr, j, t);
    RunView(c, p, cons, tr, j + 1, t);
    ERunInv(c, p, cons, tr, j);
    RingNext(c, p, cons, tr, j);
    PopsEnd(c, tr[j].ring, tr[j + 1].ring, t);
    assert Agree(tr[j], t);
    hide ERun, EInv, Next, ByDeadline;
    GotSettles(tr[j], tr[j + 1], t, ByDeadline(c, p, cons, tr[j], tr[j + 1], t));
  }

  /** From then on the call neither looks at the ring again nor goes to sleep, until it returns that very answer. */
  lemma KeepsItsEvent(c: Config, p: Protocol, cons: set<Tid>, tr: seq<World>, i: nat, j: nat, t: Tid, a: Answer)
    requires ERun(c, p, cons, tr) && i <= j < |tr| && t < |tr[0].pcs| && (forall l | 0 <= l < |tr| :: t < |tr[l].pcs|)
    requires Bound(tr[i].pcs[t]) == Some(a) && forall l | i <= l < j :: !tr[l].pcs[t].Out?
    ensures if tr[j].pcs[t].Out? then tr[j].pcs[t].last == a else Bound(tr[j].pcs[t]) == Some(a) && !Searching(tr[j].pcs[t])
  {
    RunViews(c, p, cons, tr, t);
    var vs := Views(tr, t);
    assert forall l | 0 <= l < |tr| :: vs[l] == ViewOf(tr[l].pcs[t]);
    KeepsItsAnswer(vs, Givens(tr, t), Lates(c, p, cons, tr, t), i, j, a);
  }

  // Thread t's deadline struck at state m, in the call that goes on at state j.
  ghost predicate Expired(c: Config, p: Protocol, cons: set<Tid>, tr: seq<World>, m: nat, j: nat, t: Tid) {
    && m + 1 < |tr| && m <= j < |tr| && ByDeadline(c, p, cons, tr[m], tr[m + 1], t)
    && forall l | m <= l <= j :: t < |tr[l].pcs| && !tr[l].pcs[t].Out?
  }

  /** Pop returns an event, that the queue is drained, or, if its deadline has struck, that its time is up; never anything else. */
  lemma PopEndsWithReason(c: Config, p: Protocol, cons: set<Tid>, tr: seq<World>, j: nat, t: Tid)
    requires ERun(c, p, cons, tr) && j + 1 < |tr| && t < |tr[0].pcs| && t < |tr[j].pcs| && t < |tr[j + 1].pcs|
    requires !tr[j].pcs[t].Out? && IsPop(tr[j].pcs[t]) && tr[j + 1].pcs[t].Out?
    ensures PopAnswer(tr[j + 1].pcs[t].last)
    ensures tr[j + 1].pcs[t].last.TimedOut? ==> exists m :: Expired(c, p, cons, tr, m, j, t)
  {
    RunViews(c, p, cons, tr, t);
    var vs, lates := Views(tr, t), Lates(c, p, cons, tr, t);
    assert vs[j] == ViewOf(tr[j].pcs[t]) && vs[j + 1] == ViewOf(tr[j + 1].pcs[t]);
    PopEnds(vs, Givens(tr, t), lates, j);
    if tr[j + 1].pcs[t].last.TimedOut? {
      var m :| 0 <= m <= j && lates[m] && Since(vs, m, j);
      forall l | m <= l <= j ensures t < |tr[l].pcs| && !tr[l].pcs[t].Out? {
        RunView(c, p, cons, tr, l, t);
        assert vs[l] == ViewOf(tr[l].pcs[t]);
      }
      assert Expired(c, p, cons, tr, m, j, t);
    }
  }

  /** A call that starts as Pop stays Pop until it returns. */
  lemma PopStaysPop(c: Config, p: Protocol, cons: set<Tid>, tr: seq<World>, j: nat, t: Tid)
    requires ERun(c, p, cons, tr) && j + 1 < |tr| && t < |tr[0].pcs| && t < |tr[j].pcs| && t < |tr[j + 1].pcs|
    requires !tr[j].pcs[t].Out? && IsPop(tr[j].pcs[t]) && !tr[j + 1].pcs[t].Out?
    ensures IsPop(tr[j + 1].pcs[t])
  {
    RunView(c, p, cons, tr, j + 1, t);
    hide ByDeadline, GivenBy;
  }
}

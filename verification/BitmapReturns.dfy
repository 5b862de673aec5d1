/** What the calls of Go's queue tell their callers, over every run of its sleep protocol. */
module BitmapReturns {
  import opened Options
  import opened Slots
  import opened Ring
  import opened RingInvariant
  import opened RingTheorems
  import opened RingCalls
  import opened RingReturns
  import opened CallAnswers
  import opened BitmapWake
  import opened BitmapSafety

  /** The answer that a call at pc is bound to give. Only these counters carry one: none of them looks at the ring again or sleeps. */
  function Bound(pc: Wpc): Option<Answer> {
    match pc
    case Cancel(nx) => Kept(nx)
    case CancelDrop(nx) => Kept(nx)
    case N1(nx) => Kept(nx)
    case N2(nx, _) => Kept(nx)
    case N3(nx, _) => Kept(nx)
    case NextPeek(ans) => Some(ans)
    case Peeking(ans) => Some(ans)
    case CloseCas => Some(Told(CloseDone))
    case CloseSwap => Some(Told(CloseDone))
    case CloseSend(_) => Some(Told(CloseDone))
    case _ => None
  }

  function Kept(nx: After): Option<Answer> { if nx.Return? then Some(nx.ans) else None }

  // The call is Pop; a call that only notifies any more is told apart by its answer.
  predicate IsPop(pc: Wpc) {
    if pc.N1? || pc.N2? || pc.N3? then pc.nx.Again? || PopAnswer(pc.nx.ans) else InPopCall(pc)
  }

  function ViewOf(pc: Wpc): View { if pc.Out? then Between(pc.last) else Going(Bound(pc), IsPop(pc)) }

  // A result of the ring operation that a call at pc is in ends the call's search.
  predicate Settles(pc: Wpc, res: Result) {
    match pc
    case Pushing => true
    case Popping(site) => res.PopOK? || site.Alone?
    case Draining => res.Drained?
    case Closing => true
    case _ => false
  }

  // What the step from w to w' gives thread t's call.
  function GivenBy(w: World, w': World, t: Tid): Option<Answer> {
    if t < |w.pcs| && Ends(w.ring, w'.ring, t) && Settles(w.pcs[t], w'.ring.threads[t].pc.res)
    then Some(Told(w'.ring.threads[t].pc.res)) else None
  }

  // A step that thread t takes only because its deadline has passed.
  ghost predicate ByDeadline(c: Config, cons: set<Tid>, w: World, w': World, t: Tid) {
    && Sized(c, w.ring.q) && t < |w.pcs| == |w.ring.threads|
    && w' == WStep(c, cons, w, t, Timeout) && w' != WStep(c, cons, w, t, Proceed)
  }

  // ------------------------------------------------------- one step

  // Thread t's call, over one step.
  predicate CallMoved(w: World, w': World, t: Tid, late: bool) {
    t < |w.pcs| && t < |w'.pcs| && Moved(ViewOf(w.pcs[t]), ViewOf(w'.pcs[t]), GivenBy(w, w', t), late)
  }

  // The end of a ring operation.
  lemma FinishView(pc: Wpc, k: WChoice, res: Result, late: bool)
    requires !PcPlace(pc).Nowhere? && ViewOk(ViewOf(pc)) && (pc.Closing? ==> res == CloseDone)
    requires pc.Draining? && Finish(pc, k, res) == Out(TimedOut) ==> late
    ensures Moved(ViewOf(pc), ViewOf(Finish(pc, k, res)), if Settles(pc, res) then Some(Told(res)) else None, late)
  {
    if pc.Popping? { PopFinishView(pc, k, res, late); } else { OtherFinishView(pc, k, res, late); }
    hide Finish, Moved, Settles;
  }

  lemma PopFinishView(pc: Wpc, k: WChoice, res: Result, late: bool)
    requires pc.Popping? && ViewOk(ViewOf(pc))
    ensures Moved(ViewOf(pc), ViewOf(Finish(pc, k, res)), if Settles(pc, res) then Some(Told(res)) else None, late)
  {
  }

  lemma OtherFinishView(pc: Wpc, k: WChoice, res: Result, late: bool)
    requires !PcPlace(pc).Nowhere? && !pc.Popping? && ViewOk(ViewOf(pc)) && (pc.Closing? ==> res == CloseDone)
    requires pc.Draining? && Finish(pc, k, res) == Out(TimedOut) ==> late
    ensures Moved(ViewOf(pc), ViewOf(Finish(pc, k, res)), if Settles(pc, res) then Some(Told(res)) else None, late)
  {
  }

  lemma WithinView(c: Config, cons: set<Tid>, w: World, t: Tid, k: WChoice)
    requires Inv(c, w.ring) && t < |w.pcs| == |w.ring.threads| && Agree(w, t) && !PcPlace(w.pcs[t]).Nowhere? && ViewOk(ViewOf(w.pcs[t]))
    ensures var w' := WStep(c, cons, w, t, k); CallMoved(w, w', t, ByDeadline(c, cons, w, w', t))
  {
    var w' := WStep(c, cons, w, t, k);
    hide Moved, Bound, Settles, ViewOk, Inv, Step, IsPop;
    var r := Inner(w.pcs[t], k);
    var late := ByDeadline(c, cons, w, w', t);
    StepMoves(c, w.ring, t, r);
    var ring' := Step(c, w.ring, t, r);
    if ring'.threads[t].pc.Idle? {
      if w.pcs[t].Closing? { CloseResult(c, w.ring, t, r); }
      if w.pcs[t].Draining? && w'.pcs[t] == Out(TimedOut) { LateLook(c, cons, w, t, k); }
      FinishView(w.pcs[t], k, ring'.threads[t].pc.res, late);
    } else {
      SameView(ViewOf(w.pcs[t]), late);
    }
  }

  // A look at the tail ends the call as late only because of the deadline.
  lemma LateLook(c: Config, cons: set<Tid>, w: World, t: Tid, k: WChoice)
    requires Sized(c, w.ring.q) && t < |w.pcs| == |w.ring.threads| && w.pcs[t].Draining?
    requires var w' := WStep(c, cons, w, t, k); t < |w'.pcs| && w'.pcs[t] == Out(TimedOut)
    ensures ByDeadline(c, cons, w, WStep(c, cons, w, t, k), t)
  {
    hide Step;
  }

  lemma EnterView(c: Config, cons: set<Tid>, w: World, t: Tid, k: WChoice)
    requires Sized(c, w.ring.q) && t < |w.pcs| == |w.ring.threads| && Agree(w, t) && PcPlace(w.pcs[t]).Nowhere?
    requires Entering(w.pcs[t], k).Enters? && ViewOk(ViewOf(w.pcs[t]))
    ensures var w' := WStep(c, cons, w, t, k); CallMoved(w, w', t, ByDeadline(c, cons, w, w', t))
  {
    hide Step, ByDeadline;
  }

  // A step outside the ring.
  lemma LocalView(cons: set<Tid>, w: World, t: Tid, k: WChoice, late: bool)
    requires t < |w.pcs| && PcPlace(w.pcs[t]).Nowhere? && Entering(w.pcs[t], k).NoEntry? && ViewOk(ViewOf(w.pcs[t]))
    requires w.pcs[t].Decide? && k.Timeout? ==> late
    ensures var w' := Local(cons, w, t, k);
      |w'.pcs| == |w.pcs| && w'.ring == w.ring && Moved(ViewOf(w.pcs[t]), ViewOf(w'.pcs[t]), None, late)
  {
    LocalMoves(cons, w, t, k);
    var pc := w.pcs[t];
    if pc.N1? || pc.N2? || pc.N3? { NotifyView(cons, w, t, k, late); }
    else if Signals(pc) { CloserView(cons, w, t, k, late); }
    else if pc.Cancel? || pc.CancelDrop? { CancelView(cons, w, t, k, late); }
    else if pc.Out? { OutsideView(cons, w, t, k, late); }
    else { SleeperView(cons, w, t, k, late); }
    hide Local, Moved, ViewOf;
  }

  lemma NotifyView(cons: set<Tid>, w: World, t: Tid, k: WChoice, late: bool)
    requires t < |w.pcs| && ViewOk(ViewOf(w.pcs[t])) && (w.pcs[t].N1? || w.pcs[t].N2? || w.pcs[t].N3?)
    ensures var w' := Local(cons, w, t, k); t < |w'.pcs| && Moved(ViewOf(w.pcs[t]), ViewOf(w'.pcs[t]), None, late)
  {
  }

  lemma CloserView(cons: set<Tid>, w: World, t: Tid, k: WChoice, late: bool)
    requires t < |w.pcs| && ViewOk(ViewOf(w.pcs[t])) && (w.pcs[t].CloseCas? || w.pcs[t].CloseSwap? || w.pcs[t].CloseSend?)
    ensures var w' := Local(cons, w, t, k); t < |w'.pcs| && Moved(ViewOf(w.pcs[t]), ViewOf(w'.pcs[t]), None, late)
  {
  }

  lemma CancelView(cons: set<Tid>, w: World, t: Tid, k: WChoice, late: bool)
    requires t < |w.pcs| && ViewOk(ViewOf(w.pcs[t])) && (w.pcs[t].Cancel? || w.pcs[t].CancelDrop?)
    ensures var w' := Local(cons, w, t, k); t < |w'.pcs| && Moved(ViewOf(w.pcs[t]), ViewOf(w'.pcs[t]), None, late)
  {
  }

  lemma OutsideView(cons: set<Tid>, w: World, t: Tid, k: WChoice, late: bool)
    requires t < |w.pcs| && ViewOk(ViewOf(w.pcs[t])) && w.pcs[t].Out?
    ensures var w' := Local(cons, w, t, k); t < |w'.pcs| && Moved(ViewOf(w.pcs[t]), ViewOf(w'.pcs[t]), None, late)
  {
  }

  lemma SleeperView(cons: set<Tid>, w: World, t: Tid, k: WChoice, late: bool)
    requires t < |w.pcs| && !Signals(w.pcs[t]) && PcPlace(w.pcs[t]).Nowhere? && Entering(w.pcs[t], k).NoEntry?
    requires ViewOk(ViewOf(w.pcs[t])) && (w.pcs[t].Decide? && k.Timeout? ==> late)
    requires !w.pcs[t].Cancel? && !w.pcs[t].CancelDrop? && !w.pcs[t].Out?
    ensures var w' := Local(cons, w, t, k); t < |w'.pcs| && Moved(ViewOf(w.pcs[t]), ViewOf(w'.pcs[t]), None, late)
  {
  }

  lemma LateDecides(c: Config, cons: set<Tid>, w: World, t: Tid)
    requires Sized(c, w.ring.q) && t < |w.pcs| == |w.ring.threads| && w.pcs[t].Decide?
    ensures ByDeadline(c, cons, w, WStep(c, cons, w, t, Timeout), t)
  {
    hide Step;
    assert WStep(c, cons, w, t, Timeout).pcs[t] != WStep(c, cons, w, t, Proceed).pcs[t];
  }

  lemma OwnView(c: Config, cons: set<Tid>, w: World, t: Tid, k: WChoice)
    requires Inv(c, w.ring) && t < |w.pcs| == |w.ring.threads| && Agree(w, t) && ViewOk(ViewOf(w.pcs[t]))
    ensures var w' := WStep(c, cons, w, t, k); CallMoved(w, w', t, ByDeadline(c, cons, w, w', t))
  {
    if !PcPlace(w.pcs[t]).Nowhere? { WithinView(c, cons, w, t, k); }
    else if Entering(w.pcs[t], k).Enters? { EnterView(c, cons, w, t, k); }
    else {
      if w.pcs[t].Decide? && k.Timeout? { LateDecides(c, cons, w, t); }
      LocalView(cons, w, t, k, ByDeadline(c, cons, w, WStep(c, cons, w, t, k), t));
      hide ByDeadline, Local, Moved, ViewOf;
    }
  }

  lemma NextView(c: Config, cons: set<Tid>, w: World, w': World, t: Tid)
    requires Shape(c, cons, w) && WNext(c, cons, w, w') && t < |w.pcs| && ViewOk(ViewOf(w.pcs[t]))
    ensures CallMoved(w, w', t, ByDeadline(c, cons, w, w', t))
  {
    hide WStep, ByDeadline, Moved, ViewOk, Inv;
    var u: Tid, k: WChoice :| u < |w.pcs| && w' == WStep(c, cons, w, u, k);
    assert Agree(w, t) && Agree(w, u);
    if u == t {
      OwnView(c, cons, w, t, k);
    } else {
      StepStepped(c, cons, w, u, k);
      SameView(ViewOf(w.pcs[t]), ByDeadline(c, cons, w, w', t));
    }
  }

  // ------------------------------------------------------- runs

  function ViewAt(w: World, t: Tid): View { if t < |w.pcs| then ViewOf(w.pcs[t]) else Between(Told(Nothing)) }

  /** Thread t's calls along a run, what its ring operations gave them, and where a deadline struck. */
  function Views(tr: seq<World>, t: Tid): seq<View> { seq(|tr|, (j: nat) requires j < |tr| => ViewAt(tr[j], t)) }

  function Givens(tr: seq<World>, t: Tid): seq<Option<Answer>>
    requires |tr| > 0
  {
    seq(|tr| - 1, (j: nat) requires j < |tr| - 1 => GivenBy(tr[j], tr[j + 1], t))
  }

  ghost function Lates(c: Config, cons: set<Tid>, tr: seq<World>, t: Tid): seq<bool>
    requires |tr| > 0
  {
    seq(|tr| - 1, (j: nat) requires j < |tr| - 1 => ByDeadline(c, cons, tr[j], tr[j + 1], t))
  }

  function Rings(tr: seq<World>): seq<State> { seq(|tr|, (j: nat) requires j < |tr| => tr[j].ring) }

  lemma RunStep(c: Config, cons: set<Tid>, tr: seq<World>, j: nat)
    requires WRun(c, cons, tr) && 0 < j < |tr|
    ensures Shape(c, cons, tr[j - 1]) && WNext(c, cons, tr[j - 1], tr[j])
  {
    hide WNext;
    WRunInv(c, cons, tr, j - 1);
    assert WNextAt(c, cons, tr, j - 1);
  }

  lemma {:induction false} RunView(c: Config, cons: set<Tid>, tr: seq<World>, j: nat, t: Tid)
    requires WRun(c, cons, tr) && j < |tr| && t < |tr[0].pcs|
    ensures t < |tr[j].pcs| && ViewOk(ViewOf(tr[j].pcs[t]))
    ensures j > 0 ==> CallMoved(tr[j - 1], tr[j], t, ByDeadline(c, cons, tr[j - 1], tr[j], t))
  {
    hide Shape, WNext, ByDeadline, GivenBy, Moved;
    if j > 0 {
      hide WRun, ViewOf, ViewOk;
      RunView(c, cons, tr, j - 1, t);
      RunStep(c, cons, tr, j);
      NextView(c, cons, tr[j - 1], tr[j], t);
      MovedOk(ViewOf(tr[j - 1].pcs[t]), ViewOf(tr[j].pcs[t]), GivenBy(tr[j - 1], tr[j], t), ByDeadline(c, cons, tr[j - 1], tr[j], t));
    }
  }

  lemma RunViews(c: Config, cons: set<Tid>, tr: seq<World>, t: Tid)
    requires WRun(c, cons, tr) && t < |tr[0].pcs|
    ensures Runs(Views(tr, t), Givens(tr, t), Lates(c, cons, tr, t))
  {
    var vs, givens, lates := Views(tr, t), Givens(tr, t), Lates(c, cons, tr, t);
    assert tr[0].pcs[t] == Out(Told(Nothing));
    forall j | 0 <= j < |givens| ensures Moved(vs[j], vs[j + 1], givens[j], lates[j]) {
      RunView(c, cons, tr, j, t);
      RunView(c, cons, tr, j + 1, t);
      hide WRun, ByDeadline, GivenBy, ViewOf, Moved;
    }
  }

  lemma GivesTheNews(c: Config, cons: set<Tid>, tr: seq<World>, j: nat, t: Tid)
    requires WRun(c, cons, tr) && j + 1 < |tr| && t < |tr[0].pcs|
    ensures EventsIn(t, Listed(GivenBy(tr[j], tr[j + 1], t))) == News(tr[j].ring, tr[j + 1].ring, t)
  {
    RunView(c, cons, tr, j, t);
    WRunInv(c, cons, tr, j);
    RingNext(c, cons, tr, j);
    var w, w' := tr[j], tr[j + 1];
    assert Agree(w, t);
    if Ends(w.ring, w'.ring, t) && w'.ring.threads[t].pc.res.PopOK? { PopsEnd(c, w.ring, w'.ring, t); }
    var given := GivenBy(w, w', t);
    if given.Some? { assert Listed(given)[..0] == []; }
  }

  lemma BoundOfView(pc: Wpc)
    ensures BoundOf(ViewOf(pc)) == Bound(pc)
  {
  }

  // ------------------------------------------------------- what follows

  /**
   * Every event a thread has read is answered by its calls, Pop's included, once
   * and in the order of the reads, up to the one its call is bound to answer and
   * the one whose slot it is still releasing.
   */
  lemma EventsReachCallers(c: Config, cons: set<Tid>, tr: seq<World>, j: nat, t: Tid)
    requires WRun(c, cons, tr) && j < |tr| && t < |tr[0].pcs|
    ensures t < |tr[j].pcs|
    ensures EventsIn(t, Answered(Views(tr, t), j)) + EventsIn(t, Listed(Bound(tr[j].pcs[t]))) + InHand(tr[j].ring, t)
      == ReadBy(tr[j].ring.q.delivered, t)
  {
    hide WRun, Run, Runs, InHand, ReadBy, EventsIn, Answered, News, GivenBy, ByDeadline, Bound, ViewOk;
    RunView(c, cons, tr, j, t);
    RunViews(c, cons, tr, t);
    RingRuns(c, cons, tr);
    var vs, givens := Views(tr, t), Givens(tr, t);
    assert Rings(tr) == seq(|tr|, j requires 0 <= j < |tr| => tr[j].ring);
    forall l | 0 <= l < j ensures EventsIn(t, Listed(givens[l])) == News(Rings(tr)[l], Rings(tr)[l + 1], t) { GivesTheNews(c, cons, tr, l, t); }
    ReadIsAnswered(c, vs, givens, Lates(c, cons, tr, t), Rings(tr), j, t);
    BoundOfView(tr[j].pcs[t]);
    assert vs[j] == ViewOf(tr[j].pcs[t]);
  }

  /** Every call answers what its ring operation gave it: pushes, lone TryPops, Close, and Pop's event or drained; only running out of time is Pop's own. */
  lemma CallsAnswer(c: Config, cons: set<Tid>, tr: seq<World>, j: nat, t: Tid)
    requires WRun(c, cons, tr) && j < |tr| && t < |tr[0].pcs|
    ensures t < |tr[j].pcs|
    ensures InTime(Answered(Views(tr, t), j)) + InTime(Listed(Bound(tr[j].pcs[t]))) == Obtained(Givens(tr, t), j)
  {
    RunView(c, cons, tr, j, t);
    RunViews(c, cons, tr, t);
    AnsweredIsObtained(Views(tr, t), Givens(tr, t), Lates(c, cons, tr, t), j);
    assert Views(tr, t)[j] == ViewOf(tr[j].pcs[t]);
  }

  // A counter at which a call searches on, or goes to sleep.
  predicate Searching(pc: Wpc) {
    pc.NextPop? || pc.Popping? || pc.NextDrain? || pc.Draining? || pc.Prepare? || pc.LookTail? || pc.Decide? || pc.Block? || pc.WaitClear?
  }

  lemma GotSettles(w: World, w': World, t: Tid, late: bool)
    requires CallMoved(w, w', t, late) && ViewOk(ViewOf(w.pcs[t])) && ViewOk(ViewOf(w'.pcs[t])) && w.pcs[t].Popping?
    requires Ends(w.ring, w'.ring, t) && w'.ring.threads[t].pc.res.PopOK?
    ensures var a, pc := Told(w'.ring.threads[t].pc.res), w'.pcs[t]; pc == Out(a) || Bound(pc) == Some(a)
  {
  }

  /** A TryPop that ends with an event settles the call: it has returned the event, or is bound to. */
  lemma EventSettles(c: Config, cons: set<Tid>, tr: seq<World>, j: nat, t: Tid)
    requires WRun(c, cons, tr) && j + 1 < |tr| && t < |tr[0].pcs|
    requires Ends(tr[j].ring, tr[j + 1].ring, t) && tr[j + 1].ring.threads[t].pc.res.PopOK?
    ensures t < |tr[j + 1].pcs|
    ensures var a, pc := Told(tr[j + 1].ring.threads[t].pc.res), tr[j + 1].pcs[t]; pc == Out(a) || Bound(pc) == Some(a)
  {
    RunView(c, cons, tr, j, t);
    RunView(c, cons, tr, j + 1, t);
    WRunInv(c, cons, tr, j);
    RingNext(c, cons, tr, j);
    PopsEnd(c, tr[j].ring, tr[j + 1].ring, t);
    assert Agree(tr[j], t);
    hide WRun, WInv, Next, ByDeadline;
    GotSettles(tr[j], tr[j + 1], t, ByDeadline(c, cons, tr[j], tr[j + 1], t));
  }

  /** From then on the call neither looks at the ring again nor goes to sleep, until it returns that very answer. */
  lemma KeepsItsEvent(c: Config, cons: set<Tid>, tr: seq<World>, i: nat, j: nat, t: Tid, a: Answer)
    requires WRun(c, cons, tr) && i <= j < |tr| && t < |tr[0].pcs| && (forall l | 0 <= l < |tr| :: t < |tr[l].pcs|)
    requires Bound(tr[i].pcs[t]) == Some(a) && forall l | i <= l < j :: !tr[l].pcs[t].Out?
    ensures if tr[j].pcs[t].Out? then tr[j].pcs[t].last == a else Bound(tr[j].pcs[t]) == Some(a) && !Searching(tr[j].pcs[t])
  {
    RunViews(c, cons, tr, t);
    var vs := Views(tr, t);
    assert forall l | 0 <= l < |tr| :: vs[l] == ViewOf(tr[l].pcs[t]);
    KeepsItsAnswer(vs, Givens(tr, t), Lates(c, cons, tr, t), i, j, a);
  }

  // Thread t's deadline struck at state m, in the call that goes on at state j.
  ghost predicate Expired(c: Config, cons: set<Tid>, tr: seq<World>, m: nat, j: nat, t: Tid) {
    && m + 1 < |tr| && m <= j < |tr| && ByDeadline(c, cons, tr[m], tr[m + 1], t)
    && forall l | m <= l <= j :: t < |tr[l].pcs| && !tr[l].pcs[t].Out?
  }

  /** Pop returns an event, that the queue is drained, or, if its deadline has struck, that its time is up; never anything else. */
  lemma PopEndsWithReason(c: Config, cons: set<Tid>, tr: seq<World>, j: nat, t: Tid)
    requires WRun(c, cons, tr) && j + 1 < |tr| && t < |tr[0].pcs| && t < |tr[j].pcs| && t < |tr[j + 1].pcs|
    requires !tr[j].pcs[t].Out? && IsPop(tr[j].pcs[t]) && tr[j + 1].pcs[t].Out?
    ensures PopAnswer(tr[j + 1].pcs[t].last)
    ensures tr[j + 1].pcs[t].last.TimedOut? ==> exists m :: Expired(c, cons, tr, m, j, t)
  {
    RunViews(c, cons, tr, t);
    var vs, lates := Views(tr, t), Lates(c, cons, tr, t);
    assert vs[j] == ViewOf(tr[j].pcs[t]) && vs[j + 1] == ViewOf(tr[j + 1].pcs[t]);
    PopEnds(vs, Givens(tr, t), lates, j);
    if tr[j + 1].pcs[t].last.TimedOut? {
      var m :| 0 <= m <= j && lates[m] && Since(vs, m, j);
      forall l | m <= l <= j ensures t < |tr[l].pcs| && !tr[l].pcs[t].Out? {
        RunView(c, cons, tr, l, t);
        assert vs[l] == ViewOf(tr[l].pcs[t]);
      }
      assert Expired(c, cons, tr, m, j, t);
    }
  }

  /** A call that starts as Pop stays Pop until it returns. */
  lemma PopStaysPop(c: Config, cons: set<Tid>, tr: seq<World>, j: nat, t: Tid)
    requires WRun(c, cons, tr) && j + 1 < |tr| && t < |tr[0].pcs| && t < |tr[j].pcs| && t < |tr[j + 1].pcs|
    requires !tr[j].pcs[t].Out? && IsPop(tr[j].pcs[t]) && !tr[j + 1].pcs[t].Out?
    ensures IsPop(tr[j + 1].pcs[t])
  {
    RunView(c, cons, tr, j + 1, t);
    hide ByDeadline, GivenBy;
  }
}

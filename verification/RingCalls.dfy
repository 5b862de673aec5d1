/** The ring's operations as calls: which one a thread is in, and what its steps can change. */
module RingCalls {
  import opened Slots
  import opened Ring
  import opened RingInvariant
  import opened RingSteps
  import opened RingTheorems

  // What a call on the queue returns, and what follows a cancelled wait or a
  // notification: the call returns, or Pop loops.
  datatype Answer = Told(res: Result) | TimedOut

  datatype After = Return(ans: Answer) | Again

  datatype Place = Nowhere | InPush | InPop | InDrain | InPeek | InClose

  function RingPlace(pc: Pc): Place {
    match pc
    case Idle(_) => Nowhere
    case ClaimLoad(_, _) => InPush
    case ClaimSeq(_, _, _) => InPush
    case ClaimCas(_, _, _) => InPush
    case TicketCheck(_) => InPush
    case TicketAdd(_) => InPush
    case Await(_, _, _) => InPush
    case Write(_, _) => InPush
    case Fill(_, _) => InPush
    case Store(_) => InPush
    case TombWrite(_) => InPush
    case TombStore(_, _) => InPush
    case PopLoad => InPop
    case PopSeq(_) => InPop
    case PopCas(_, _) => InPop
    case Read(_) => InPop
    case Clear(_, _) => InPop
    case Release(_, _) => InPop
    case CloseOr => InClose
    case CloseStore(_) => InClose
    case DrainTail => InDrain
    case DrainEnd => InDrain
    case DrainHead(_) => InDrain
    case PeekHead => InPeek
    case PeekSeq(_) => InPeek
  }

  // A step moves no other thread.
  lemma StepMoves(c: Config, s: State, t: Tid, k: Choice)
    requires Sized(c, s.q) && t < |s.threads|
    ensures var s' := Step(c, s, t, k); |s'.threads| == |s.threads| && s'.threads == s.threads[t := s'.threads[t]]
  {
  }

  // A thread leaves an operation only by finishing it.
  lemma StepPlace(c: Config, s: State, t: Tid, k: Choice)
    requires Sized(c, s.q) && t < |s.threads| && !s.threads[t].pc.Idle?
    ensures var s' := Step(c, s, t, k);
            |s'.threads| == |s.threads|
            && (RingPlace(s'.threads[t].pc) == RingPlace(s.threads[t].pc) || s'.threads[t].pc.Idle?)
  {
    hide Mark, Bury, Claim, Deliver, Append;
  }

  // An idle thread's start touches no shared field.
  lemma StartPlace(c: Config, s: State, t: Tid, call: Call)
    requires Sized(c, s.q) && t < |s.threads| && s.threads[t].pc.Idle?
    ensures Step(c, s, t, Start(call)) == To(s, t, s.q, First(call))
  {
  }

  // The head becomes published only by a producer's own store.
  lemma StepShows(c: Config, s: State, t: Tid, k: Choice)
    requires Inv(c, s) && t < |s.threads|
    requires !HeadShown(c, s.q) && HeadShown(c, Step(c, s, t, k).q)
    ensures RingPlace(s.threads[t].pc) == InPush
    ensures var pc := Step(c, s, t, k).threads[t].pc;
            pc.Idle? && (pc.res.PushOK? || pc.res.PushPanicked? || (pc.res.PushClosed? && s.q.closed && c.rule.CppRule?))
  {
    var pc := s.threads[t].pc;
    assert PcOk(c, s.q, t, pc);
    if Holds(pc) { NearOf(c, s, t, pc.pos); }
    if pc.PopCas? && pc.pos == s.q.head { ClaimedWasShown(c, s, t); }
  }

  lemma ClaimedWasShown(c: Config, s: State, t: Tid)
    requires Inv(c, s) && t < |s.threads| && s.threads[t].pc.PopCas? && s.threads[t].pc.pos == s.q.head
    ensures HeadShown(c, s.q)
  {
    assert PcOk(c, s.q, t, s.threads[t].pc);
    assert EntryOk(c, s.q, s.q.head);
  }

  lemma StepClosed(c: Config, s: State, t: Tid, k: Choice)
    requires Inv(c, s) && t < |s.threads|
    ensures s.q.closed ==> Step(c, s, t, k).q.closed
    ensures RingPlace(s.threads[t].pc) == InClose && Step(c, s, t, k).threads[t].pc.Idle? ==> Step(c, s, t, k).q.closed
  {
    assert PcOk(c, s.q, t, s.threads[t].pc);
  }

  // A TryPop that comes back empty found the head unpublished at its last load.
  lemma StepEmpty(c: Config, s: State, t: Tid, k: Choice)
    requires Inv(c, s) && t < |s.threads| && RingPlace(s.threads[t].pc) == InPop
    requires Step(c, s, t, k).threads[t].pc == Idle(PopEmpty)
    ensures Step(c, s, t, k).q == s.q && !HeadShown(c, s.q)
  {
    assert PcOk(c, s.q, t, s.threads[t].pc);
    SeesUnpublished(c, s, s.threads[t].pc.pos);
  }

  // A TryPop ends with an event or with empty.
  lemma PopResult(c: Config, s: State, t: Tid, k: Choice)
    requires Sized(c, s.q) && t < |s.threads| && RingPlace(s.threads[t].pc) == InPop
    ensures var pc := Step(c, s, t, k).threads[t].pc; pc.Idle? ==> pc.res.PopOK? || pc.res.PopEmpty?
  {
  }

  // A TryPop that comes back without an event leaves the head unpublished.
  lemma EmptyCommits(c: Config, s: State, t: Tid)
    requires Inv(c, s) && t < |s.threads| && RingPlace(s.threads[t].pc) == InPop
    requires var pc := Step(c, s, t, Go).threads[t].pc; pc.Idle? && !pc.res.PopOK?
    ensures !HeadShown(c, Step(c, s, t, Go).q)
  {
    PopResult(c, s, t, Go);
    StepEmpty(c, s, t, Go);
  }
}

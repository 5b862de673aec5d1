/** Close, drain and progress of the ring. */
module RingShutdown {
  import opened Slots
  import opened Ring
  import opened RingInvariant
  import opened RingSteps
  import opened RingTheorems
  import opened RingCalls

  // ------------------------------------------------------------------ drain

  /** The head never passes the close position that Close recorded (Go), in any state after it. */
  lemma HeadStopsAtClose(c: Config, tr: seq<State>, j: nat)
    requires Run(c, tr) && j < |tr| && c.rule.GoRule? && tr[j].q.closed
    ensures var q := tr[j].q; q.head <= q.limit == |q.log| && (q.closedAt != 0 ==> q.closedAt == q.limit + 1)
  {
    RunInv(c, tr, j);
  }

  /**
   * When any drain test answers drained, every position that any push has been or
   * will ever be told is accepted has already been claimed, and whatever is
   * reserved later is refused.
   */
  lemma DrainIsExact(c: Config, tr: seq<State>, i: nat, j: nat, t: Tid, p: nat)
    requires Run(c, tr) && i <= j < |tr| && t < |tr[i].threads| && tr[i].threads[t].pc == Idle(Drained)
    requires p < |tr[j].q.log| && !tr[j].q.log[p].doomed
    ensures p < tr[i].q.head && p < |tr[i].q.log| && Popped(tr[i].q.log[p].phase)
  {
    RunInv(c, tr, i);
    RunInv(c, tr, j);
    RunExtends(c, tr, i, j);
    assert PcOk(c, tr[i].q, t, tr[i].threads[t].pc);
    assert EntryOk(c, tr[j].q, p);
    assert EntryOk(c, tr[i].q, p);
  }

  /** No push is told it was accepted unless its position was claimed before the first drained answer. */
  lemma NoPushAfterDrain(c: Config, tr: seq<State>, i: nat, j: nat, t: Tid, u: Tid)
    requires Run(c, tr) && i <= j < |tr| && t < |tr[i].threads| && tr[i].threads[t].pc == Idle(Drained)
    requires u < |tr[j].threads| && tr[j].threads[u].pc.Idle? && tr[j].threads[u].pc.res.PushOK?
    ensures tr[j].threads[u].pc.res.pos < tr[i].q.head
  {
    RunInv(c, tr, j);
    var p := tr[j].threads[u].pc.res.pos;
    assert PcOk(c, tr[j].q, u, tr[j].threads[u].pc);
    assert EntryOk(c, tr[j].q, p);
    DrainIsExact(c, tr, i, j, t, p);
  }

  /** Under Go's rule no thread ever waits for, or writes to, a slot for a position past the close. */
  lemma NoTicketPastClose(c: Config, tr: seq<State>, j: nat, t: Tid)
    requires Run(c, tr) && j < |tr| && c.rule.GoRule? && tr[j].q.closed
    requires t < |tr[j].threads| && ProducerHolds(tr[j].threads[t].pc)
    ensures tr[j].threads[t].pc.pos < tr[j].q.limit
  {
    RunInv(c, tr, j);
    assert PcOk(c, tr[j].q, t, tr[j].threads[t].pc);
  }

  // --------------------------------------------------------------- progress

  // The work still owed: how far every reserved position is from being released.
  function Debt(log: seq<Entry>): nat {
    if log == [] then 0 else Debt(log[..|log| - 1]) + Rank(log[|log| - 1].phase)
  }

  lemma {:induction false} DebtUpdate(log: seq<Entry>, p: nat, e: Entry)
    requires p < |log|
    ensures Debt(log[p := e]) == Debt(log) - Rank(log[p].phase) + Rank(e.phase)
  {
    var log' := log[p := e];
    var m := |log| - 1;
    if p == m {
      assert log'[..m] == log[..m];
    } else {
      assert log'[..m] == log[..m][p := e];
      DebtUpdate(log[..m], p, e);
    }
  }

  lemma {:induction false} DebtPointwise(log: seq<Entry>, log': seq<Entry>)
    requires |log| == |log'| && forall p | 0 <= p < |log| :: Rank(log'[p].phase) <= Rank(log[p].phase)
    ensures Debt(log') <= Debt(log)
  {
    if log != [] {
      DebtPointwise(log[..|log| - 1], log'[..|log| - 1]);
    }
  }

  /** Once Go's queue is closed, no step of anybody increases the debt. */
  lemma DebtNeverGrows(c: Config, s: State, t: Tid, k: Choice)
    requires Inv(c, s) && t < |s.threads| && c.rule.GoRule? && s.q.closed
    ensures Debt(Step(c, s, t, k).q.log) <= Debt(s.q.log)
  {
    var s' := Step(c, s, t, k);
    StepExtends(c, s, t, k);
    StepInv(c, s, t, k);
    forall p | 0 <= p < |s.q.log| ensures Rank(s'.q.log[p].phase) <= Rank(s.q.log[p].phase) {
      assert Settled(s.q.log[p], s'.q.log[p]);
    }
    DebtPointwise(s.q.log, s'.q.log);
  }

  // Thread t holds a position, and running it now pays part of the debt.
  ghost predicate Pays(c: Config, s: State, t: Tid) {
    && Sized(c, s.q) && t < |s.threads| && Holds(s.threads[t].pc)
    && |Step(c, s, t, Go).q.log| == |s.q.log| && Debt(Step(c, s, t, Go).q.log) < Debt(s.q.log)
  }

  lemma HolderAdvances(c: Config, s: State, t: Tid, pos: nat)
    requires Near(c, s, t, pos)
    requires s.threads[t].pc.Await? ==> s.q.turn[Slot(c.n, pos)] == pos
    ensures Advances(c, s, t, pos)
  {
    if s.threads[t].pc.Await? || s.threads[t].pc.TombWrite? || s.threads[t].pc.TombStore? { WaiterAdvances(c, s, t, pos); }
    else if ProducerHolds(s.threads[t].pc) { WriterAdvances(c, s, t, pos); }
    else { TakerAdvances(c, s, t, pos); }
    hide Step, Near, Rank;
  }

  ghost predicate Advances(c: Config, s: State, t: Tid, pos: nat)
    requires Sized(c, s.q) && t < |s.threads|
  {
    var log, log' := s.q.log, Step(c, s, t, Go).q.log;
    |log'| == |log| && pos < |log| && log' == log[pos := log'[pos]] && Rank(log'[pos].phase) < Rank(log[pos].phase)
  }

  lemma WaiterAdvances(c: Config, s: State, t: Tid, pos: nat)
    requires Near(c, s, t, pos) && (s.threads[t].pc.Await? || s.threads[t].pc.TombWrite? || s.threads[t].pc.TombStore?)
    requires s.threads[t].pc.Await? ==> s.q.turn[Slot(c.n, pos)] == pos
    ensures Advances(c, s, t, pos)
  {
  }

  lemma WriterAdvances(c: Config, s: State, t: Tid, pos: nat)
    requires Near(c, s, t, pos) && (s.threads[t].pc.Write? || s.threads[t].pc.Fill? || s.threads[t].pc.Store?)
    ensures Advances(c, s, t, pos)
  {
  }

  lemma TakerAdvances(c: Config, s: State, t: Tid, pos: nat)
    requires Near(c, s, t, pos) && ConsumerHolds(s.threads[t].pc)
    ensures Advances(c, s, t, pos)
  {
  }

  // A thread that holds a position and is not waiting for its slot pays with its next step.
  lemma HolderPays(c: Config, s: State, t: Tid, pos: nat)
    requires Near(c, s, t, pos)
    requires s.threads[t].pc.Await? ==> s.q.turn[Slot(c.n, pos)] == pos
    ensures Pays(c, s, t)
  {
    var s' := Step(c, s, t, Go);
    HolderAdvances(c, s, t, pos);
    hide Step, Near, Rank;
    DebtUpdate(s.q.log, pos, s'.q.log[pos]);
  }

  /**
   * Waiting tickets never form a cycle. While the head has not reached the last
   * position owed, either the head is published, so that the next pop claims it,
   * or some thread that already holds a position can pay for it now: the producer
   * the head waits for, or, if that producer is a ticket waiting for its slot, the
   * consumer that has not yet given the slot back.
   */
  lemma SomebodyPays(c: Config, tr: seq<State>, j: nat) returns (t: Tid)
    requires Run(c, tr) && j < |tr| && tr[j].q.head < |tr[j].q.log|
    ensures HeadShown(c, tr[j].q) || Pays(c, tr[j], t)
  {
    RunInv(c, tr, j);
    var s := tr[j];
    var h := s.q.head;
    var i := Slot(c.n, h);
    assert EntryOk(c, s.q, h) && Held(s.q, s.threads, h) && SlotOk(c, s.q, i);
    t := s.q.log[h].owner;
    if Owed(s.q.log[h].phase) {
      if s.q.log[h].phase.Reserved? && s.q.turn[i] != h {
        SameSlot(c.n, h, s.q.turn[i]);
        var p := h - c.n;
        assert Slot(c.n, p) == i && s.q.turn[i] == p;
        assert EntryOk(c, s.q, p) && Held(s.q, s.threads, p);
        t := s.q.log[p].taker;
        NearOf(c, s, t, p);
        HolderPays(c, s, t, p);
      } else {
        NearOf(c, s, t, h);
        HolderPays(c, s, t, h);
      }
    }
  }

  /** A pop that runs alone from a published head claims it, whatever it is. */
  lemma PopClaims(c: Config, s: State, t: Tid)
    requires Inv(c, s) && t < |s.threads| && s.threads[t].pc.Idle? && HeadShown(c, s.q)
    ensures var s1 := Step(c, s, t, Start(TryPop));
            var s2 := Step(c, s1, t, Go);
            var s3 := Step(c, s2, t, Go);
            var s4 := Step(c, s3, t, Go);
            s4.q.head == s.q.head + 1 && Debt(s4.q.log) < Debt(s.q.log)
  {
    var h := s.q.head;
    HeadStamp(c, s);
    var s3 := Step(c, Step(c, Step(c, s, t, Start(TryPop)), t, Go), t, Go);
    assert s3.q == s.q && s3.threads[t].pc == PopCas(h, s.q.stamps[Slot(c.n, h)].dead);
    var s4 := Step(c, s3, t, Go);
    assert s4.q.log == s.q.log[h := s4.q.log[h]];
    DebtUpdate(s.q.log, h, s4.q.log[h]);
  }

  /**
   * When nothing is held and the head has reached the end of the log, the whole
   * debt is paid: every slot has been given back.
   */
  lemma NothingOwed(c: Config, tr: seq<State>, j: nat, p: nat)
    requires Run(c, tr) && j < |tr| && tr[j].q.head == |tr[j].q.log| && p < |tr[j].q.log|
    requires forall t | 0 <= t < |tr[j].threads| :: !Holds(tr[j].threads[t].pc)
    ensures tr[j].q.log[p].phase.Released?
  {
    RunInv(c, tr, j);
    var s := tr[j];
    assert EntryOk(c, s.q, p) && Held(s.q, s.threads, p);
    assert !Holds(s.threads[s.q.log[p].taker].pc);
  }

  // ------------------------------------------------- some schedule pays it all

  // Thread u is idle or in a pop.
  predicate Popper(s: State, u: Tid) {
    u < |s.threads| && (s.threads[u].pc.Idle? || RingPlace(s.threads[u].pc).InPop?)
  }

  // Every position reserved so far has been claimed and nobody holds one.
  ghost predicate AllPaid(s: State) {
    s.q.head == |s.q.log| && forall t | 0 <= t < |s.threads| :: !Holds(s.threads[t].pc)
  }

  // How far a pop is from the claim of a published head.
  function Approach(q: Shared, pc: Pc): nat {
    match pc
    case PopCas(pos, _) => if pos == q.head then 1 else 4
    case PopSeq(pos) => if pos == q.head then 2 else 5
    case PopLoad => 3
    case Idle(_) => 4
    case _ => 0
  }

  function ApproachOf(s: State, u: Tid): nat { if u < |s.threads| then Approach(s.q, s.threads[u].pc) else 0 }

  // The step to s' lessens the debt, or brings u's pop nearer its claim.
  ghost predicate Nearer(s: State, s': State, u: Tid) {
    && Popper(s, u) && Popper(s', u) && |s'.q.log| == |s.q.log|
    && (|| Debt(s'.q.log) < Debt(s.q.log)
        || (Debt(s'.q.log) == Debt(s.q.log) && ApproachOf(s', u) < ApproachOf(s, u)))
  }

  // A look of the popper.
  lemma LookNearer(c: Config, s: State, u: Tid, k: Choice)
    requires Inv(c, s) && Popper(s, u) && !Holds(s.threads[u].pc) && HeadShown(c, s.q)
    requires k == if s.threads[u].pc.Idle? then Start(TryPop) else Go
    requires !(s.threads[u].pc.PopCas? && s.threads[u].pc.pos == s.q.head)
    ensures Nearer(s, Step(c, s, u, k), u)
  {
    var pc := s.threads[u].pc;
    HeadStamp(c, s);
    assert PcOk(c, s.q, u, pc);
    if pc.PopSeq? && s.q.stamps[Slot(c.n, pc.pos)].pos < pc.pos + 1 { SeesUnpublished(c, s, pc.pos); }
    hide Inv, PcOk, HeadShown;
  }

  // Its claim.
  lemma ClaimNearer(c: Config, s: State, u: Tid)
    requires Inv(c, s) && u < |s.threads| && s.threads[u].pc.PopCas? && s.threads[u].pc.pos == s.q.head && HeadShown(c, s.q)
    ensures Nearer(s, Step(c, s, u, Go), u)
  {
    var h, s' := s.q.head, Step(c, s, u, Go);
    assert s'.q.log == s.q.log[h := s'.q.log[h]];
    DebtUpdate(s.q.log, h, s'.q.log[h]);
  }

  lemma PaysNearer(c: Config, s: State, t: Tid, u: Tid)
    requires Inv(c, s) && Popper(s, u) && Pays(c, s, t)
    ensures Nearer(s, Step(c, s, t, Go), u)
  {
    StepMoves(c, s, t, Go);
    if t == u { StepPlace(c, s, t, Go); }
    hide Step, Inv;
  }

  // When the head has reached the end of the log, only consumers hold positions.
  lemma LastHolders(c: Config, s: State, t: Tid)
    requires Inv(c, s) && s.q.head == |s.q.log| && t < |s.threads| && Holds(s.threads[t].pc)
    ensures ConsumerHolds(s.threads[t].pc)
  {
    assert PcOk(c, s.q, t, s.threads[t].pc);
    assert EntryOk(c, s.q, s.threads[t].pc.pos);
  }

  lemma ConsumerPays(c: Config, s: State, t: Tid)
    requires Inv(c, s) && t < |s.threads| && ConsumerHolds(s.threads[t].pc)
    ensures Pays(c, s, t)
  {
    NearOf(c, s, t, s.threads[t].pc.pos);
    HolderPays(c, s, t, s.threads[t].pc.pos);
  }

  // A step of thread u, or of one that holds a position.
  ghost predicate Moves(c: Config, s: State, s': State, u: Tid) {
    && Sized(c, s.q)
    && exists t: Tid, k: Choice | t < |s.threads| && (t == u || Holds(s.threads[t].pc)) :: s' == Step(c, s, t, k)
  }

  // From run index j on there are no others.
  ghost predicate MovesFrom(c: Config, tr: seq<State>, j: nat, u: Tid) {
    forall l | j <= l < |tr| - 1 :: Moves(c, tr[l], tr[l + 1], u)
  }

  // Until all is paid, somebody's step brings the end nearer.
  lemma SomebodyMoves(c: Config, tr: seq<State>, u: Tid) returns (s': State)
    requires Run(c, tr) && Popper(tr[|tr| - 1], u) && !AllPaid(tr[|tr| - 1])
    ensures Next(c, tr[|tr| - 1], s') && Moves(c, tr[|tr| - 1], s', u) && Nearer(tr[|tr| - 1], s', u)
  {
    var s := tr[|tr| - 1];
    RunInv(c, tr, |tr| - 1);
    var t, k := u, Go;
    if ConsumerHolds(s.threads[u].pc) {
      ConsumerPays(c, s, u);
      PaysNearer(c, s, u, u);
    } else if s.q.head == |s.q.log| {
      var v: Tid :| v < |s.threads| && Holds(s.threads[v].pc);
      t := v;
      LastHolders(c, s, t);
      ConsumerPays(c, s, t);
      PaysNearer(c, s, t, u);
    } else if HeadShown(c, s.q) {
      if s.threads[u].pc.PopCas? && s.threads[u].pc.pos == s.q.head { ClaimNearer(c, s, u); }
      else {
        k := if s.threads[u].pc.Idle? then Start(TryPop) else Go;
        LookNearer(c, s, u, k);
      }
    } else {
      t := SomebodyPays(c, tr, |tr| - 1);
      PaysNearer(c, s, t, u);
    }
    s' := Step(c, s, t, k);
  }

  lemma PaidIsReleased(c: Config, tr: seq<State>, u: Tid)
    requires Run(c, tr) && AllPaid(tr[|tr| - 1])
    ensures MovesFrom(c, tr, |tr| - 1, u) && AllReleased(tr[|tr| - 1])
  {
    var s := tr[|tr| - 1];
    forall p | 0 <= p < |s.q.log| ensures s.q.log[p].phase.Released? { NothingOwed(c, tr, |tr| - 1, p); }
  }

  predicate AllReleased(s: State) { forall p | 0 <= p < |s.q.log| :: s.q.log[p].phase.Released? }

  lemma MovesBefore(c: Config, tr: seq<State>, j: nat, u: Tid)
    requires j + 1 < |tr| && Moves(c, tr[j], tr[j + 1], u) && MovesFrom(c, tr, j + 1, u)
    ensures MovesFrom(c, tr, j, u)
  {
    hide Moves;
  }

  /**
   * From any reachable state, closed or not and under either rule, the threads that
   * hold positions and one popper can run the queue empty: the run tr goes on to a
   * state in which every position reserved so far has been released.
   */
  lemma {:induction false} SomeScheduleEmpties(c: Config, tr: seq<State>, u: Tid) returns (tr': seq<State>)
    requires Run(c, tr) && Popper(tr[|tr| - 1], u)
    ensures Run(c, tr') && tr <= tr' && MovesFrom(c, tr', |tr| - 1, u)
    ensures var s, s' := tr[|tr| - 1], tr'[|tr'| - 1]; AllPaid(s') && |s'.q.log| == |s.q.log| && AllReleased(s')
    decreases Debt(tr[|tr| - 1].q.log), ApproachOf(tr[|tr| - 1], u)
  {
    assert tr != [];
    hide Run, Next, Moves, MovesFrom, AllPaid, AllReleased, Popper, Debt, ApproachOf;
    if AllPaid(tr[|tr| - 1]) {
      PaidIsReleased(c, tr, u);
      tr' := tr;
    } else {
      var s' := SomebodyMoves(c, tr, u);
      RunOn(c, tr, s');
      tr' := SomeScheduleEmpties(c, tr + [s'], u);
      assert tr'[|tr| - 1] == tr[|tr| - 1] && tr'[|tr|] == s';
      MovesBefore(c, tr', |tr| - 1, u);
    }
  }

  lemma RunOn(c: Config, tr: seq<State>, s': State)
    requires Run(c, tr) && Next(c, tr[|tr| - 1], s')
    ensures Run(c, tr + [s'])
  {
    var tr' := tr + [s'];
    forall j | 0 <= j < |tr'| - 1 ensures NextAt(c, tr', j) {
      if j < |tr| - 1 { assert NextAt(c, tr, j); }
    }
  }

  // ------------------------------------------------- the two close rules

  /**
   * Exactly when a ticket that is the only operation left gets its slot: when
   * fewer than N positions separate it from the head.
   */
  lemma LoneTicketMoves(c: Config, tr: seq<State>, j: nat, t: Tid)
    requires Run(c, tr) && j < |tr| && Sized(c, tr[j].q) && t < |tr[j].threads| && tr[j].threads[t].pc.Await?
    requires forall u | 0 <= u < |tr[j].threads| && u != t :: !Holds(tr[j].threads[u].pc)
    ensures Step(c, tr[j], t, Go).threads[t].pc != tr[j].threads[t].pc
            <==> tr[j].threads[t].pc.pos < tr[j].q.head + c.n
  {
    RunInv(c, tr, j);
    var s := tr[j];
    var pos := s.threads[t].pc.pos;
    var i := Slot(c.n, pos);
    NearOf(c, s, t, pos);
    SameSlot(c.n, pos, s.q.turn[i]);
    NextSlot(c.n, s.q.turn[i]);
    if pos >= c.n {
      var p := pos - c.n;
      assert Slot(c.n, p) == i;
      assert EntryOk(c, s.q, p) && Held(s.q, s.threads, p);
    }
  }

  /** Under Go's rule no ticket is left waiting once the closed queue is drained. */
  lemma NoTicketAfterDrain(c: Config, tr: seq<State>, j: nat, t: Tid)
    requires Run(c, tr) && j < |tr| && c.rule.GoRule? && tr[j].q.closed && tr[j].q.head == tr[j].q.limit
    requires t < |tr[j].threads|
    ensures !ProducerHolds(tr[j].threads[t].pc)
  {
    RunInv(c, tr, j);
    if ProducerHolds(tr[j].threads[t].pc) {
      NearOf(c, tr[j], t, tr[j].threads[t].pc.pos);
    }
  }

  ghost predicate Reachable(c: Config, s: State) {
    exists tr :: Run(c, tr) && tr[|tr| - 1] == s
  }

  lemma StepSized(c: Config, s: State, t: Tid, k: Choice)
    requires Inv(c, s) && t < |s.threads|
    ensures Sized(c, s.q) && Sized(c, Step(c, s, t, k).q)
  {
    StepInv(c, s, t, k);
    hide Step;
  }

  lemma ReachStep(c: Config, s: State, t: Tid, k: Choice)
    requires Reachable(c, s) && Sized(c, s.q) && t < |s.threads|
    ensures Reachable(c, Step(c, s, t, k)) && Sized(c, Step(c, s, t, k).q)
  {
    var tr :| Run(c, tr) && tr[|tr| - 1] == s;
    RunInv(c, tr, |tr| - 1);
    StepInv(c, s, t, k);
    StepSized(c, s, t, k);
    hide Inv, Step;
    assert Next(c, s, Step(c, s, t, k));
    RunOn(c, tr, Step(c, s, t, k));
    var tr' := tr + [Step(c, s, t, k)];
    assert Run(c, tr') && tr'[|tr'| - 1] == Step(c, s, t, k);
  }

  // The state after thread t's ticket landed past the close on a free slot and paid it.
  function PaidTicket(c: Config, s: State, t: Tid): State
    requires Sized(c, s.q) && t < |s.threads|
  {
    var pos, n := s.q.tail, s.threads[t].issued;
    State(s.q.(tail := pos + 1, stamps := s.q.stamps[Slot(c.n, pos) := Stamp(pos + 1, true)],
               log := s.q.log + [Entry(t, n, 7, Plain, true, Public, true, 0, 0)]),
          s.threads[t := Thread(Idle(PushClosed), n + 1)])
  }

  // The state after thread t has taken a ticket past the close.
  function TakenTicket(c: Config, s: State, t: Tid): State
    requires t < |s.threads|
  {
    var pos, n := s.q.tail, s.threads[t].issued;
    State(Append(s.q, Entry(t, n, 7, Plain, true, Reserved, false, 0, 0)),
          s.threads[t := Thread(Await(pos, 7, true), n + 1)])
  }

  predicate LateTicket(c: Config, s: State, t: Tid) {
    && Sized(c, s.q) && t < |s.threads| && s.threads[t].pc.Idle?
    && c.rule.CppRule? && s.q.closed && |s.q.log| == s.q.tail
  }

  lemma ReachTakenTicket(c: Config, s: State, t: Tid)
    requires Reachable(c, s) && LateTicket(c, s, t)
    ensures Reachable(c, TakenTicket(c, s, t))
  {
    var s1 := Step(c, s, t, Start(TakeTicket(7)));
    ReachStep(c, s, t, Start(TakeTicket(7)));
    ReachStep(c, s1, t, Go);
    assert Step(c, s1, t, Go) == TakenTicket(c, s, t);
  }

  lemma ReachPaidTicket(c: Config, s: State, t: Tid)
    requires Reachable(c, s) && LateTicket(c, s, t)
    requires s.q.stamps[Slot(c.n, s.q.tail)] == Stamp(s.q.tail, false)
    ensures Reachable(c, PaidTicket(c, s, t))
  {
    var s2 := TakenTicket(c, s, t);
    ReachTakenTicket(c, s, t);
    ReachStep(c, s2, t, Go);
    var s3 := Step(c, s2, t, Go);
    assert s3 == To(s2, t, Mark(s2.q, s.q.tail, Tomb), TombStore(s.q.tail, true));
    ReachStep(c, s3, t, Go);
    var s4 := Step(c, s3, t, Go);
    assert s4.q.log == PaidTicket(c, s, t).q.log;
    assert s4 == PaidTicket(c, s, t);
  }

  // Thread 0 has closed an empty C++ ring of two slots and been told it is drained.
  function DrainedPair(): State {
    State(Shared(0, true, 0, 0, [Stamp(0, false), Stamp(1, false)], [Raw, Raw], [0, 1], [], 0, []),
          [Thread(Idle(Drained), 0), Thread(Idle(Nothing), 0), Thread(Idle(Nothing), 0), Thread(Idle(Nothing), 0)])
  }

  lemma ReachClosed(c: Config, s: State, t: Tid)
    requires Reachable(c, s) && Sized(c, s.q) && t < |s.threads| && s.threads[t].pc.Idle?
    requires c.rule.CppRule? && !s.q.closed
    ensures Reachable(c, To(s, t, s.q.(closed := true, limit := |s.q.log|), Idle(CloseDone)))
  {
    ReachStep(c, s, t, Start(Close));
    var s1 := To(s, t, s.q, CloseOr);
    assert Step(c, s, t, Start(Close)) == s1;
    ReachStep(c, s1, t, Go);
    assert Step(c, s1, t, Go) == To(s, t, s.q.(closed := true, limit := |s.q.log|), Idle(CloseDone));
  }

  lemma ReachDrained(c: Config, s: State, t: Tid)
    requires Reachable(c, s) && Sized(c, s.q) && t < |s.threads| && s.threads[t].pc.Idle?
    requires c.rule.CppRule? && s.q.closed && s.q.head == s.q.tail
    ensures Reachable(c, To(s, t, s.q, Idle(Drained)))
  {
    ReachStep(c, s, t, Start(Drain));
    var s1 := To(s, t, s.q, DrainTail);
    assert Step(c, s, t, Start(Drain)) == s1;
    ReachStep(c, s1, t, Go);
    var s2 := To(s, t, s.q, DrainHead(s.q.tail));
    assert Step(c, s1, t, Go) == s2;
    ReachStep(c, s2, t, Go);
    assert Step(c, s2, t, Go) == To(s, t, s.q, Idle(Drained));
  }

  lemma ReachDrainedPair()
    ensures Reachable(Config(2, CppRule, false), DrainedPair())
  {
    var c := Config(2, CppRule, false);
    var s0 := State(DrainedPair().q.(closed := false), seq(4, t => Thread(Idle(Nothing), 0)));
    assert Init(c, s0);
    assert Run(c, [s0]) && [s0][0] == s0;
    ReachClosed(c, s0, 0);
    var s1 := To(s0, 0, s0.q.(closed := true, limit := 0), Idle(CloseDone));
    ReachDrained(c, s1, 0);
    assert To(s1, 0, s1.q, Idle(Drained)).threads == DrainedPair().threads;
  }

  /**
   * Under the C++ rule one can be: after a close and a drained answer, three
   * tickets land on two slots, and the third waits for a release that no running
   * operation will make.
   */
  lemma CppTicketCanHang() returns (s: State)
    ensures var c := Config(2, CppRule, false);
            && Reachable(c, s) && Sized(c, s.q) && |s.threads| == 4
            && s.threads[0].pc == Idle(Drained)
            && s.threads[3].pc == Await(2, 7, true)
            && (forall t | 0 <= t < 3 :: s.threads[t].pc.Idle?)
            && (forall k :: Step(c, s, 3, k) == s)
  {
    var c := Config(2, CppRule, false);
    ReachDrainedPair();
    ReachPaidTicket(c, DrainedPair(), 1);
    var s1 := PaidTicket(c, DrainedPair(), 1);
    ReachPaidTicket(c, s1, 2);
    var s2 := PaidTicket(c, s1, 2);
    ReachTakenTicket(c, s2, 3);
    s := TakenTicket(c, s2, 3);
    assert Slot(2, 2) == 0 && s.q.stamps[0] == Stamp(1, true);
  }
}

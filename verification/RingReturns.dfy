/**
 * What the ring's operations tell their callers, over every run: the answers are
 * collected as they are given, and compared with what has become of the positions.
 */
module RingReturns {
  import opened Slots
  import opened Ring
  import opened RingInvariant
  import opened RingSteps
  import opened RingTheorems

  // In the step from s to s', the operation that thread t is in returns.
  predicate Ends(s: State, s': State, t: Tid) {
    t < |s.threads| && t < |s'.threads| && !s.threads[t].pc.Idle? && s'.threads[t].pc.Idle?
  }

  /** What the operations of thread t have returned up to state j, in order. */
  function Returned(tr: seq<State>, j: nat, t: Tid): seq<Result>
    requires j < |tr|
  {
    if j == 0 then []
    else Returned(tr, j - 1, t) + (if Ends(tr[j - 1], tr[j], t) then [tr[j].threads[t].pc.res] else [])
  }

  // ------------------------------------------------------- once each, and to whom

  predicate Reports(res: Result) { res.PushOK? || res.PushPanicked? || res.PopOK? }

  // How often thread t should have been told res, by what became of its position:
  // its producer once it is published, its consumer once it is released.
  function Due(q: Shared, t: Tid, res: Result): nat {
    match res
    case PushOK(p) => if p < |q.log| && q.log[p].owner == t && Shown(q.log[p].phase) && !q.log[p].dead then 1 else 0
    case PushPanicked(p) =>
      if p < |q.log| && q.log[p].owner == t && Shown(q.log[p].phase) && q.log[p].dead && !q.log[p].doomed then 1 else 0
    case PopOK(p, v) =>
      if p < |q.log| && q.log[p].taker == t && q.log[p].phase.Released? && !q.log[p].dead && q.log[p].v == v then 1 else 0
    case _ => 0
  }

  // res is what the step from s to s' tells t.
  function Once(s: State, s': State, t: Tid, res: Result): nat {
    if Ends(s, s', t) && s'.threads[t].pc.res == res then 1 else 0
  }

  lemma OthersEnd(c: Config, s: State, u: Tid, k: Choice, t: Tid)
    requires Sized(c, s.q) && u < |s.threads|
    ensures |Step(c, s, u, k).threads| == |s.threads|
    ensures t < |s.threads| && t != u ==> Step(c, s, u, k).threads[t] == s.threads[t]
  {
  }

  lemma OwnerDue(c: Config, s: State, u: Tid, k: Choice, pos: nat, t: Tid, res: Result)
    requires Near(c, s, u, pos) && ProducerHolds(s.threads[u].pc) && Reports(res)
    ensures var s' := Step(c, s, u, k); Due(s'.q, t, res) == Due(s.q, t, res) + Once(s, s', t, res)
  {
    var pc := s.threads[u].pc;
    if pc.Store? || pc.TombStore? { PublishDue(c, s, u, k, pos, t, res); }
    else if pc.Write? || pc.Fill? { WriteDue(c, s, u, k, pos, t, res); }
    else { TurnDue(c, s, u, k, pos, t, res); }
    hide Step, Due, Once;
  }

  lemma PublishDue(c: Config, s: State, u: Tid, k: Choice, pos: nat, t: Tid, res: Result)
    requires Near(c, s, u, pos) && (s.threads[u].pc.Store? || s.threads[u].pc.TombStore?) && Reports(res)
    ensures var s' := Step(c, s, u, k); Due(s'.q, t, res) == Due(s.q, t, res) + Once(s, s', t, res)
  {
  }

  lemma WriteDue(c: Config, s: State, u: Tid, k: Choice, pos: nat, t: Tid, res: Result)
    requires Near(c, s, u, pos) && (s.threads[u].pc.Write? || s.threads[u].pc.Fill?) && Reports(res)
    ensures var s' := Step(c, s, u, k); Due(s'.q, t, res) == Due(s.q, t, res) + Once(s, s', t, res)
  {
  }

  lemma TurnDue(c: Config, s: State, u: Tid, k: Choice, pos: nat, t: Tid, res: Result)
    requires Near(c, s, u, pos) && (s.threads[u].pc.Await? || s.threads[u].pc.TombWrite?) && Reports(res)
    ensures var s' := Step(c, s, u, k); Due(s'.q, t, res) == Due(s.q, t, res) + Once(s, s', t, res)
  {
  }

  lemma TakerDue(c: Config, s: State, u: Tid, k: Choice, pos: nat, t: Tid, res: Result)
    requires Near(c, s, u, pos) && ConsumerHolds(s.threads[u].pc) && Reports(res)
    ensures var s' := Step(c, s, u, k); Due(s'.q, t, res) == Due(s.q, t, res) + Once(s, s', t, res)
  {
  }

  lemma ClaimDue(c: Config, s: State, u: Tid, k: Choice, t: Tid, res: Result)
    requires Sized(c, s.q) && u < |s.threads| && s.threads[u].pc.PopCas? && Reports(res)
    requires s.threads[u].pc.pos == s.q.head < |s.q.log| && EntryOk(c, s.q, s.q.head) && PcOk(c, s.q, u, s.threads[u].pc)
    ensures var s' := Step(c, s, u, k); Due(s'.q, t, res) == Due(s.q, t, res) + Once(s, s', t, res)
  {
  }

  lemma OtherDue(c: Config, s: State, u: Tid, k: Choice, t: Tid, res: Result)
    requires Sized(c, s.q) && u < |s.threads| && Reports(res)
    requires !Holds(s.threads[u].pc) && !(s.threads[u].pc.PopCas? && s.threads[u].pc.pos == s.q.head)
    ensures var s' := Step(c, s, u, k); Due(s'.q, t, res) == Due(s.q, t, res) + Once(s, s', t, res)
  {
    if s.threads[u].pc.ClaimCas? || s.threads[u].pc.TicketAdd? {
      AppendDue(c, s, u, k, t, res);
      hide Step, Due, Once;
    }
  }

  lemma AppendDue(c: Config, s: State, u: Tid, k: Choice, t: Tid, res: Result)
    requires Sized(c, s.q) && u < |s.threads| && Reports(res) && (s.threads[u].pc.ClaimCas? || s.threads[u].pc.TicketAdd?)
    ensures var s' := Step(c, s, u, k); Due(s'.q, t, res) == Due(s.q, t, res) + Once(s, s', t, res)
  {
  }

  lemma StepDue(c: Config, s: State, u: Tid, k: Choice, t: Tid, res: Result)
    requires Inv(c, s) && u < |s.threads| && Reports(res)
    ensures var s' := Step(c, s, u, k); Due(s'.q, t, res) == Due(s.q, t, res) + Once(s, s', t, res)
  {
    var pc := s.threads[u].pc;
    assert PcOk(c, s.q, u, pc);
    if Holds(pc) {
      NearOf(c, s, u, pc.pos);
      if ProducerHolds(pc) { OwnerDue(c, s, u, k, pc.pos, t, res); } else { TakerDue(c, s, u, k, pc.pos, t, res); }
    } else if pc.PopCas? && pc.pos == s.q.head {
      assert EntryOk(c, s.q, pc.pos);
      ClaimDue(c, s, u, k, t, res);
    } else {
      OtherDue(c, s, u, k, t, res);
    }
  }

  lemma NextDue(c: Config, s: State, s': State, t: Tid, res: Result)
    requires Inv(c, s) && Next(c, s, s') && Reports(res)
    ensures Due(s'.q, t, res) == Due(s.q, t, res) + Once(s, s', t, res)
  {
    hide Inv, Due, Step;
    if s' != s {
      var u: Tid, k: Choice :| u < |s.threads| && s' == Step(c, s, u, k);
      StepDue(c, s, u, k, t, res);
    }
  }

  /**
   * The answers are exact. A push has answered ok for a position exactly when it
   * is its own and the position is published and live, panicked when it is dead
   * without having been doomed; a TryPop has answered an event exactly when its
   * thread claimed that position, it is live and released, and that is its value;
   * each of them once.
   */
  lemma {:induction false} AnsweredOnce(c: Config, tr: seq<State>, j: nat, t: Tid, res: Result)
    requires Run(c, tr) && j < |tr| && Reports(res)
    ensures multiset(Returned(tr, j, t))[res] == Due(tr[j].q, t, res)
  {
    if j > 0 {
      hide Inv, Next, Returned, Due, Once;
      AnsweredOnce(c, tr, j - 1, t, res);
      RunInv(c, tr, j - 1);
      assert NextAt(c, tr, j - 1);
      NextDue(c, tr[j - 1], tr[j], t, res);
      ReturnedNext(tr, j, t, res);
    }
  }

  lemma ReturnedNext(tr: seq<State>, j: nat, t: Tid, res: Result)
    requires 0 < j < |tr|
    ensures multiset(Returned(tr, j, t))[res] == multiset(Returned(tr, j - 1, t))[res] + Once(tr[j - 1], tr[j], t, res)
  {
  }

  // ---------------------------------------------------------------- pops

  // Thread t has read the event of delivery d and not returned it yet.
  predicate Handing(s: State, d: Delivery) {
    && d.to < |s.threads|
    && (s.threads[d.to].pc == Clear(d.pos, Obj(d.v)) || s.threads[d.to].pc == Release(d.pos, Obj(d.v)))
  }

  /** Every event read is returned once, by the thread that read it, with its position and value, or that thread is still releasing its slot. */
  lemma ReadThenReturned(c: Config, tr: seq<State>, j: nat, d: nat)
    requires Run(c, tr) && j < |tr| && d < |tr[j].q.delivered|
    ensures var x := tr[j].q.delivered[d];
      multiset(Returned(tr, j, x.to))[PopOK(x.pos, x.v)] + (if Handing(tr[j], x) then 1 else 0) == 1
  {
    RunInv(c, tr, j);
    var s := tr[j];
    var x := s.q.delivered[d];
    AnsweredOnce(c, tr, j, x.to, PopOK(x.pos, x.v));
    assert DeliveryOk(s.q, d) && EntryOk(c, s.q, x.pos) && Held(s.q, s.threads, x.pos);
    if Handing(s, x) { assert PcOk(c, s.q, x.to, s.threads[x.to].pc); }
  }

  /** And nothing else is returned: an answer with an event is a delivery to that thread. */
  lemma ReturnedWasRead(c: Config, tr: seq<State>, j: nat, t: Tid, p: nat, v: Value)
    requires Run(c, tr) && j < |tr| && PopOK(p, v) in Returned(tr, j, t)
    ensures Delivery(t, p, v) in tr[j].q.delivered
  {
    RunInv(c, tr, j);
    AnsweredOnce(c, tr, j, t, PopOK(p, v));
    var q := tr[j].q;
    assert multiset(Returned(tr, j, t))[PopOK(p, v)] > 0;
    assert EntryOk(c, q, p) && Accounted(q, p) && DeliveryOk(q, q.log[p].idx);
  }

  ghost predicate ReturnedBySomebody(tr: seq<State>, j: nat, p: nat)
    requires j < |tr|
  {
    exists t: Tid, v: Value :: PopOK(p, v) in Returned(tr, j, t)
  }

  /** With no operation under way, the positions returned are exactly the live ones that have been claimed. */
  lemma ReturnedAtRest(c: Config, tr: seq<State>, j: nat, p: nat)
    requires Run(c, tr) && j < |tr| && AllIdle(tr[j])
    ensures ReturnedBySomebody(tr, j, p) <==> p < tr[j].q.head && p < |tr[j].q.log| && !tr[j].q.log[p].dead
  {
    RunInv(c, tr, j);
    var q := tr[j].q;
    if ReturnedBySomebody(tr, j, p) {
      var t: Tid, v: Value :| PopOK(p, v) in Returned(tr, j, t);
      AnsweredOnce(c, tr, j, t, PopOK(p, v));
      assert EntryOk(c, q, p);
    }
    if p < q.head && p < |q.log| && !q.log[p].dead {
      var e := q.log[p];
      assert EntryOk(c, q, p) && Held(q, tr[j].threads, p);
      assert tr[j].threads[e.taker].pc.Idle?;
      AnsweredOnce(c, tr, j, e.taker, PopOK(p, e.v));
      assert PopOK(p, e.v) in multiset(Returned(tr, j, e.taker));
    }
  }

  // What thread t has read, and what its operations have returned, in order.
  function ReadBy(ds: seq<Delivery>, t: Tid): seq<Delivery> {
    if ds == [] then [] else ReadBy(ds[..|ds| - 1], t) + (if ds[|ds| - 1].to == t then [ds[|ds| - 1]] else [])
  }

  function Events(t: Tid, rs: seq<Result>): seq<Delivery> {
    if rs == [] then []
    else
      var r := rs[|rs| - 1];
      Events(t, rs[..|rs| - 1]) + (if r.PopOK? then [Delivery(t, r.pos, r.v)] else [])
  }

  function InHand(s: State, t: Tid): seq<Delivery> {
    if t >= |s.threads| then []
    else
      match s.threads[t].pc
      case Clear(pos, got) => if got.Obj? then [Delivery(t, pos, got.v)] else []
      case Release(pos, got) => if got.Obj? then [Delivery(t, pos, got.v)] else []
      case _ => []
  }

  // What the step from s to s' tells thread t.
  function News(s: State, s': State, t: Tid): seq<Delivery> {
    if Ends(s, s', t) && s'.threads[t].pc.res.PopOK? then [Delivery(t, s'.threads[t].pc.res.pos, s'.threads[t].pc.res.v)] else []
  }

  lemma ReadByOne(ds: seq<Delivery>, d: Delivery, t: Tid)
    ensures ReadBy(ds + [d], t) == ReadBy(ds, t) + (if d.to == t then [d] else [])
  {
    assert (ds + [d])[..|ds|] == ds;
  }

  lemma ReadHands(c: Config, s: State, u: Tid, k: Choice, t: Tid)
    requires Sized(c, s.q) && u < |s.threads| && s.threads[u].pc.Read?
    ensures var s' := Step(c, s, u, k);
      && News(s, s', t) == []
      && (t == u ==> InHand(s, t) == [] && ReadBy(s'.q.delivered, t) == ReadBy(s.q.delivered, t) + InHand(s', t))
      && (t != u ==> InHand(s', t) == InHand(s, t) && ReadBy(s'.q.delivered, t) == ReadBy(s.q.delivered, t))
  {
    var pos := s.threads[u].pc.pos;
    var got := s.q.cells[Slot(c.n, pos)];
    if got.Obj? { ReadByOne(s.q.delivered, Delivery(u, pos, got.v), t); }
  }

  lemma OtherHands(c: Config, s: State, u: Tid, k: Choice, t: Tid)
    requires Sized(c, s.q) && u < |s.threads| && !s.threads[u].pc.Read?
    ensures var s' := Step(c, s, u, k); News(s, s', t) + InHand(s', t) == InHand(s, t)
  {
    OthersEnd(c, s, u, k, t);
    if u == t {
      if Holds(s.threads[t].pc) { HolderHands(c, s, t, k); } else { LookerHands(c, s, t, k); }
    }
    hide Step;
  }

  lemma HolderHands(c: Config, s: State, t: Tid, k: Choice)
    requires Sized(c, s.q) && t < |s.threads| && Holds(s.threads[t].pc) && !s.threads[t].pc.Read?
    ensures var s' := Step(c, s, t, k); News(s, s', t) + InHand(s', t) == InHand(s, t)
  {
    hide Mark, Bury, Claim, Deliver, Append;
  }

  lemma LookerHands(c: Config, s: State, t: Tid, k: Choice)
    requires Sized(c, s.q) && t < |s.threads| && !Holds(s.threads[t].pc)
    ensures var s' := Step(c, s, t, k); News(s, s', t) + InHand(s', t) == InHand(s, t)
  {
    hide Mark, Bury, Claim, Deliver, Append;
  }

  lemma NoNews(s: State, t: Tid)
    ensures News(s, s, t) == []
  {
  }

  lemma NextHands(c: Config, s: State, s': State, t: Tid, told: seq<Delivery>)
    requires Next(c, s, s') && told + InHand(s, t) == ReadBy(s.q.delivered, t)
    ensures told + News(s, s', t) + InHand(s', t) == ReadBy(s'.q.delivered, t)
  {
    hide Step, ReadBy, InHand, News;
    if s' != s {
      var u: Tid, k: Choice :| u < |s.threads| && s' == Step(c, s, u, k);
      if s.threads[u].pc.Read? {
        ReadHands(c, s, u, k, t);
      } else {
        OtherHands(c, s, u, k, t);
        OnlyReadDelivers(c, s, u, k);
        assert told + News(s, s', t) + InHand(s', t) == told + (News(s, s', t) + InHand(s', t));
      }
    } else {
      NoNews(s, t);
    }
  }

  lemma EventsNext(tr: seq<State>, j: nat, t: Tid)
    requires 0 < j < |tr|
    ensures Events(t, Returned(tr, j, t)) == Events(t, Returned(tr, j - 1, t)) + News(tr[j - 1], tr[j], t)
  {
    var before, after := Returned(tr, j - 1, t), Returned(tr, j, t);
    if Ends(tr[j - 1], tr[j], t) { assert after[..|after| - 1] == before; } else { assert after == before; }
  }

  /** A thread's operations return what it has read, in the order in which it read it, up to the event it is still releasing. */
  lemma {:induction false} ReturnedInOrder(c: Config, tr: seq<State>, j: nat, t: Tid)
    requires Run(c, tr) && j < |tr|
    ensures Events(t, Returned(tr, j, t)) + InHand(tr[j], t) == ReadBy(tr[j].q.delivered, t)
  {
    hide Next, News;
    if j == 0 {
      assert tr[0].q.delivered == [] && InHand(tr[0], t) == [];
    } else {
      hide InHand, ReadBy, Events;
      ReturnedInOrder(c, tr, j - 1, t);
      assert NextAt(c, tr, j - 1);
      NextHands(c, tr[j - 1], tr[j], t, Events(t, Returned(tr, j - 1, t)));
      EventsNext(tr, j, t);
    }
  }

  // ---------------------------------------------------------------- pushes

  predicate StartsPush(pc: Pc) { pc.ClaimLoad? || pc.TicketCheck? || pc.TicketAdd? }

  /** The value that thread t passed to its latest push. */
  function Asked(tr: seq<State>, j: nat, t: Tid): Value
    requires j < |tr|
  {
    if j == 0 then 0
    else if t < |tr[j - 1].threads| && t < |tr[j].threads| && tr[j - 1].threads[t].pc.Idle? && StartsPush(tr[j].threads[t].pc)
    then tr[j].threads[t].pc.v
    else Asked(tr, j - 1, t)
  }

  predicate Reserved(q: Shared, p: nat, v: Value) { p < |q.log| && q.log[p].v == v }

  // The push at pc is of v, and the position it has reserved, or answered for, was reserved with v.
  predicate Carries(q: Shared, pc: Pc, v: Value) {
    match pc
    case ClaimLoad(x, _) => x == v
    case ClaimSeq(x, _, _) => x == v
    case ClaimCas(x, _, _) => x == v
    case TicketCheck(x) => x == v
    case TicketAdd(x) => x == v
    case Await(pos, x, _) => x == v && Reserved(q, pos, v)
    case Write(pos, x) => x == v && Reserved(q, pos, v)
    case Fill(pos, x) => x == v && Reserved(q, pos, v)
    case Store(pos) => Reserved(q, pos, v)
    case TombWrite(pos) => Reserved(q, pos, v)
    case TombStore(pos, _) => Reserved(q, pos, v)
    case Idle(res) => (res.PushOK? || res.PushPanicked?) ==> Reserved(q, res.pos, v)
    case _ => true
  }

  lemma HolderCarries(c: Config, s: State, t: Tid, k: Choice, pos: nat, v: Value)
    requires Near(c, s, t, pos) && Carries(s.q, s.threads[t].pc, v)
    ensures var s' := Step(c, s, t, k); t < |s'.threads| && Carries(s'.q, s'.threads[t].pc, v)
  {
    if ProducerHolds(s.threads[t].pc) { ProducerCarries(c, s, t, k, pos, v); } else { ConsumerCarries(c, s, t, k, pos, v); }
    hide Step, Carries;
  }

  lemma ProducerCarries(c: Config, s: State, t: Tid, k: Choice, pos: nat, v: Value)
    requires Near(c, s, t, pos) && ProducerHolds(s.threads[t].pc) && Carries(s.q, s.threads[t].pc, v)
    ensures var s' := Step(c, s, t, k); t < |s'.threads| && Carries(s'.q, s'.threads[t].pc, v)
  {
  }

  lemma ConsumerCarries(c: Config, s: State, t: Tid, k: Choice, pos: nat, v: Value)
    requires Near(c, s, t, pos) && ConsumerHolds(s.threads[t].pc)
    ensures var s' := Step(c, s, t, k); t < |s'.threads| && Carries(s'.q, s'.threads[t].pc, v)
  {
  }

  lemma LookerCarries(c: Config, s: State, t: Tid, k: Choice, v: Value)
    requires Sized(c, s.q) && Closing(c, s.q) && t < |s.threads| && PcOk(c, s.q, t, s.threads[t].pc)
    requires !Holds(s.threads[t].pc) && !s.threads[t].pc.Idle? && Carries(s.q, s.threads[t].pc, v)
    ensures var s' := Step(c, s, t, k); t < |s'.threads| && Carries(s'.q, s'.threads[t].pc, v)
  {
  }

  lemma MoverCarries(c: Config, s: State, t: Tid, k: Choice, v: Value)
    requires Inv(c, s) && t < |s.threads| && !s.threads[t].pc.Idle? && Carries(s.q, s.threads[t].pc, v)
    ensures var s' := Step(c, s, t, k); t < |s'.threads| && Carries(s'.q, s'.threads[t].pc, v)
  {
    var pc := s.threads[t].pc;
    assert PcOk(c, s.q, t, pc);
    if Holds(pc) {
      NearOf(c, s, t, pc.pos);
      HolderCarries(c, s, t, k, pc.pos, v);
    } else {
      LookerCarries(c, s, t, k, v);
    }
    hide Step;
  }

  lemma SettledCarries(q: Shared, q': Shared, pc: Pc, v: Value)
    requires Extends(q, q') && Carries(q, pc, v)
    ensures Carries(q', pc, v)
  {
  }

  lemma StartCarries(c: Config, s: State, t: Tid, k: Choice, v: Value)
    requires Sized(c, s.q) && t < |s.threads| && s.threads[t].pc.Idle? && Carries(s.q, s.threads[t].pc, v)
    ensures var s' := Step(c, s, t, k);
      (t < |s'.threads| && Carries(s'.q, s'.threads[t].pc, if StartsPush(s'.threads[t].pc) then s'.threads[t].pc.v else v))
  {
  }

  lemma NextCarries(c: Config, s: State, s': State, t: Tid, v: Value)
    requires Inv(c, s) && Next(c, s, s') && t < |s.threads| && Carries(s.q, s.threads[t].pc, v)
    ensures t < |s'.threads|
      && Carries(s'.q, s'.threads[t].pc, if s.threads[t].pc.Idle? && StartsPush(s'.threads[t].pc) then s'.threads[t].pc.v else v)
  {
    hide Inv, Step, Carries, Extends;
    if s' != s {
      var u: Tid, k: Choice :| u < |s.threads| && s' == Step(c, s, u, k);
      OthersEnd(c, s, u, k, t);
      if u != t {
        StepExtends(c, s, u, k);
        SettledCarries(s.q, s'.q, s.threads[t].pc, v);
      } else if s.threads[t].pc.Idle? {
        StartCarries(c, s, t, k, v);
      } else {
        MoverCarries(c, s, t, k, v);
      }
    }
  }

  lemma {:induction false} RunCarries(c: Config, tr: seq<State>, j: nat, t: Tid)
    requires Run(c, tr) && j < |tr| && t < |tr[j].threads|
    ensures Carries(tr[j].q, tr[j].threads[t].pc, Asked(tr, j, t))
  {
    if j > 0 {
      RunStepExtends(c, tr, j);
      RunCarries(c, tr, j - 1, t);
      RunInv(c, tr, j - 1);
      assert NextAt(c, tr, j - 1);
      NextCarries(c, tr[j - 1], tr[j], t, Asked(tr, j - 1, t));
    }
  }

  /** A push that answers ok has published the value it was called with, and nothing else is ever delivered from its position. */
  lemma PushesItsValue(c: Config, tr: seq<State>, j: nat, t: Tid)
    requires Run(c, tr) && j < |tr| && t < |tr[j].threads| && tr[j].threads[t].pc.Idle? && tr[j].threads[t].pc.res.PushOK?
    ensures var p, q := tr[j].threads[t].pc.res.pos, tr[j].q;
      && p < |q.log| && q.log[p].owner == t && q.log[p].v == Asked(tr, j, t)
      && forall d | 0 <= d < |q.delivered| && q.delivered[d].pos == p :: q.delivered[d].v == Asked(tr, j, t)
  {
    RunCarries(c, tr, j, t);
    RunInv(c, tr, j);
    var q := tr[j].q;
    assert PcOk(c, q, t, tr[j].threads[t].pc);
    forall d | 0 <= d < |q.delivered| && q.delivered[d].pos == tr[j].threads[t].pc.res.pos
      ensures q.delivered[d].v == Asked(tr, j, t)
    {
      assert DeliveryOk(q, d);
    }
  }

  // ---------------------------------------------------------------- looks

  // What an answer to a drained test, or of closed, says at the load that decides it.
  ghost predicate LookIsTrue(c: Config, q: Shared, pc: Pc, res: Result) {
    && (res.Open? ==> !q.closed)
    && (res.Drained? ==> q.closed && q.head >= q.limit)
    && (res.NotDrained? && c.rule.GoRule? ==> q.closed && (q.closedAt == 0 || q.head < q.limit))
    && (res.NotDrained? && c.rule.CppRule? ==> pc.DrainHead? && q.head != pc.end && q.limit <= pc.end)
    && (pc.PeekSeq? && pc.pos == q.head ==> (res.Published? <==> HeadShown(c, q)) && (res.Unpublished? <==> !HeadShown(c, q)))
    && (res.PushClosed? ==> q.closed)
  }

  lemma LookerIsTrue(c: Config, s: State, t: Tid, k: Choice)
    requires Sized(c, s.q) && Closing(c, s.q) && t < |s.threads| && PcOk(c, s.q, t, s.threads[t].pc)
    requires !s.threads[t].pc.Idle? && !Holds(s.threads[t].pc) && !s.threads[t].pc.PeekSeq? && Step(c, s, t, k).threads[t].pc.Idle?
    ensures LookIsTrue(c, s.q, s.threads[t].pc, Step(c, s, t, k).threads[t].pc.res)
  {
  }

  lemma HolderIsTrue(c: Config, s: State, t: Tid, k: Choice, pos: nat)
    requires Near(c, s, t, pos) && Step(c, s, t, k).threads[t].pc.Idle?
    ensures LookIsTrue(c, s.q, s.threads[t].pc, Step(c, s, t, k).threads[t].pc.res)
  {
  }

  lemma PeekIsTrue(c: Config, s: State, t: Tid, k: Choice)
    requires Inv(c, s) && t < |s.threads| && s.threads[t].pc.PeekSeq? && Step(c, s, t, k).threads[t].pc.Idle?
    ensures LookIsTrue(c, s.q, s.threads[t].pc, Step(c, s, t, k).threads[t].pc.res)
  {
    HeadStamp(c, s);
  }

  /** What a drained test and a look at the head's slot answer is true at the load that decides it. */
  lemma LooksAreTruthful(c: Config, tr: seq<State>, j: nat, t: Tid, k: Choice)
    requires Run(c, tr) && j < |tr| && t < |tr[j].threads| && !tr[j].threads[t].pc.Idle?
    requires Sized(c, tr[j].q) && Step(c, tr[j], t, k).threads[t].pc.Idle?
    ensures LookIsTrue(c, tr[j].q, tr[j].threads[t].pc, Step(c, tr[j], t, k).threads[t].pc.res)
  {
    RunInv(c, tr, j);
    var s := tr[j];
    var pc := s.threads[t].pc;
    assert PcOk(c, s.q, t, pc);
    if Holds(pc) {
      NearOf(c, s, t, pc.pos);
      HolderIsTrue(c, s, t, k, pc.pos);
    } else if pc.PeekSeq? {
      PeekIsTrue(c, s, t, k);
    } else {
      LookerIsTrue(c, s, t, k);
    }
    hide Step, LookIsTrue, Run;
  }
}

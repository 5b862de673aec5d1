/** What the ring promises, for every run. */
module RingTheorems {
  import opened Slots
  import opened Ring
  import opened RingInvariant
  import opened RingSteps

  // ---------------------------------------------------------------- ownership

  // Thread at pc may touch the payload of the slot of pc.pos.
  predicate AtPayload(pc: Pc) {
    pc.Write? || pc.Fill? || pc.Store? || pc.TombWrite? || pc.TombStore? || ConsumerHolds(pc)
  }

  /** No two threads ever hold one slot's payload, whatever laps their positions are on. */
  lemma ExclusivePayload(c: Config, tr: seq<State>, j: nat, t: Tid, u: Tid)
    requires Run(c, tr) && j < |tr| && t < |tr[j].threads| && u < |tr[j].threads| && t != u
    requires AtPayload(tr[j].threads[t].pc) && AtPayload(tr[j].threads[u].pc)
    ensures Slot(c.n, tr[j].threads[t].pc.pos) != Slot(c.n, tr[j].threads[u].pc.pos)
  {
    RunInv(c, tr, j);
    var s := tr[j];
    var p, r := s.threads[t].pc.pos, s.threads[u].pc.pos;
    assert PcOk(c, s.q, t, s.threads[t].pc) && PcOk(c, s.q, u, s.threads[u].pc);
    assert EntryOk(c, s.q, p) && EntryOk(c, s.q, r);
  }

  // ---------------------------------------------------------------- history

  // Later keeps what earlier settled: who reserved a position, with what; whether
  // it died; who claimed it. Phases only move forward.
  predicate Settled(e: Entry, e': Entry) {
    && e'.owner == e.owner && e'.n == e.n && e'.v == e.v && e'.kind == e.kind && e'.doomed == e.doomed
    && Rank(e'.phase) <= Rank(e.phase)
    && (Shown(e.phase) ==> Shown(e'.phase) && e'.dead == e.dead)
    && (Popped(e.phase) ==> Popped(e'.phase) && e'.taker == e.taker)
  }

  ghost predicate Extends(q: Shared, q': Shared) {
    && |q.log| <= |q'.log|
    && (forall p | 0 <= p < |q.log| :: Settled(q.log[p], q'.log[p]))
    && q.delivered <= q'.delivered
    && q.head <= q'.head && q.tail <= q'.tail
    && (q.closed ==> q'.closed && q'.limit == q.limit)
  }

  // One position settles further and at most one delivery is added.
  lemma UpdateExtends(q: Shared, q': Shared, p: nat)
    requires p < |q.log| == |q'.log| && q'.log == q.log[p := q'.log[p]] && Settled(q.log[p], q'.log[p])
    requires q.delivered <= q'.delivered && q.head <= q'.head && q'.tail == q.tail
    requires q'.closed == q.closed && q'.limit == q.limit
    ensures Extends(q, q')
  {
  }

  lemma TouchExtends(c: Config, q: Shared, q': Shared, pos: nat)
    requires Touches(c, q, q', pos) && Forward(q.log[pos], q'.log[pos]) && q.delivered <= q'.delivered
    ensures Extends(q, q')
  {
    UpdateExtends(q, q', pos);
  }

  lemma DeliveredGrows(c: Config, s: State, t: Tid, k: Choice)
    requires Sized(c, s.q) && t < |s.threads|
    ensures s.q.delivered <= Step(c, s, t, k).q.delivered
  {
    if s.threads[t].pc.Read? {
      ReadGrows(c, s, t, k);
      hide Step;
    } else {
      OnlyReadDelivers(c, s, t, k);
      hide Step;
    }
  }

  lemma ReadGrows(c: Config, s: State, t: Tid, k: Choice)
    requires Sized(c, s.q) && t < |s.threads| && s.threads[t].pc.Read?
    ensures s.q.delivered <= Step(c, s, t, k).q.delivered
  {
  }

  lemma OnlyReadDelivers(c: Config, s: State, t: Tid, k: Choice)
    requires Sized(c, s.q) && t < |s.threads| && !s.threads[t].pc.Read?
    ensures Step(c, s, t, k).q.delivered == s.q.delivered
  {
    if Holds(s.threads[t].pc) { HolderDelivers(c, s, t, k); } else { OtherDelivers(c, s, t, k); }
    hide Step;
  }

  lemma HolderDelivers(c: Config, s: State, t: Tid, k: Choice)
    requires Sized(c, s.q) && t < |s.threads| && Holds(s.threads[t].pc) && !s.threads[t].pc.Read?
    ensures Step(c, s, t, k).q.delivered == s.q.delivered
  {
  }

  lemma OtherDelivers(c: Config, s: State, t: Tid, k: Choice)
    requires Sized(c, s.q) && t < |s.threads| && !Holds(s.threads[t].pc)
    ensures Step(c, s, t, k).q.delivered == s.q.delivered
  {
  }

  lemma HolderExtends(c: Config, s: State, t: Tid, k: Choice, pos: nat)
    requires Near(c, s, t, pos) && (pos + c.n < |s.q.log| ==> EntryOk(c, s.q, pos + c.n))
    ensures Extends(s.q, Step(c, s, t, k).q) && Step(c, s, t, k).q.head == s.q.head
  {
    var s' := Step(c, s, t, k);
    DeliveredGrows(c, s, t, k);
    if s' != s {
      if ProducerHolds(s.threads[t].pc) { OwnerTouch(c, s, t, k, pos); } else { TakerTouch(c, s, t, k, pos); }
      TouchExtends(c, s.q, s'.q, pos);
    }
  }

  lemma ClaimExtends(c: Config, s: State, t: Tid, k: Choice)
    requires Sized(c, s.q) && t < |s.threads| && s.threads[t].pc.PopCas? && s.threads[t].pc.pos == s.q.head
    requires PcOk(c, s.q, t, s.threads[t].pc) && s.q.head < |s.q.log| && EntryOk(c, s.q, s.q.head)
    ensures Extends(s.q, Step(c, s, t, k).q) && Step(c, s, t, k).q.head == s.q.head + 1
  {
    UpdateExtends(s.q, Step(c, s, t, k).q, s.q.head);
  }

  lemma OtherExtends(c: Config, s: State, t: Tid, k: Choice)
    requires Sized(c, s.q) && Closing(c, s.q) && t < |s.threads|
    requires !Holds(s.threads[t].pc) && !(s.threads[t].pc.PopCas? && s.threads[t].pc.pos == s.q.head)
    ensures Extends(s.q, Step(c, s, t, k).q) && Step(c, s, t, k).q.head == s.q.head
  {
  }

  /** A step settles the history further, and the head moves by at most one. */
  lemma StepExtends(c: Config, s: State, t: Tid, k: Choice)
    requires Inv(c, s) && t < |s.threads|
    ensures Extends(s.q, Step(c, s, t, k).q)
    ensures Step(c, s, t, k).q.head <= s.q.head + 1
  {
    var pc := s.threads[t].pc;
    assert PcOk(c, s.q, t, pc);
    if Holds(pc) {
      NearOf(c, s, t, pc.pos);
      HolderExtends(c, s, t, k, pc.pos);
    } else if pc.PopCas? && pc.pos == s.q.head {
      assert EntryOk(c, s.q, pc.pos);
      ClaimExtends(c, s, t, k);
    } else {
      OtherExtends(c, s, t, k);
    }
  }

  lemma ExtendsRefl(q: Shared)
    ensures Extends(q, q)
  {
    forall p | 0 <= p < |q.log| ensures Settled(q.log[p], q.log[p]) {}
  }

  lemma ExtendsTrans(a: Shared, b: Shared, d: Shared)
    requires Extends(a, b) && Extends(b, d)
    ensures Extends(a, d)
  {
    forall p | 0 <= p < |a.log| ensures Settled(a.log[p], d.log[p]) {
      assert Settled(a.log[p], b.log[p]) && Settled(b.log[p], d.log[p]);
    }
  }

  lemma StepThreads(c: Config, s: State, t: Tid, k: Choice)
    requires Sized(c, s.q) && t < |s.threads|
    ensures |Step(c, s, t, k).threads| == |s.threads|
  {
  }

  lemma NextExtends(c: Config, s: State, s': State)
    requires Inv(c, s) && Next(c, s, s')
    ensures Extends(s.q, s'.q) && |s'.threads| == |s.threads| && s'.q.head <= s.q.head + 1
  {
    hide Inv, Extends, Step;
    if s' != s {
      var t: Tid, k: Choice :| t < |s.threads| && s' == Step(c, s, t, k);
      StepExtends(c, s, t, k);
      StepThreads(c, s, t, k);
    } else {
      ExtendsRefl(s.q);
    }
  }

  lemma RunStepExtends(c: Config, tr: seq<State>, j: nat)
    requires Run(c, tr) && 0 < j < |tr|
    ensures Extends(tr[j - 1].q, tr[j].q) && |tr[j].threads| == |tr[j - 1].threads|
    ensures tr[j].q.head <= tr[j - 1].q.head + 1
  {
    RunInv(c, tr, j - 1);
    assert NextAt(c, tr, j - 1);
    NextExtends(c, tr[j - 1], tr[j]);
  }

  /** History is never rewritten: any later state of a run extends any earlier one. */
  lemma {:induction false} RunExtends(c: Config, tr: seq<State>, i: nat, j: nat)
    requires Run(c, tr) && i <= j < |tr|
    ensures Extends(tr[i].q, tr[j].q)
    ensures |tr[i].threads| == |tr[j].threads|
    decreases j
  {
    if i == j {
      ExtendsRefl(tr[i].q);
    } else {
      RunExtends(c, tr, i, j - 1);
      RunStepExtends(c, tr, j);
      ExtendsTrans(tr[i].q, tr[j - 1].q, tr[j].q);
    }
  }

  // ------------------------------------------------------- exactly once, in order

  // d is the delivery of position p.
  predicate DeliveryOf(q: Shared, d: nat, p: nat) {
    d < |q.delivered| && q.delivered[d].pos == p
  }

  /** No position is delivered twice; what is delivered is what was reserved with, from a live claimed position. */
  lemma DeliveredOnce(c: Config, tr: seq<State>, j: nat, d: nat)
    requires Run(c, tr) && j < |tr| && d < |tr[j].q.delivered|
    ensures var q := tr[j].q; var x := q.delivered[d];
            && x.pos < q.head <= |q.log|
            && q.log[x.pos].v == x.v && q.log[x.pos].taker == x.to && !q.log[x.pos].dead && !q.log[x.pos].doomed
            && forall d' | DeliveryOf(q, d', x.pos) :: d' == d
  {
    RunInv(c, tr, j);
    var q := tr[j].q;
    assert DeliveryOk(q, d);
    assert EntryOk(c, q, q.delivered[d].pos);
    forall d' | DeliveryOf(q, d', q.delivered[d].pos) ensures d' == d { assert DeliveryOk(q, d'); }
  }

  predicate AllIdle(s: State) { forall t | 0 <= t < |s.threads| :: s.threads[t].pc.Idle? }

  /**
   * Nothing accepted is lost: once every operation has returned and the head has
   * reached the last position owed, the live positions and the deliveries
   * correspond one to one, and nothing else was delivered.
   */
  lemma DeliveredAll(c: Config, tr: seq<State>, j: nat, p: nat)
    requires Run(c, tr) && j < |tr| && AllIdle(tr[j]) && tr[j].q.head == |tr[j].q.log| && p < |tr[j].q.log|
    ensures var q := tr[j].q;
            !q.log[p].dead <==> exists d: nat :: DeliveryOf(q, d, p)
  {
    RunInv(c, tr, j);
    var s := tr[j];
    assert EntryOk(c, s.q, p) && Held(s.q, s.threads, p) && Accounted(s.q, p);
    if !s.q.log[p].dead {
      assert s.threads[s.q.log[p].taker].pc.Idle?;
      assert DeliveryOf(s.q, s.q.log[p].idx, p);
    }
    if exists d: nat :: DeliveryOf(s.q, d, p) {
      var d: nat :| DeliveryOf(s.q, d, p);
      assert DeliveryOk(s.q, d);
    }
  }

  /** Each consumer reads any one producer's values in the order that producer reserved them. */
  lemma ProgramOrder(c: Config, tr: seq<State>, j: nat, a: nat, b: nat)
    requires Run(c, tr) && j < |tr| && a < b < |tr[j].q.delivered|
    requires tr[j].q.delivered[a].to == tr[j].q.delivered[b].to
    ensures var q := tr[j].q; var pa, pb := q.delivered[a].pos, q.delivered[b].pos;
            && pa < pb < |q.log|
            && (q.log[pa].owner == q.log[pb].owner ==> q.log[pa].n < q.log[pb].n)
  {
    RunInv(c, tr, j);
    assert DeliveryOk(tr[j].q, a) && DeliveryOk(tr[j].q, b);
  }

  /**
   * A push that has returned ok keeps its position for the rest of the run: one
   * live entry of the log with its producer, never buried and never taken back.
   */
  lemma AcceptedForGood(c: Config, tr: seq<State>, i: nat, j: nat, t: Tid)
    requires Run(c, tr) && i <= j < |tr| && t < |tr[i].threads| && tr[i].threads[t].pc.Idle?
    requires tr[i].threads[t].pc.res.PushOK?
    ensures var p := tr[i].threads[t].pc.res.pos; var q := tr[j].q;
            p < |q.log| && q.log[p].owner == t && Shown(q.log[p].phase) && !q.log[p].dead
  {
    RunInv(c, tr, i);
    RunExtends(c, tr, i, j);
    assert PcOk(c, tr[i].q, t, tr[i].threads[t].pc);
  }

  // ------------------------------------------------------------ truthful refusals

  lemma FullStep(c: Config, s: State, t: Tid, k: Choice)
    requires Sized(c, s.q) && t < |s.threads| && !s.threads[t].pc.Idle? && Step(c, s, t, k).threads[t].pc == Idle(PushFull)
    ensures s.threads[t].pc.ClaimSeq? && Slot(c.n, s.threads[t].pc.pos) < c.n && s.q.stamps[Slot(c.n, s.threads[t].pc.pos)].pos < s.threads[t].pc.pos
  {
    hide Slot;
  }

  /** Full: at the load of the sequence, the position one lap back was reserved and not yet released. */
  lemma FullIsTruthful(c: Config, tr: seq<State>, j: nat, t: Tid, k: Choice)
    requires Run(c, tr) && j < |tr| && t < |tr[j].threads| && !tr[j].threads[t].pc.Idle?
    requires Sized(c, tr[j].q) && Step(c, tr[j], t, k).threads[t].pc == Idle(PushFull)
    ensures tr[j].threads[t].pc.ClaimSeq?
    ensures var q := tr[j].q; var pos := tr[j].threads[t].pc.pos;
            pos >= c.n && pos - c.n < |q.log| && !q.log[pos - c.n].phase.Released?
  {
    RunInv(c, tr, j);
    FullStep(c, tr[j], t, k);
    hide Step;
    var q := tr[j].q;
    var pos := tr[j].threads[t].pc.pos;
    assert PcOk(c, q, t, tr[j].threads[t].pc);
    var i := Slot(c.n, pos);
    assert SlotOk(c, q, i);
    SameSlot(c.n, pos, q.turn[i]);
    assert EntryOk(c, q, pos - c.n);
    assert Slot(c.n, pos - c.n) == i;
    hide Inv;
  }

  /** Empty: at the load of the sequence, pos was the head and was not published. */
  lemma EmptyIsTruthful(c: Config, tr: seq<State>, j: nat, t: Tid, k: Choice)
    requires Run(c, tr) && j < |tr| && t < |tr[j].threads| && !tr[j].threads[t].pc.Idle?
    requires Sized(c, tr[j].q) && Step(c, tr[j], t, k).threads[t].pc == Idle(PopEmpty)
    ensures tr[j].threads[t].pc.PopSeq?
    ensures tr[j].q.head == tr[j].threads[t].pc.pos && !HeadShown(c, tr[j].q)
  {
    RunInv(c, tr, j);
    assert PcOk(c, tr[j].q, t, tr[j].threads[t].pc);
    SeesUnpublished(c, tr[j], tr[j].threads[t].pc.pos);
  }

  // The position at the head has been published (an event or a tombstone).
  predicate HeadShown(c: Config, q: Shared) { q.head < |q.log| && q.log[q.head].phase.Public? }

  lemma SeesUnpublished(c: Config, s: State, pos: nat)
    requires Inv(c, s) && pos <= s.q.head && s.q.stamps[Slot(c.n, pos)].pos < pos + 1
    ensures pos == s.q.head && !HeadShown(c, s.q)
  {
    var i := Slot(c.n, pos);
    assert SlotOk(c, s.q, i);
    if pos < |s.q.log| { assert EntryOk(c, s.q, pos); }
  }

  /** The head's slot says published exactly when its position is. */
  lemma HeadStamp(c: Config, s: State)
    requires Inv(c, s)
    ensures s.q.stamps[Slot(c.n, s.q.head)].pos == s.q.head + 1 <==> HeadShown(c, s.q)
  {
    var q := s.q;
    var i := Slot(c.n, q.head);
    assert SlotOk(c, q, i);
    NextSlot(c.n, q.head);
    if q.head < |q.log| { assert EntryOk(c, q, q.head); }
  }

  /** A compare-and-swap that succeeds finds its earlier look at the slot still true. */
  lemma ClaimedSlotIsFree(c: Config, tr: seq<State>, j: nat, t: Tid)
    requires Run(c, tr) && j < |tr| && t < |tr[j].threads| && tr[j].threads[t].pc.ClaimCas?
    requires !tr[j].q.closed && tr[j].q.tail == tr[j].threads[t].pc.pos
    ensures var q := tr[j].q; var pos := q.tail;
            Sized(c, q) && q.stamps[Slot(c.n, pos)] == Stamp(pos, false) && pos == |q.log|
  {
    RunInv(c, tr, j);
    var q := tr[j].q;
    assert PcOk(c, q, t, tr[j].threads[t].pc);
    var i := Slot(c.n, q.tail);
    assert SlotOk(c, q, i);
    SameSlot(c.n, q.tail, q.turn[i]);
  }

  /** Never overwrites: what has been published is less than one lap past the head. */
  lemma PublishedWithinLap(c: Config, tr: seq<State>, j: nat, p: nat)
    requires Run(c, tr) && j < |tr| && p < |tr[j].q.log|
    requires !tr[j].q.log[p].phase.Reserved?
    ensures p < tr[j].q.head + c.n
  {
    RunInv(c, tr, j);
    assert EntryOk(c, tr[j].q, p);
    assert SlotOk(c, tr[j].q, Slot(c.n, p));
  }

  // ------------------------------------------------------------ how many pushes are accepted

  // In the step from s to s', thread t's push for position p returns ok.
  predicate Accepts(s: State, s': State, t: Tid, p: nat) {
    t < |s.threads| && t < |s'.threads| && s.threads[t].pc == Store(p) && s'.threads[t].pc == Idle(PushOK(p))
  }

  ghost predicate AcceptsAny(s: State, s': State) { exists t, p :: Accepts(s, s', t, p) }

  /** The positions of the pushes that return ok between two states of a run, in the order in which they do. */
  ghost function Accepted(tr: seq<State>, i: nat, j: nat): seq<nat>
    requires i <= j < |tr|
    decreases j
  {
    if i == j then []
    else if AcceptsAny(tr[j - 1], tr[j]) then
      var t, p :| Accepts(tr[j - 1], tr[j], t, p);
      Accepted(tr, i, j - 1) + [p]
    else Accepted(tr, i, j - 1)
  }

  lemma OnlyTheMoverAccepts(c: Config, s: State, t: Tid, k: Choice, u: Tid, p: nat)
    requires Sized(c, s.q) && t < |s.threads| && Accepts(s, Step(c, s, t, k), u, p)
    ensures u == t
  {
  }

  /** No step accepts more than one push, so that Accepted leaves none out. */
  lemma AcceptsOne(c: Config, s: State, s': State, t: Tid, p: nat, u: Tid, r: nat)
    requires Next(c, s, s') && Accepts(s, s', t, p) && Accepts(s, s', u, r)
    ensures t == u && p == r
  {
    if s' != s {
      var v: Tid, k: Choice :| v < |s.threads| && s' == Step(c, s, v, k);
      OnlyTheMoverAccepts(c, s, v, k, t, p);
      OnlyTheMoverAccepts(c, s, v, k, u, r);
      hide Step;
    }
  }

  // What is known of an accepted position, before the step and after it.
  lemma AcceptedIs(c: Config, tr: seq<State>, k: nat, t: Tid, p: nat)
    requires Run(c, tr) && k + 1 < |tr| && Accepts(tr[k], tr[k + 1], t, p)
    ensures tr[k].q.head <= p < tr[k].q.head + c.n
    ensures p < |tr[k].q.log| && Owed(tr[k].q.log[p].phase)
    ensures p < |tr[k + 1].q.log| && Shown(tr[k + 1].q.log[p].phase)
  {
    RunInv(c, tr, k);
    RunInv(c, tr, k + 1);
    assert PcOk(c, tr[k].q, t, tr[k].threads[t].pc) && PcOk(c, tr[k + 1].q, t, tr[k + 1].threads[t].pc);
    assert EntryOk(c, tr[k].q, p);
    PublishedWithinLap(c, tr, k, p);
  }

  lemma {:induction false} AcceptedShown(c: Config, tr: seq<State>, i: nat, j: nat)
    requires Run(c, tr) && i <= j < |tr|
    ensures forall a | 0 <= a < |Accepted(tr, i, j)| ::
              var p := Accepted(tr, i, j)[a];
              tr[i].q.head <= p < tr[j].q.head + c.n && p < |tr[j].q.log| && Shown(tr[j].q.log[p].phase)
    ensures forall a, b | 0 <= a < b < |Accepted(tr, i, j)| :: Accepted(tr, i, j)[a] != Accepted(tr, i, j)[b]
    decreases j
  {
    hide Run;
    if i < j {
      AcceptedShown(c, tr, i, j - 1);
      RunExtends(c, tr, i, j - 1);
      RunExtends(c, tr, j - 1, j);
      var before, after := Accepted(tr, i, j - 1), Accepted(tr, i, j);
      if AcceptsAny(tr[j - 1], tr[j]) {
        var p := after[|after| - 1];
        var t :| Accepts(tr[j - 1], tr[j], t, p);
        AcceptedIs(c, tr, j - 1, t, p);
      }
      forall a | 0 <= a < |before| ensures Shown(tr[j].q.log[before[a]].phase) {
        assert Settled(tr[j - 1].q.log[before[a]], tr[j].q.log[before[a]]);
      }
    }
  }

  /**
   * While the head stands still at most n pushes are accepted: distinct accepted
   * pushes have distinct positions, all of them among the n from the head on.
   */
  lemma NoMoreThanCapacity(c: Config, tr: seq<State>, i: nat, j: nat)
    requires Run(c, tr) && i <= j < |tr| && tr[i].q.head == tr[j].q.head
    ensures forall a, b | 0 <= a < b < |Accepted(tr, i, j)| :: Accepted(tr, i, j)[a] != Accepted(tr, i, j)[b]
    ensures forall a | 0 <= a < |Accepted(tr, i, j)| :: tr[i].q.head <= Accepted(tr, i, j)[a] < tr[i].q.head + c.n
    ensures |Accepted(tr, i, j)| <= c.n
  {
    AcceptedShown(c, tr, i, j);
    Pigeonhole(Accepted(tr, i, j), tr[i].q.head, c.n);
  }

  lemma {:induction false} Pigeonhole(ps: seq<nat>, lo: nat, n: nat)
    requires forall a | 0 <= a < |ps| :: lo <= ps[a] < lo + n
    requires forall a, b | 0 <= a < b < |ps| :: ps[a] != ps[b]
    ensures |ps| <= n
    decreases n
  {
    if ps == [] {
    } else {
      assert lo <= ps[0] < lo + n;
      if a :| 0 <= a < |ps| && ps[a] == lo + n - 1 {
        var rest := ps[..a] + ps[a + 1..];
        forall b | 0 <= b < |rest| ensures lo <= rest[b] < lo + (n - 1) { assert rest[b] == if b < a then ps[b] else ps[b + 1]; }
        Pigeonhole(rest, lo, n - 1);
      } else {
        Pigeonhole(ps, lo, n - 1);
      }
    }
  }
}

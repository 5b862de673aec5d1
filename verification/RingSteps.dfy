/** Every step of the ring keeps its invariant. */
module RingSteps {
  import opened Slots
  import opened Ring
  import opened RingInvariant

  // A step that changes one program counter and nothing else, between counters
  // that hold no position.
  lemma LocalStep(c: Config, s: State, t: Tid, pc: Pc)
    requires Inv(c, s) && t < |s.threads|
    requires !Holds(s.threads[t].pc) && !Holds(pc) && PcOk(c, s.q, t, pc)
    ensures Inv(c, To(s, t, s.q, pc))
  {
    var s' := To(s, t, s.q, pc);
    forall p | 0 <= p < |s.q.log| ensures Held(s'.q, s'.threads, p) { assert Held(s.q, s.threads, p); }
  }

  // q' differs from q at most in position pos, its slot, and one more delivery of pos.
  ghost predicate Touches(c: Config, q: Shared, q': Shared, pos: nat) {
    && Sized(c, q) && Sized(c, q') && pos < |q.log| == |q'.log|
    && q' == q.(stamps := q'.stamps, cells := q'.cells, turn := q'.turn, log := q'.log, delivered := q'.delivered)
    && q'.log == q.log[pos := q'.log[pos]]
    && q'.log[pos] == q.log[pos].(phase := q'.log[pos].phase, dead := q'.log[pos].dead, idx := q'.log[pos].idx)
    && (var j := Slot(c.n, pos);
        && q'.stamps == q.stamps[j := q'.stamps[j]]
        && q'.cells == q.cells[j := q'.cells[j]]
        && q'.turn == q.turn[j := q'.turn[j]])
  }

  // The phase of pos moves forward in its life.
  predicate Forward(e: Entry, e': Entry) {
    && (Owed(e.phase) ==> Owed(e'.phase) || e'.phase.Public?)
    && (Leaving(e.phase) ==> Popped(e'.phase))
    && (Owed(e.phase) || Leaving(e.phase))
    && (Leaving(e.phase) ==> e'.dead == e.dead)
    && Rank(e'.phase) <= Rank(e.phase)
  }

  lemma TouchSlots(c: Config, q: Shared, q': Shared, pos: nat)
    requires Touches(c, q, q', pos) && SlotsOk(c, q)
    requires SlotOk(c, q', Slot(c.n, pos))
    ensures SlotsOk(c, q')
  {
    forall i | 0 <= i < c.n && i != Slot(c.n, pos) ensures SlotOk(c, q', i) {
      assert SlotOk(c, q, i);
      assert q.turn[i] != pos;
    }
  }

  lemma TouchEntries(c: Config, q: Shared, q': Shared, pos: nat)
    requires Touches(c, q, q', pos) && EntriesOk(c, q)
    requires var j := Slot(c.n, pos); q'.turn[j] == q.turn[j] || (q.turn[j] == pos && q'.turn[j] == pos + c.n)
    requires EntryOk(c, q', pos)
    ensures EntriesOk(c, q')
  {
    forall p | 0 <= p < |q'.log| && p != pos ensures EntryOk(c, q', p) {
      assert EntryOk(c, q, p);
      if Slot(c.n, p) == Slot(c.n, pos) { SameSlot(c.n, p, pos); }
    }
  }

  // Another thread's facts survive a step of the thread that holds pos.
  lemma TouchOther(c: Config, q: Shared, q': Shared, pos: nat, u: Tid, pc: Pc)
    requires Touches(c, q, q', pos) && Forward(q.log[pos], q'.log[pos])
    requires q'.turn[Slot(c.n, pos)] >= q.turn[Slot(c.n, pos)]
    requires PcOk(c, q, u, pc)
    requires Owed(q.log[pos].phase) ==> u != q.log[pos].owner
    requires Leaving(q.log[pos].phase) ==> u != q.log[pos].taker
    ensures PcOk(c, q', u, pc)
  {
  }

  lemma TouchThreads(c: Config, s: State, t: Tid, q': Shared, pc': Pc, pos: nat)
    requires Inv(c, s) && t < |s.threads| && Touches(c, s.q, q', pos) && Forward(s.q.log[pos], q'.log[pos])
    requires Holds(s.threads[t].pc) && s.threads[t].pc.pos == pos
    requires q'.delivered == s.q.delivered
             || (s.threads[t].pc.Read? && exists d: Delivery :: d.to == t && q'.delivered == s.q.delivered + [d])
    requires q'.turn[Slot(c.n, pos)] >= s.q.turn[Slot(c.n, pos)]
    requires Held(q', To(s, t, q', pc').threads, pos) && PcOk(c, q', t, pc') && !pc'.Read?
    ensures ThreadsOk(c, To(s, t, q', pc'))
  {
    var s' := To(s, t, q', pc');
    assert PcOk(c, s.q, t, s.threads[t].pc);
    forall p | 0 <= p < |q'.log| && p != pos ensures Held(q', s'.threads, p) { assert Held(s.q, s.threads, p); }
    assert Held(s.q, s.threads, pos);
    forall u | 0 <= u < |s.threads| && u != t
      ensures PcOk(c, q', u, s'.threads[u].pc) && ReadsForward(q'.delivered, u, s'.threads[u].pc)
    {
      assert PcOk(c, s.q, u, s.threads[u].pc);
      TouchOther(c, s.q, q', pos, u, s.threads[u].pc);
    }
  }

  // Deliveries do not depend on the phases of positions that are still owed.
  lemma TouchDeliveries(c: Config, q: Shared, q': Shared, pos: nat)
    requires Touches(c, q, q', pos) && DeliveriesOk(q) && q'.delivered == q.delivered
    requires q'.log[pos].idx == q.log[pos].idx
    requires Owed(q.log[pos].phase) ==> pos >= q.head && (Owed(q'.log[pos].phase) || q'.log[pos].phase.Public?)
    requires !Owed(q.log[pos].phase) ==>
               q'.log[pos].dead == q.log[pos].dead && !q'.log[pos].phase.Claimed?
               && (q.log[pos].dead || q.log[pos].phase.Taken? || q.log[pos].phase.Cleared?)
    ensures DeliveriesOk(q')
  {
    forall k | 0 <= k < |q.delivered| ensures DeliveryOk(q', k) { assert DeliveryOk(q, k); }
    forall p | 0 <= p < |q.log| ensures Accounted(q', p) { assert Accounted(q, p); }
  }

  // The part of the invariant that thread t, which holds pos, needs for its own step.
  ghost predicate Near(c: Config, s: State, t: Tid, pos: nat) {
    && Sized(c, s.q) && t < |s.threads| && pos < |s.q.log|
    && Holds(s.threads[t].pc) && s.threads[t].pc.pos == pos
    && PcOk(c, s.q, t, s.threads[t].pc)
    && EntryOk(c, s.q, pos) && SlotOk(c, s.q, Slot(c.n, pos)) && Held(s.q, s.threads, pos)
    && s.q.head <= |s.q.log|
    && (!s.q.closed ==> |s.q.log| == s.q.tail)
  }

  // The step leaves pos, its slot and its thread in order and touches nothing else.
  ghost predicate GoodTouch(c: Config, s: State, t: Tid, q': Shared, pc': Pc, pos: nat)
    requires t < |s.threads|
  {
    && Touches(c, s.q, q', pos) && Forward(s.q.log[pos], q'.log[pos])
    && (var j := Slot(c.n, pos); q'.turn[j] == s.q.turn[j] || (s.q.turn[j] == pos && q'.turn[j] == pos + c.n))
    && SlotOk(c, q', Slot(c.n, pos)) && EntryOk(c, q', pos)
    && Held(q', To(s, t, q', pc').threads, pos) && PcOk(c, q', t, pc') && !pc'.Read?
  }

  lemma NearOf(c: Config, s: State, t: Tid, pos: nat)
    requires Inv(c, s) && t < |s.threads| && Holds(s.threads[t].pc) && s.threads[t].pc.pos == pos
    ensures Near(c, s, t, pos)
  {
    assert PcOk(c, s.q, t, s.threads[t].pc);
    assert EntryOk(c, s.q, pos);
  }

  lemma TouchStep(c: Config, s: State, t: Tid, q': Shared, pc': Pc, pos: nat)
    requires Inv(c, s) && Near(c, s, t, pos) && GoodTouch(c, s, t, q', pc', pos)
    requires q'.delivered == s.q.delivered
             || (s.threads[t].pc.Read? && exists d: Delivery :: d.to == t && q'.delivered == s.q.delivered + [d])
    requires DeliveriesOk(q')
    ensures Inv(c, To(s, t, q', pc'))
  {
    TouchSlots(c, s.q, q', pos);
    TouchEntries(c, s.q, q', pos);
    TouchThreads(c, s, t, q', pc', pos);
  }

  // One lemma per program counter of a producer: its step is a good touch.
  lemma AwaitTouch(c: Config, s: State, t: Tid, k: Choice, pos: nat)
    requires Near(c, s, t, pos) && s.threads[t].pc.Await? && Step(c, s, t, k) != s
    ensures var s' := Step(c, s, t, k); GoodTouch(c, s, t, s'.q, s'.threads[t].pc, pos)
  {
    SameSlot(c.n, pos, s.q.turn[Slot(c.n, pos)]);
  }

  lemma WriteTouch(c: Config, s: State, t: Tid, k: Choice, pos: nat)
    requires Near(c, s, t, pos) && s.threads[t].pc.Write?
    ensures var s' := Step(c, s, t, k); GoodTouch(c, s, t, s'.q, s'.threads[t].pc, pos)
  {
  }

  lemma FillTouch(c: Config, s: State, t: Tid, k: Choice, pos: nat)
    requires Near(c, s, t, pos) && s.threads[t].pc.Fill?
    ensures var s' := Step(c, s, t, k); GoodTouch(c, s, t, s'.q, s'.threads[t].pc, pos)
  {
  }

  lemma StoreTouch(c: Config, s: State, t: Tid, k: Choice, pos: nat)
    requires Near(c, s, t, pos) && s.threads[t].pc.Store?
    ensures var s' := Step(c, s, t, k); GoodTouch(c, s, t, s'.q, s'.threads[t].pc, pos)
  {
  }

  lemma TombWriteTouch(c: Config, s: State, t: Tid, k: Choice, pos: nat)
    requires Near(c, s, t, pos) && s.threads[t].pc.TombWrite?
    ensures var s' := Step(c, s, t, k); GoodTouch(c, s, t, s'.q, s'.threads[t].pc, pos)
  {
  }

  lemma TombStoreTouch(c: Config, s: State, t: Tid, k: Choice, pos: nat)
    requires Near(c, s, t, pos) && s.threads[t].pc.TombStore?
    ensures var s' := Step(c, s, t, k); GoodTouch(c, s, t, s'.q, s'.threads[t].pc, pos)
  {
  }

  lemma OwnerTouch(c: Config, s: State, t: Tid, k: Choice, pos: nat)
    requires Near(c, s, t, pos) && ProducerHolds(s.threads[t].pc) && Step(c, s, t, k) != s
    ensures var s' := Step(c, s, t, k); GoodTouch(c, s, t, s'.q, s'.threads[t].pc, pos)
  {
    match s.threads[t].pc
    case Await(_, _, _) => AwaitTouch(c, s, t, k, pos);
    case Write(_, _) => WriteTouch(c, s, t, k, pos);
    case Fill(_, _) => FillTouch(c, s, t, k, pos);
    case Store(_) => StoreTouch(c, s, t, k, pos);
    case TombWrite(_) => TombWriteTouch(c, s, t, k, pos);
    case TombStore(_, _) => TombStoreTouch(c, s, t, k, pos);
  }

  // The steps of a producer that holds position pos.
  lemma OwnerStep(c: Config, s: State, t: Tid, k: Choice)
    requires Inv(c, s) && t < |s.threads| && ProducerHolds(s.threads[t].pc)
    ensures Inv(c, Step(c, s, t, k))
  {
    var s' := Step(c, s, t, k);
    var pos := s.threads[t].pc.pos;
    NearOf(c, s, t, pos);
    hide Near, GoodTouch, DeliveriesOk;
    if s' != s {
      OwnerTouch(c, s, t, k, pos);
      TouchDeliveries(c, s.q, s'.q, pos);
      TouchStep(c, s, t, s'.q, s'.threads[t].pc, pos);
    }
  }

  lemma ReadTouch(c: Config, s: State, t: Tid, k: Choice, pos: nat)
    requires Near(c, s, t, pos) && s.threads[t].pc.Read?
    ensures var s' := Step(c, s, t, k); GoodTouch(c, s, t, s'.q, s'.threads[t].pc, pos)
  {
  }

  lemma ClearTouch(c: Config, s: State, t: Tid, k: Choice, pos: nat)
    requires Near(c, s, t, pos) && s.threads[t].pc.Clear?
    ensures var s' := Step(c, s, t, k); GoodTouch(c, s, t, s'.q, s'.threads[t].pc, pos)
  {
  }

  lemma ReleaseTouch(c: Config, s: State, t: Tid, k: Choice, pos: nat)
    requires Near(c, s, t, pos) && s.threads[t].pc.Release?
    requires pos + c.n < |s.q.log| ==> EntryOk(c, s.q, pos + c.n)
    ensures var s' := Step(c, s, t, k); GoodTouch(c, s, t, s'.q, s'.threads[t].pc, pos)
  {
    assert Slot(c.n, pos + c.n) == Slot(c.n, pos);
  }

  lemma TakerTouch(c: Config, s: State, t: Tid, k: Choice, pos: nat)
    requires Near(c, s, t, pos) && ConsumerHolds(s.threads[t].pc)
    requires pos + c.n < |s.q.log| ==> EntryOk(c, s.q, pos + c.n)
    ensures var s' := Step(c, s, t, k); GoodTouch(c, s, t, s'.q, s'.threads[t].pc, pos)
  {
    match s.threads[t].pc
    case Read(_) => ReadTouch(c, s, t, k, pos);
    case Clear(_, _) => ClearTouch(c, s, t, k, pos);
    case Release(_, _) => ReleaseTouch(c, s, t, k, pos);
  }

  // The steps of a consumer that holds position pos.
  lemma TakerStep(c: Config, s: State, t: Tid, k: Choice)
    requires Inv(c, s) && t < |s.threads| && ConsumerHolds(s.threads[t].pc)
    ensures Inv(c, Step(c, s, t, k))
  {
    var s' := Step(c, s, t, k);
    var pos := s.threads[t].pc.pos;
    NearOf(c, s, t, pos);
    hide Near, GoodTouch, DeliveriesOk, CellOk, SlotOk;
    TakerTouch(c, s, t, k, pos);
    if s.threads[t].pc.Read? { ReadDeliveries(c, s, t, pos); } else { TouchDeliveries(c, s.q, s'.q, pos); }
    TouchStep(c, s, t, s'.q, s'.threads[t].pc, pos);
  }

  // The read appends one delivery.
  lemma ReadDeliveries(c: Config, s: State, t: Tid, pos: nat)
    requires Near(c, s, t, pos) && s.threads[t].pc.Read? && DeliveriesOk(s.q)
    requires ReadsForward(s.q.delivered, t, s.threads[t].pc)
    ensures var q' := Step(c, s, t, Go).q;
            DeliveriesOk(q') && exists d: Delivery :: d.to == t && q'.delivered == s.q.delivered + [d]
  {
    var q' := Step(c, s, t, Go).q;
    var d := Delivery(t, pos, s.q.log[pos].v);
    assert q'.delivered == s.q.delivered + [d];
    forall i | 0 <= i < |q'.delivered| ensures DeliveryOk(q', i) {
      if i < |s.q.delivered| { assert DeliveryOk(s.q, i); }
    }
    forall p | 0 <= p < |s.q.log| ensures Accounted(q', p) { assert Accounted(s.q, p); }
  }

  // The head passes a published position.
  lemma ClaimSlots(c: Config, s: State, t: Tid)
    requires SlotsOk(c, s.q) && EntriesOk(c, s.q)
    requires t < |s.threads| && s.threads[t].pc.PopCas? && s.q.head == s.threads[t].pc.pos
    requires PcOk(c, s.q, t, s.threads[t].pc)
    ensures SlotsOk(c, Step(c, s, t, Go).q)
  {
    var q, q' := s.q, Step(c, s, t, Go).q;
    var pos := q.head;
    assert EntryOk(c, q, pos);
    assert SlotOk(c, q, Slot(c.n, pos));
    forall i | 0 <= i < c.n ensures SlotOk(c, q', i) {
      assert SlotOk(c, q, i);
      assert Slot(c.n, q.turn[i] + c.n) == i;
    }
  }

  lemma ClaimEntries(c: Config, s: State, t: Tid)
    requires EntriesOk(c, s.q)
    requires t < |s.threads| && s.threads[t].pc.PopCas? && s.q.head == s.threads[t].pc.pos
    requires PcOk(c, s.q, t, s.threads[t].pc)
    ensures EntriesOk(c, Step(c, s, t, Go).q)
  {
    var q, q' := s.q, Step(c, s, t, Go).q;
    assert EntryOk(c, q, q.head);
    forall p | 0 <= p < |q.log| ensures EntryOk(c, q', p) { assert EntryOk(c, q, p); }
  }

  lemma ClaimDeliveries(c: Config, s: State, t: Tid)
    requires EntriesOk(c, s.q) && DeliveriesOk(s.q)
    requires t < |s.threads| && s.threads[t].pc.PopCas? && s.q.head == s.threads[t].pc.pos
    requires PcOk(c, s.q, t, s.threads[t].pc)
    ensures DeliveriesOk(Step(c, s, t, Go).q)
  {
    var q, q' := s.q, Step(c, s, t, Go).q;
    assert EntryOk(c, q, q.head);
    forall d | 0 <= d < |q.delivered| ensures DeliveryOk(q', d) { assert DeliveryOk(q, d); }
    forall p | 0 <= p < |q.log| ensures Accounted(q', p) { assert Accounted(q, p); }
  }

  lemma ClaimHeld(c: Config, s: State, t: Tid)
    requires ThreadsOk(c, s) && t < |s.threads|
    requires s.threads[t].pc.PopCas? && s.q.head == s.threads[t].pc.pos
    requires s.q.head < |s.q.log| && EntryOk(c, s.q, s.q.head)
    ensures var s' := Step(c, s, t, Go); forall p | 0 <= p < |s'.q.log| :: Held(s'.q, s'.threads, p)
  {
    var s' := Step(c, s, t, Go);
    assert PcOk(c, s.q, t, s.threads[t].pc);
    forall p | 0 <= p < |s.q.log| ensures Held(s'.q, s'.threads, p) { assert Held(s.q, s.threads, p); }
  }

  lemma ClaimThreads(c: Config, s: State, t: Tid)
    requires ThreadsOk(c, s) && t < |s.threads| && DeliveriesOk(s.q)
    requires s.threads[t].pc.PopCas? && s.q.head == s.threads[t].pc.pos
    requires s.q.head < |s.q.log| && EntryOk(c, s.q, s.q.head)
    ensures ThreadsOk(c, Step(c, s, t, Go))
  {
    var s' := Step(c, s, t, Go);
    var pos := s.q.head;
    ClaimHeld(c, s, t);
    assert PcOk(c, s.q, t, s.threads[t].pc);
    forall u | 0 <= u < |s.threads|
      ensures PcOk(c, s'.q, u, s'.threads[u].pc) && ReadsForward(s'.q.delivered, u, s'.threads[u].pc)
    {
      assert PcOk(c, s.q, u, s.threads[u].pc);
      if u == t {
        forall k | 0 <= k < |s.q.delivered| ensures s.q.delivered[k].pos < pos { assert DeliveryOk(s.q, k); }
      }
    }
  }

  lemma ClaimStep(c: Config, s: State, t: Tid)
    requires Inv(c, s) && t < |s.threads|
    requires s.threads[t].pc.PopCas? && s.q.head == s.threads[t].pc.pos
    ensures Inv(c, Step(c, s, t, Go))
  {
    assert PcOk(c, s.q, t, s.threads[t].pc);
    ClaimSlots(c, s, t);
    ClaimEntries(c, s, t);
    ClaimDeliveries(c, s, t);
    ClaimThreads(c, s, t);
  }

  // t may take the tail position as its own in phase ph.
  ghost predicate Reservable(c: Config, q: Shared, kind: Kind, doomed: bool, ph: Phase)
    requires Sized(c, q)
  {
    && |q.log| == q.tail
    && (doomed <==> q.closed) && (q.closed ==> c.rule.CppRule?)
    && (doomed ==> ph.Reserved?)
    && (ph.Reserved? || (ph.Ready? && q.turn[Slot(c.n, q.tail)] >= q.tail))
    && (ph.Reserved? ==> kind.Plain?)
  }

  lemma AppendShared(c: Config, q: Shared, e: Entry)
    requires SlotsOk(c, q) && EntriesOk(c, q) && DeliveriesOk(q) && Closing(c, q)
    requires Reservable(c, q, e.kind, e.doomed, e.phase) && !e.dead
    ensures var q' := Append(q, e); SlotsOk(c, q') && EntriesOk(c, q') && DeliveriesOk(q')
  {
    var q' := Append(q, e);
    var j := Slot(c.n, q.tail);
    assert SlotOk(c, q, j);
    SameSlot(c.n, q.tail, q.turn[j]);
    forall i | 0 <= i < c.n ensures SlotOk(c, q', i) { assert SlotOk(c, q, i); }
    forall p | 0 <= p < |q'.log| ensures EntryOk(c, q', p) {
      if p < |q.log| { assert EntryOk(c, q, p); assert q'.log[p] == q.log[p]; }
    }
    forall k | 0 <= k < |q.delivered| ensures DeliveryOk(q', k) { assert DeliveryOk(q, k); }
    forall p | 0 <= p < |q'.log| ensures Accounted(q', p) { if p < |q.log| { assert Accounted(q, p); } }
  }

  lemma AppendThreads(c: Config, s: State, t: Tid, v: Value, kind: Kind, doomed: bool, ph: Phase, pc: Pc)
    requires ThreadsOk(c, s) && t < |s.threads| && !Holds(s.threads[t].pc)
    requires Reservable(c, s.q, kind, doomed, ph) && Closing(c, s.q)
    requires ProducerHolds(pc) && pc.pos == s.q.tail
             && OwnerAt(Entry(t, 0, v, kind, doomed, ph, false, 0, 0), s.q.tail, pc)
    ensures ThreadsOk(c, Reserve(s, t, v, kind, doomed, ph, pc))
  {
    var s' := Reserve(s, t, v, kind, doomed, ph, pc);
    assert PcOk(c, s.q, t, s.threads[t].pc);
    forall p | 0 <= p < |s'.q.log| ensures Held(s'.q, s'.threads, p) {
      if p < |s.q.log| { assert Held(s.q, s.threads, p); }
    }
    forall u | 0 <= u < |s.threads|
      ensures PcOk(c, s'.q, u, s'.threads[u].pc) && ReadsForward(s'.q.delivered, u, s'.threads[u].pc)
    {
      assert PcOk(c, s.q, u, s.threads[u].pc);
    }
  }

  lemma AppendIssued(s: State, t: Tid, v: Value, kind: Kind, doomed: bool, ph: Phase, pc: Pc)
    requires t < |s.threads| && Issued(s.q.log) && forall p | 0 <= p < |s.q.log| :: Held(s.q, s.threads, p)
    ensures Issued(Reserve(s, t, v, kind, doomed, ph, pc).q.log)
  {
    var log := Reserve(s, t, v, kind, doomed, ph, pc).q.log;
    forall p, r | 0 <= p < r < |log| && log[p].owner == log[r].owner ensures log[p].n < log[r].n {
      assert Held(s.q, s.threads, p);
    }
  }

  lemma ReserveStep(c: Config, s: State, t: Tid, v: Value, kind: Kind, doomed: bool, ph: Phase, pc: Pc)
    requires Inv(c, s) && t < |s.threads| && !Holds(s.threads[t].pc)
    requires Reservable(c, s.q, kind, doomed, ph)
    requires ProducerHolds(pc) && pc.pos == s.q.tail
             && OwnerAt(Entry(t, 0, v, kind, doomed, ph, false, 0, 0), s.q.tail, pc)
    ensures Inv(c, Reserve(s, t, v, kind, doomed, ph, pc))
  {
    AppendShared(c, s.q, Entry(t, s.threads[t].issued, v, kind, doomed, ph, false, 0, 0));
    AppendThreads(c, s, t, v, kind, doomed, ph, pc);
    AppendIssued(s, t, v, kind, doomed, ph, pc);
  }

  // A step that changes only the tail word or the close position.
  lemma WordStep(c: Config, s: State, t: Tid, k: Choice)
    requires Inv(c, s) && t < |s.threads|
    requires var pc := s.threads[t].pc;
             pc.CloseOr? || pc.CloseStore? || (pc.TicketAdd? && s.q.closed && c.rule.GoRule?)
    ensures Inv(c, Step(c, s, t, k))
  {
    var s' := Step(c, s, t, k);
    WordThreads(c, s, t, k);
    assert PcOk(c, s.q, t, s.threads[t].pc);
    forall i | 0 <= i < c.n ensures SlotOk(c, s'.q, i) { assert SlotOk(c, s.q, i); }
    forall p | 0 <= p < |s.q.log| ensures EntryOk(c, s'.q, p) { assert EntryOk(c, s.q, p); }
    forall d | 0 <= d < |s'.q.delivered| ensures DeliveryOk(s'.q, d) { assert DeliveryOk(s.q, d); }
    forall p | 0 <= p < |s.q.log| ensures Accounted(s'.q, p) { assert Accounted(s.q, p); }
  }

  lemma WordThreads(c: Config, s: State, t: Tid, k: Choice)
    requires ThreadsOk(c, s) && Closing(c, s.q) && t < |s.threads|
    requires var pc := s.threads[t].pc;
             pc.CloseOr? || pc.CloseStore? || (pc.TicketAdd? && s.q.closed && c.rule.GoRule?)
    ensures ThreadsOk(c, Step(c, s, t, k))
  {
    var s' := Step(c, s, t, k);
    assert PcOk(c, s.q, t, s.threads[t].pc);
    forall p | 0 <= p < |s.q.log| ensures Held(s'.q, s'.threads, p) { assert Held(s.q, s.threads, p); }
    forall u | 0 <= u < |s.threads|
      ensures PcOk(c, s'.q, u, s'.threads[u].pc) && ReadsForward(s'.q.delivered, u, s'.threads[u].pc)
    {
      assert PcOk(c, s.q, u, s.threads[u].pc);
    }
  }

  // Loads, failed swaps and returns.
  predicate Looks(q: Shared, pc: Pc) {
    && !Holds(pc) && !pc.CloseOr? && !pc.CloseStore? && !pc.TicketAdd?
    && !(pc.ClaimCas? && !q.closed && q.tail == pc.pos)
    && !(pc.PopCas? && q.head == pc.pos)
  }

  // A look moves its thread to a counter it may rely on and changes nothing else.
  ghost predicate Looked(c: Config, s: State, t: Tid, s': State)
    requires Sized(c, s.q) && t < |s.threads|
  {
    s' == s || exists pc :: !Holds(pc) && PcOk(c, s.q, t, pc) && s' == To(s, t, s.q, pc)
  }

  lemma LookClaimSeq(c: Config, s: State, t: Tid, k: Choice)
    requires Sized(c, s.q) && t < |s.threads| && s.threads[t].pc.ClaimSeq? && PcOk(c, s.q, t, s.threads[t].pc)
    requires SlotOk(c, s.q, Slot(c.n, s.threads[t].pc.pos))
    ensures Looked(c, s, t, Step(c, s, t, k))
  {
    NextSlot(c.n, s.q.turn[Slot(c.n, s.threads[t].pc.pos)]);
  }

  lemma LookPopSeq(c: Config, s: State, t: Tid, k: Choice)
    requires Sized(c, s.q) && t < |s.threads| && s.threads[t].pc.PopSeq? && PcOk(c, s.q, t, s.threads[t].pc)
    requires SlotOk(c, s.q, Slot(c.n, s.threads[t].pc.pos))
    ensures Looked(c, s, t, Step(c, s, t, k))
  {
    PopSeqSees(c, s.q, s.threads[t].pc.pos);
  }

  // The looks of a push, of the others, and the starts and ends of calls.
  predicate PushLooks(pc: Pc) { pc.ClaimLoad? || pc.ClaimCas? || pc.TicketCheck? || pc.Idle? }

  lemma LookPush(c: Config, s: State, t: Tid, k: Choice)
    requires Sized(c, s.q) && Closing(c, s.q) && t < |s.threads| && Looks(s.q, s.threads[t].pc)
    requires PcOk(c, s.q, t, s.threads[t].pc) && PushLooks(s.threads[t].pc)
    ensures Looked(c, s, t, Step(c, s, t, k))
  {
  }

  lemma LookRest(c: Config, s: State, t: Tid, k: Choice)
    requires Sized(c, s.q) && Closing(c, s.q) && t < |s.threads| && Looks(s.q, s.threads[t].pc)
    requires PcOk(c, s.q, t, s.threads[t].pc) && !s.threads[t].pc.ClaimSeq? && !s.threads[t].pc.PopSeq? && !PushLooks(s.threads[t].pc)
    ensures Looked(c, s, t, Step(c, s, t, k))
  {
  }

  lemma LookStep(c: Config, s: State, t: Tid, k: Choice)
    requires Inv(c, s) && t < |s.threads| && Looks(s.q, s.threads[t].pc)
    ensures Inv(c, Step(c, s, t, k))
  {
    var s' := Step(c, s, t, k);
    assert PcOk(c, s.q, t, s.threads[t].pc);
    if s.threads[t].pc.ClaimSeq? { LookClaimSeq(c, s, t, k); }
    else if s.threads[t].pc.PopSeq? { LookPopSeq(c, s, t, k); }
    else if PushLooks(s.threads[t].pc) { LookPush(c, s, t, k); }
    else { LookRest(c, s, t, k); }
    if s' != s {
      var pc :| !Holds(pc) && PcOk(c, s.q, t, pc) && s' == To(s, t, s.q, pc);
      LocalStep(c, s, t, pc);
    }
  }

  // A consumer that loads pos + 1 from the slot of pos sees pos published.
  lemma PopSeqSees(c: Config, q: Shared, pos: nat)
    requires Sized(c, q) && SlotOk(c, q, Slot(c.n, pos))
    ensures q.stamps[Slot(c.n, pos)].pos == pos + 1 ==>
              pos < |q.log| && Shown(q.log[pos].phase) && q.stamps[Slot(c.n, pos)].dead == q.log[pos].dead
  {
    NextSlot(c.n, pos);
  }

  /** Every step of every thread keeps the invariant. */
  lemma StepInv(c: Config, s: State, t: Tid, k: Choice)
    requires Inv(c, s) && t < |s.threads|
    ensures Inv(c, Step(c, s, t, k))
  {
    var pc := s.threads[t].pc;
    assert PcOk(c, s.q, t, pc);
    if ProducerHolds(pc) {
      OwnerStep(c, s, t, k);
    } else if ConsumerHolds(pc) {
      TakerStep(c, s, t, k);
    } else if pc.PopCas? && s.q.head == pc.pos {
      ClaimStep(c, s, t);
    } else if pc.ClaimCas? && !s.q.closed && s.q.tail == pc.pos {
      ReserveStep(c, s, t, pc.v, pc.kind, false, Ready, if pc.kind.Plain? then Write(pc.pos, pc.v) else Fill(pc.pos, pc.v));
    } else if pc.TicketAdd? && !(s.q.closed && c.rule.GoRule?) {
      ReserveStep(c, s, t, pc.v, Plain, s.q.closed, Reserved, Await(s.q.tail, pc.v, s.q.closed));
    } else if pc.CloseOr? || pc.CloseStore? || pc.TicketAdd? {
      WordStep(c, s, t, k);
    } else {
      LookStep(c, s, t, k);
    }
  }

  lemma NextInv(c: Config, s: State, s': State)
    requires Inv(c, s) && Next(c, s, s')
    ensures Inv(c, s')
  {
    if s' != s {
      var t: Tid, k: Choice :| t < |s.threads| && s' == Step(c, s, t, k);
      StepInv(c, s, t, k);
    }
  }

  /** The invariant holds in every state of every run. */
  lemma {:induction false} RunInv(c: Config, tr: seq<State>, j: nat)
    requires Run(c, tr) && j < |tr|
    ensures Inv(c, tr[j])
  {
    if j == 0 {
      InitInv(c, tr[0]);
    } else {
      RunInv(c, tr, j - 1);
      assert NextAt(c, tr, j - 1);
      NextInv(c, tr[j - 1], tr[j]);
    }
  }
}

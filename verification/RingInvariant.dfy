/** The invariant of the ring, indexed by slot, by reserved position and by program counter. */
module RingInvariant {
  import opened Slots
  import opened Ring

  // The phases in which a position is its producer's, and its consumer's.
  predicate Owed(ph: Phase) { ph.Reserved? || ph.Ready? || ph.Written? || ph.Tomb? }
  predicate Leaving(ph: Phase) { ph.Claimed? || ph.Taken? || ph.Cleared? }
  predicate Popped(ph: Phase) { Leaving(ph) || ph.Released? }
  predicate Shown(ph: Phase) { ph.Public? || Popped(ph) }

  predicate ProducerHolds(pc: Pc) {
    pc.Await? || pc.Write? || pc.Fill? || pc.Store? || pc.TombWrite? || pc.TombStore?
  }

  predicate ConsumerHolds(pc: Pc) { pc.Read? || pc.Clear? || pc.Release? }

  predicate Holds(pc: Pc) { ProducerHolds(pc) || ConsumerHolds(pc) }

  // How far a position still has to go.
  function Rank(ph: Phase): nat {
    match ph
    case Reserved => 8
    case Ready => 7
    case Written => 6
    case Tomb => 6
    case Public => 5
    case Claimed => 4
    case Taken => 3
    case Cleared => 2
    case Released => 0
  }

  // The program counter of the producer of a position p in phase e.phase.
  predicate OwnerAt(e: Entry, p: nat, pc: Pc) {
    match e.phase
    case Reserved => pc == Await(p, e.v, e.doomed)
    case Ready => if e.kind.Plain? then pc == Write(p, e.v) else pc == Fill(p, e.v) || pc == TombWrite(p)
    case Written => pc == Store(p)
    case Tomb => pc == TombStore(p, e.doomed)
    case _ => true
  }

  // The program counter of the consumer of a position p in phase e.phase.
  predicate TakerAt(e: Entry, p: nat, pc: Pc) {
    match e.phase
    case Claimed => pc == Read(p)
    case Taken => pc == Clear(p, Obj(e.v))
    case Cleared => pc == Release(p, if e.dead then Raw else Obj(e.v))
    case _ => true
  }

  // What the closed bit, the tail and the recorded close position say about the log.
  predicate Closing(c: Config, q: Shared) {
    && q.head <= |q.log| <= q.tail
    && (!q.closed ==> |q.log| == q.tail && q.closedAt == 0)
    && (q.closed ==> q.limit <= |q.log|)
    && (q.closed && c.rule.GoRule? ==> |q.log| == q.limit && q.closedAt in {0, q.limit + 1})
    && (c.rule.CppRule? ==> |q.log| == q.tail)
  }

  // What the payload of slot i holds, by the phase of the position it is at.
  predicate CellOk(c: Config, q: Shared, i: nat)
    requires Sized(c, q) && i < c.n
  {
    var x := q.cells[i];
    if q.turn[i] >= |q.log| then c.retain || x.Raw?
    else
      var e := q.log[q.turn[i]];
      match e.phase
      case Ready => c.retain || e.kind.Func? || x.Raw?
      case Written => x == Obj(e.v)
      case Public => if e.dead then c.retain || x.Raw? else x == Obj(e.v)
      case Claimed => x == Obj(e.v)
      case Taken => x == Obj(e.v)
      case _ => c.retain || x.Raw?
  }

  predicate SlotOk(c: Config, q: Shared, i: nat)
    requires Sized(c, q) && i < c.n
  {
    var at, stamp := q.turn[i], q.stamps[i];
    && Slot(c.n, at) == i
    && at < q.head + c.n
    && q.head <= at + c.n
    && (|| (stamp == Stamp(at, false) && q.head <= at && (at < |q.log| ==> Owed(q.log[at].phase)))
        || (stamp.pos == at + 1 && at < |q.log| && stamp.dead == q.log[at].dead
            && (q.log[at].phase.Public? || Leaving(q.log[at].phase))))
    && CellOk(c, q, i)
  }

  predicate EntryOk(c: Config, q: Shared, p: nat)
    requires Sized(c, q) && p < |q.log|
  {
    var e, at := q.log[p], q.turn[Slot(c.n, p)];
    && (p < q.head <==> Popped(e.phase))
    && (e.phase.Released? <==> at > p)
    && (!e.phase.Reserved? && !e.phase.Released? ==> at == p)
    && (Owed(e.phase) ==> !e.dead)
    && (e.phase.Claimed? || e.phase.Taken? ==> !e.dead)
    && (e.phase.Reserved? ==> e.kind.Plain?)
    && (e.doomed ==> e.kind.Plain? && (e.dead || e.phase.Reserved? || e.phase.Tomb?))
    && (e.doomed <==> q.closed && p >= q.limit)
  }

  // A position that is somebody's is held: its owner, or its taker, is where its phase says.
  predicate Held(q: Shared, threads: seq<Thread>, p: nat)
    requires p < |q.log|
  {
    var e := q.log[p];
    && e.owner < |threads| && e.n < threads[e.owner].issued
    && OwnerAt(e, p, threads[e.owner].pc)
    && (Popped(e.phase) ==> e.taker < |threads| && TakerAt(e, p, threads[e.taker].pc))
  }

  // What thread t may rely on at program counter pc.
  predicate PcOk(c: Config, q: Shared, t: Tid, pc: Pc)
    requires Sized(c, q)
  {
    && (ProducerHolds(pc) ==>
          pc.pos < |q.log| && q.log[pc.pos].owner == t && Owed(q.log[pc.pos].phase) && OwnerAt(q.log[pc.pos], pc.pos, pc))
    && (ConsumerHolds(pc) ==>
          pc.pos < |q.log| && q.log[pc.pos].taker == t && Leaving(q.log[pc.pos].phase) && TakerAt(q.log[pc.pos], pc.pos, pc))
    && LookOk(c, q, pc)
    && (pc.Idle? ==> ResultOk(q, t, pc.res))
  }

  // What remains true of values that were loaded earlier.
  predicate LookOk(c: Config, q: Shared, pc: Pc)
    requires Sized(c, q)
  {
    match pc
    case ClaimSeq(_, _, pos) => pos <= |q.log|
    case ClaimCas(_, _, pos) => pos <= |q.log| && q.turn[Slot(c.n, pos)] >= pos
    case PopSeq(pos) => pos <= q.head
    case PeekSeq(pos) => pos <= q.head
    case PopCas(pos, dead) => pos <= q.head && pos < |q.log| && Shown(q.log[pos].phase) && q.log[pos].dead == dead
    case CloseStore(end) => q.closed && c.rule.GoRule? && end == q.limit
    case DrainEnd => q.closed && c.rule.GoRule?
    case DrainHead(end) => q.closed && q.limit <= end && (c.rule.GoRule? ==> end == q.limit)
    case _ => true
  }

  // What the result of a finished operation says.
  predicate ResultOk(q: Shared, t: Tid, res: Result) {
    match res
    case PushOK(p) => p < |q.log| && q.log[p].owner == t && Shown(q.log[p].phase) && !q.log[p].dead
    case PushPanicked(p) => p < |q.log| && q.log[p].owner == t && Shown(q.log[p].phase) && q.log[p].dead
    case PopOK(p, v) => p < |q.log| && q.log[p].taker == t && q.log[p].phase.Released? && !q.log[p].dead && q.log[p].v == v
    case PushClosed => q.closed
    case Drained => q.closed && q.limit <= q.head
    case _ => true
  }

  // Every delivery is of a live claimed position, by the thread that claimed it,
  // with the value its producer supplied, and is that position's only one.
  predicate DeliveryOk(q: Shared, k: nat)
    requires k < |q.delivered|
  {
    var d := q.delivered[k];
    && d.pos < |q.log| && d.pos < q.head
    && q.log[d.pos].idx == k && q.log[d.pos].taker == d.to && q.log[d.pos].v == d.v && !q.log[d.pos].dead
    && !q.log[d.pos].phase.Claimed?
  }

  // A live position whose value has been read has been delivered.
  predicate Accounted(q: Shared, p: nat)
    requires p < |q.log|
  {
    var e := q.log[p];
    !e.dead && (e.phase.Taken? || e.phase.Cleared? || e.phase.Released?)
    ==> e.idx < |q.delivered| && q.delivered[e.idx].pos == p
  }

  predicate Ascending(ds: seq<Delivery>) {
    forall j, k | 0 <= j < k < |ds| && ds[j].to == ds[k].to :: ds[j].pos < ds[k].pos
  }

  // Thread t at Read(pos) has delivered only positions below pos.
  predicate ReadsForward(ds: seq<Delivery>, t: Tid, pc: Pc) {
    pc.Read? ==> forall k | 0 <= k < |ds| && ds[k].to == t :: ds[k].pos < pc.pos
  }

  predicate Issued(log: seq<Entry>) {
    forall p, q | 0 <= p < q < |log| && log[p].owner == log[q].owner :: log[p].n < log[q].n
  }

  ghost predicate SlotsOk(c: Config, q: Shared) {
    Sized(c, q) && forall i | 0 <= i < c.n :: SlotOk(c, q, i)
  }

  ghost predicate EntriesOk(c: Config, q: Shared) {
    Sized(c, q) && forall p | 0 <= p < |q.log| :: EntryOk(c, q, p)
  }

  ghost predicate DeliveriesOk(q: Shared) {
    && (forall k | 0 <= k < |q.delivered| :: DeliveryOk(q, k))
    && (forall p | 0 <= p < |q.log| :: Accounted(q, p))
    && Ascending(q.delivered)
  }

  ghost predicate ThreadsOk(c: Config, s: State) {
    && Sized(c, s.q)
    && (forall p | 0 <= p < |s.q.log| :: Held(s.q, s.threads, p))
    && (forall t | 0 <= t < |s.threads| ::
          PcOk(c, s.q, t, s.threads[t].pc) && ReadsForward(s.q.delivered, t, s.threads[t].pc))
  }

  ghost predicate Inv(c: Config, s: State) {
    && SlotsOk(c, s.q)
    && Closing(c, s.q)
    && EntriesOk(c, s.q)
    && DeliveriesOk(s.q)
    && Issued(s.q.log)
    && ThreadsOk(c, s)
  }

  lemma InitInv(c: Config, s: State)
    requires Init(c, s)
    ensures Inv(c, s)
  {
  }
}

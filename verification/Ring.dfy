/**
 * The turnstile ring as an interleaving transition system: one atomic access per
 * step, any number of threads, each of which may run any operation at any time.
 *
 * The fields of Shared above the line are what the source has. Those below it are
 * history: Step writes them and never reads them to decide anything.
 */
module Ring {
  import opened Slots

  type Tid = nat
  type Value = int

  // The two tracks differ in what a ticket taken after the close does (Go refuses
  // it, C++ pays its slot with a tombstone) and in where a drained queue ends.
  datatype Rule = GoRule | CppRule

  // retain is Go's option to leave a consumed value in its slot.
  datatype Config = Config(n: nat, rule: Rule, retain: bool)

  // A slot's sequence word without the dead bit, and the dead bit.
  datatype Stamp = Stamp(pos: nat, dead: bool)

  // A slot's payload: raw storage (Go: the zero value), or an object.
  datatype Cell = Raw | Obj(v: Value)

  datatype Kind = Plain | Func

  datatype Call =
    | TryPush(v: Value, kind: Kind)   // Func is TryPushFunc
    | PushTicket(v: Value)            // from the closed pre-check on
    | TakeTicket(v: Value)            // from the Add on
    | TryPop
    | Drain                           // Pop's look at the tail, the close position and the head
    | Peek                            // headPublished
    | Close

  datatype Result =
    | Nothing
    | PushOK(pos: nat)
    | PushFull
    | PushClosed
    | PushPanicked(pos: nat)
    | PopOK(pos: nat, v: Value)
    | PopEmpty
    | Drained
    | Open                            // not closed
    | NotDrained                      // closed, and not drained yet
    | Published
    | Unpublished
    | CloseDone

  datatype Pc =
    | Idle(res: Result)
    // claim
    | ClaimLoad(v: Value, kind: Kind)
    | ClaimSeq(v: Value, kind: Kind, pos: nat)
    | ClaimCas(v: Value, kind: Kind, pos: nat)
    // Push with a ticket
    | TicketCheck(v: Value)
    | TicketAdd(v: Value)
    | Await(pos: nat, v: Value, doomed: bool)
    // the window
    | Write(pos: nat, v: Value)
    | Fill(pos: nat, v: Value)
    | Store(pos: nat)
    | TombWrite(pos: nat)
    | TombStore(pos: nat, doomed: bool)
    // TryPop
    | PopLoad
    | PopSeq(pos: nat)
    | PopCas(pos: nat, dead: bool)
    | Read(pos: nat)
    | Clear(pos: nat, got: Cell)
    | Release(pos: nat, got: Cell)
    // Close
    | CloseOr
    | CloseStore(end: nat)
    // Pop's drained test and headPublished
    | DrainTail
    | DrainEnd
    | DrainHead(end: nat)
    | PeekHead
    | PeekSeq(pos: nat)

  // What a step may decide: which operation an idle thread starts, and how a
  // caller's fill behaves.
  datatype Choice = Start(call: Call) | Go | Scribble(v: Value) | Panic

  // ------------------------------------------------------------- history

  // The life of one reserved position.
  datatype Phase =
    | Reserved    // a ticket waiting for its slot
    | Ready       // the slot is the producer's, the payload is not complete
    | Written     // payload complete, publication store pending
    | Tomb        // tombstone store pending
    | Public      // the publication store has happened
    | Claimed     // a consumer has moved the head past it
    | Taken       // its value has been read
    | Cleared     // its cell is raw again (or retained); release pending
    | Released    // the slot belongs to the next lap

  // idx: where this position's delivery is. n: how many positions its producer
  // had reserved before it.
  datatype Entry = Entry(owner: Tid, n: nat, v: Value, kind: Kind, doomed: bool,
                         phase: Phase, dead: bool, taker: Tid, idx: nat)

  datatype Delivery = Delivery(to: Tid, pos: nat, v: Value)

  datatype Thread = Thread(pc: Pc, issued: nat)

  datatype Shared = Shared(
    tail: nat, closed: bool,        // one word: (tail << 1) | closed
    head: nat,
    closedAt: nat,
    stamps: seq<Stamp>,
    cells: seq<Cell>,
    // ---- history
    turn: seq<nat>,                 // the position each slot is at
    log: seq<Entry>,                // every position somebody is owed, in order
    limit: nat,                     // where the log stood when the bit was set
    delivered: seq<Delivery>)       // every value read, in the order of the reads

  datatype State = State(q: Shared, threads: seq<Thread>)

  // Thread t leaves the shared fields as q and goes to pc.
  function To(s: State, t: Tid, q: Shared, pc: Pc): State
    requires t < |s.threads|
  {
    State(q, s.threads[t := s.threads[t].(pc := pc)])
  }

  function First(call: Call): Pc {
    match call
    case TryPush(v, kind) => ClaimLoad(v, kind)
    case PushTicket(v) => TicketCheck(v)
    case TakeTicket(v) => TicketAdd(v)
    case TryPop => PopLoad
    case Drain => DrainTail
    case Peek => PeekHead
    case Close => CloseOr
  }

  ghost predicate Init(c: Config, s: State) {
    && c.n >= 2
    && s.q == Shared(0, false, 0, 0, seq(c.n, (i: nat) => Stamp(i, false)), seq(c.n, (i: nat) => Raw),
                     seq(c.n, (i: nat) => i), [], 0, [])
    && (forall t | 0 <= t < |s.threads| :: s.threads[t] == Thread(Idle(Nothing), 0))
  }

  predicate Sized(c: Config, q: Shared) {
    c.n >= 2 && |q.stamps| == |q.cells| == |q.turn| == c.n
  }

  function Mark(q: Shared, pos: nat, ph: Phase): Shared {
    if pos < |q.log| then q.(log := q.log[pos := q.log[pos].(phase := ph)]) else q
  }

  function Bury(q: Shared, pos: nat): Shared {
    if pos < |q.log| then q.(log := q.log[pos := q.log[pos].(phase := Public, dead := true)]) else q
  }

  function Claim(q: Shared, t: Tid, pos: nat, ph: Phase): Shared {
    q.(head := pos + 1,
    log := if pos < |q.log| then q.log[pos := q.log[pos].(phase := ph, taker := t)] else q.log)
  }

  function Deliver(q: Shared, t: Tid, pos: nat, v: Value): Shared {
    q.(delivered := q.delivered + [Delivery(t, pos, v)],
    log := if pos < |q.log| then q.log[pos := q.log[pos].(phase := Taken, idx := |q.delivered|)] else q.log)
  }

  // The tail moves on and the position it left is t's.
  function Append(q: Shared, e: Entry): Shared {
    q.(tail := q.tail + 1, log := q.log + [e])
  }

  function Reserve(s: State, t: Tid, v: Value, kind: Kind, doomed: bool, ph: Phase, pc: Pc): State
    requires t < |s.threads|
  {
    var th := s.threads[t];
    State(Append(s.q, Entry(t, th.issued, v, kind, doomed, ph, false, 0, 0)),
          s.threads[t := Thread(pc, th.issued + 1)])
  }

  /** One atomic step of thread t. A choice that does not apply leaves the state as it is. */
  function Step(c: Config, s: State, t: Tid, k: Choice): State
    requires Sized(c, s.q) && t < |s.threads|
  {
    var q := s.q;
    match s.threads[t].pc
    case Idle(_) => if k.Start? then To(s, t, q, First(k.call)) else s
    case ClaimLoad(v, kind) =>
      To(s, t, q, if q.closed then Idle(PushClosed) else ClaimSeq(v, kind, q.tail))
    case ClaimSeq(v, kind, pos) =>
      var seen := q.stamps[Slot(c.n, pos)].pos;
      To(s, t, q,
         if seen == pos then ClaimCas(v, kind, pos)
         else if seen < pos then Idle(PushFull)
         else ClaimLoad(v, kind))
    case ClaimCas(v, kind, pos) =>
      if !q.closed && q.tail == pos then
        Reserve(s, t, v, kind, false, Ready, if kind.Plain? then Write(pos, v) else Fill(pos, v))
      else To(s, t, q, ClaimLoad(v, kind))
    case TicketCheck(v) => To(s, t, q, if q.closed then Idle(PushClosed) else TicketAdd(v))
    case TicketAdd(v) =>
      if q.closed && c.rule.GoRule? then To(s, t, q.(tail := q.tail + 1), Idle(PushClosed))
      else Reserve(s, t, v, Plain, q.closed, Reserved, Await(q.tail, v, q.closed))
    case Await(pos, v, doomed) =>
      if q.stamps[Slot(c.n, pos)] == Stamp(pos, false) then
        if doomed then To(s, t, Mark(q, pos, Tomb), TombStore(pos, true))
        else To(s, t, Mark(q, pos, Ready), Write(pos, v))
      else s
    case Write(pos, v) =>
      To(s, t, Mark(q, pos, Written).(cells := q.cells[Slot(c.n, pos) := Obj(v)]), Store(pos))
    case Fill(pos, v) =>
      (match k
       case Scribble(x) => To(s, t, q.(cells := q.cells[Slot(c.n, pos) := Obj(x)]), Fill(pos, v))
       case Panic => To(s, t, q, TombWrite(pos))
       case _ => To(s, t, Mark(q, pos, Written).(cells := q.cells[Slot(c.n, pos) := Obj(v)]), Store(pos)))
    case Store(pos) =>
      To(s, t, Mark(q, pos, Public).(stamps := q.stamps[Slot(c.n, pos) := Stamp(pos + 1, false)]), Idle(PushOK(pos)))
    case TombWrite(pos) =>
      To(s, t, Mark(q, pos, Tomb).(cells := q.cells[Slot(c.n, pos) := Raw]), TombStore(pos, false))
    case TombStore(pos, doomed) =>
      To(s, t, Bury(q, pos).(stamps := q.stamps[Slot(c.n, pos) := Stamp(pos + 1, true)]),
         Idle(if doomed then PushClosed else PushPanicked(pos)))
    case PopLoad => To(s, t, q, PopSeq(q.head))
    case PopSeq(pos) =>
      var seen := q.stamps[Slot(c.n, pos)];
      To(s, t, q,
         if seen.pos == pos + 1 then PopCas(pos, seen.dead)
         else if seen.pos < pos + 1 then Idle(PopEmpty)
         else PopLoad)
    case PopCas(pos, dead) =>
      if q.head == pos then
        To(s, t, Claim(q, t, pos, if dead then Cleared else Claimed), if dead then Release(pos, Raw) else Read(pos))
      else To(s, t, q, PopLoad)
    case Read(pos) =>
      var got := q.cells[Slot(c.n, pos)];
      To(s, t, if got.Obj? then Deliver(q, t, pos, got.v) else q, Clear(pos, got))
    case Clear(pos, got) =>
      To(s, t, Mark(q, pos, Cleared).(cells := if c.retain then q.cells else q.cells[Slot(c.n, pos) := Raw]),
         Release(pos, got))
    case Release(pos, got) =>
      var i := Slot(c.n, pos);
      To(s, t, Mark(q, pos, Released).(stamps := q.stamps[i := Stamp(pos + c.n, false)], turn := q.turn[i := pos + c.n]),
         if got.Obj? then Idle(PopOK(pos, got.v)) else PopSeq(pos + 1))
    case CloseOr =>
      if q.closed then To(s, t, q, Idle(CloseDone))
      else To(s, t, q.(closed := true, limit := |q.log|), if c.rule.GoRule? then CloseStore(q.tail) else Idle(CloseDone))
    case CloseStore(end) => To(s, t, q.(closedAt := end + 1), Idle(CloseDone))
    case DrainTail =>
      To(s, t, q, if !q.closed then Idle(Open) else if c.rule.GoRule? then DrainEnd else DrainHead(q.tail))
    case DrainEnd => To(s, t, q, if q.closedAt == 0 then Idle(NotDrained) else DrainHead(q.closedAt - 1))
    case DrainHead(end) => To(s, t, q, Idle(if q.head == end then Drained else NotDrained))
    case PeekHead => To(s, t, q, PeekSeq(q.head))
    case PeekSeq(pos) =>
      To(s, t, q, Idle(if q.stamps[Slot(c.n, pos)].pos == pos + 1 then Published else Unpublished))
  }

  ghost predicate Next(c: Config, s: State, s': State) {
    Sized(c, s.q) && (s' == s || exists t: Tid, k: Choice | t < |s.threads| :: s' == Step(c, s, t, k))
  }

  ghost predicate NextAt(c: Config, tr: seq<State>, j: nat)
    requires j + 1 < |tr|
  {
    Next(c, tr[j], tr[j + 1])
  }

  /** tr is a run: it starts in an initial state and every state steps to the next. */
  ghost predicate Run(c: Config, tr: seq<State>) {
    && |tr| > 0 && Init(c, tr[0])
    && forall j | 0 <= j < |tr| - 1 :: NextAt(c, tr, j)
  }
}

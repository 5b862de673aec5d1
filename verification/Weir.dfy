/**
 * The weir pipeline as an interleaving transition system: any number of producer
 * threads, the consumer, and the goroutine that stops it, one atomic access per
 * step: the write of a ring's cell and the store of its tail are two steps, and
 * so is each cell that the consumer copies. Each handle has one pusher, which does
 * not push after it closes the handle.
 */
module Weir {
  import Slots
  import opened Streams

  type Tid = nat
  type Value = int

  // n: MaxProducers. cap: RingCapacity. batch: DrainBatch. stage: StageEvents.
  // bitmap: the scan policy. cond: the C++ twin, whose consumer sleeps on a
  // condition variable under a mutex instead of a channel that keeps one token.
  datatype Config = Config(n: nat, cap: nat, batch: nat, stage: nat, bitmap: bool, cond: bool)

  predicate Sane(c: Config) { c.n > 0 && c.cap > 0 && c.batch > 0 && c.stage > 0 }

  datatype Lifetime = Free | Active | Retiring

  // gen tells one owner of a slot from the next.
  datatype Event = Event(gen: nat, v: Value)

  // cells: the ring's storage. log, owner, gen, stop and missed are history:
  // everything published on the slot, the thread whose handle it is, how many
  // handles there have been, the tail when the pipeline stopped running, and
  // whether a reclaiming scan has found the retired ring non-empty.
  datatype Slot = Slot(state: Lifetime, cells: seq<Event>, tail: nat, head: nat, cachedHead: nat, cachedTail: nat,
                       pushed: nat, dropped: nat, log: seq<Event>, owner: Tid, gen: nat, stop: nat, missed: bool)

  datatype Reason = AfterPush | AfterRetire

  // What a handle's latest call returned: the handle itself, or Push's true or false.
  datatype Reply = Registered | Pushed | Refused

  // A producer thread.
  datatype Ppc =
    | Out                                  // holds no handle
    | RegTry(i: nat)                       // RegisterProducer: compare-and-swap slot i
    | RegPushed(i: nat) | RegDropped(i: nat)
    | Ready(i: nat, last: Reply)           // holds the handle of slot i, in no call
    | PushAccept(i: nat, v: Value)
    | PushLook(i: nat, v: Value)           // compare the tail with the cached head
    | PushHead(i: nat, v: Value)           // refresh the cached head
    | PushWrite(i: nat, v: Value)          // write the cell
    | PushStore(i: nat, v: Value)          // publish the tail
    | PushCount(i: nat)
    | PushDrop(i: nat)
    | SigLoad(i: nat, why: Reason)
    | SigOr(i: nat, why: Reason)
    | SigParked(i: nat, why: Reason)
    | SigNotify(i: nat, why: Reason)
    | RetState(i: nat) | RetPending(i: nat) | RetWake(i: nat)

  // Why the consumer drains: its main loop, the scan before parking, the last passes.
  datatype Purpose = Main | PrePark | Final(pass: nat)

  datatype Cpc =
    | Loop                                                  // load running
    | ScanActive                                            // load the bitmap
    | Scan(full: bool, why: Purpose, todo: seq<nat>, total: nat)
    | Room(full: bool, why: Purpose, todo: seq<nat>, total: nat, got: nat)     // drainRing, flushing a full stage
    | PopTail(full: bool, why: Purpose, todo: seq<nat>, total: nat, got: nat)  // PopBatch up to the copy
    | PopCopy(full: bool, why: Purpose, todo: seq<nat>, total: nat, got: nat, n: nat, batch: seq<Event>)   // one cell of n
    | PopHead(full: bool, why: Purpose, todo: seq<nat>, total: nat, got: nat, batch: seq<Event>)
    | Flush(full: bool, why: Purpose, total: nat)
    | SwapPending
    | RecState(last: bool, i: nat) | RecEmpty(last: bool, i: nat)
    | RecPushed(last: bool, i: nat) | RecAddPushed(last: bool, i: nat, x: nat)
    | RecDropped(last: bool, i: nat) | RecAddDropped(last: bool, i: nat, x: nat)
    | RecClear(last: bool, i: nat) | RecFree(last: bool, i: nat)
    | Idle                                                  // spin, yield, or go on to sleep
    | ClrLoad
    | ClrEmpty(m: seq<nat>) | ClrAnd(m: seq<nat>) | ClrAgain(m: seq<nat>) | ClrState(m: seq<nat>) | ClrOr(m: seq<nat>)
    | ParkSet | ParkActive | ParkRunning | Select | ParkReset
    | LastFlush
    | Done

  datatype Spc = Running | StopAccepting | Draining | StopRunning | StopWake | Stopped

  datatype Choice =
    | Register | Push(v: Value) | CloseHandle | StopCall   // what an idle thread calls
    | Retry                                                // SpinThenDrop: look again
    | Sleepy                                               // the idle budget is spent
    | Timeout
    | Proceed

  // An event tagged with its slot.
  type Out = Tagged<Event>

  // rotate: where the next pass starts.
  datatype World = World(
    slots: seq<Slot>, active: set<nat>, accepting: bool, running: bool, parked: bool, retirePending: bool, token: bool,
    retiredPushed: nat, retiredDropped: nat,
    threads: seq<Ppc>, cpc: Cpc, spc: Spc, rotate: nat,
    staged: seq<Out>, sink: seq<Out>,
    // ---- history: publications, and pushes refused by a full ring
    published: nat, refused: nat)

  function Blank(c: Config): Slot {
    Slot(Free, seq(c.cap, (i: nat) => Event(0, 0)), 0, 0, 0, 0, 0, 0, [], 0, 0, 0, false)
  }

  function Init(c: Config, threads: nat): World {
    World(seq(c.n, (i: nat) => Blank(c)), {}, true, true, false, false, false, 0, 0,
          seq(threads, (i: nat) => Ppc.Out), Loop, Running, 0, [], [], 0, 0)
  }

  // ------------------------------------------------------------ producers

  function Signal(c: Config, i: nat, why: Reason): Ppc {
    if c.bitmap then SigLoad(i, why) else AfterSignal(i, why)
  }

  function AfterSignal(i: nat, why: Reason): Ppc { if why.AfterPush? then Ready(i, Pushed) else RetWake(i) }

  predicate TouchesSlot(pc: Ppc) {
    pc.RegTry? || pc.RegPushed? || pc.RegDropped? || pc.PushLook? || pc.PushHead? || pc.PushWrite? || pc.PushStore?
    || pc.PushCount? || pc.PushDrop? || pc.RetState?
  }

  // What thread t, at pc, does to its slot s.
  function Produce(t: Tid, pc: Ppc, s: Slot): Slot {
    match pc
    case RegTry(_) => if s.state.Free? then s.(state := Active, owner := t, gen := s.gen + 1) else s
    case RegPushed(_) => s.(pushed := 0)
    case RegDropped(_) => s.(dropped := 0)
    case PushHead(_, _) => s.(cachedHead := s.head)
    case PushWrite(_, v) => if s.cells == [] then s else s.(cells := s.cells[Slots.Slot(|s.cells|, s.tail) := Event(s.gen, v)])
    case PushStore(_, v) => s.(tail := s.tail + 1, log := s.log + [Event(s.gen, v)])
    case PushCount(_) => s.(pushed := s.pushed + 1)
    case PushDrop(_) => s.(dropped := s.dropped + 1)
    case RetState(_) => s.(state := Retiring)
    case _ => s
  }

  // Where it goes from there.
  function SlotPc(c: Config, pc: Ppc, s: Slot, k: Choice): Ppc {
    match pc
    case RegTry(i) => if s.state.Free? then RegPushed(i) else RegTry(i + 1)
    case RegPushed(i) => RegDropped(i)
    case RegDropped(i) => Ready(i, Registered)
    case PushLook(i, v) => if s.tail == s.cachedHead + c.cap then PushHead(i, v) else PushWrite(i, v)
    case PushHead(i, v) =>
      if s.tail == s.head + c.cap then (if k.Retry? then PushLook(i, v) else PushDrop(i)) else PushWrite(i, v)
    case PushWrite(i, v) => PushStore(i, v)
    case PushStore(i, v) => PushCount(i)
    case PushCount(i) => Signal(c, i, AfterPush)
    case PushDrop(i) => Ready(i, Refused)
    case RetState(i) => RetPending(i)
    case _ => pc
  }

  // The C++ consumer holds the park mutex: whoever would notify it waits.
  predicate Locked(c: Config, pc: Cpc) { c.cond && (pc.ParkActive? || pc.ParkRunning? || pc.ParkReset?) }

  // A notification is kept: always by the channel, by the condition variable only
  // for a consumer that waits.
  predicate Heard(c: Config, pc: Cpc) { c.cond ==> pc.Select? }

  // Where a thread goes whose step is on a shared word.
  function WordPc(c: Config, w: World, pc: Ppc, k: Choice): Ppc {
    match pc
    case Out => if k.Register? then RegTry(0) else pc
    case Ready(i, _) =>
      (match k
       case Push(v) => PushAccept(i, v)
       case CloseHandle => RetState(i)
       case _ => pc)
    case PushAccept(i, v) => if w.accepting then PushLook(i, v) else Ready(i, Refused)
    case SigLoad(i, why) => if i in w.active then AfterSignal(i, why) else SigOr(i, why)
    case SigOr(i, why) => if w.active == {} then SigParked(i, why) else AfterSignal(i, why)
    case SigParked(i, why) => if w.parked then SigNotify(i, why) else AfterSignal(i, why)
    case SigNotify(i, why) => if Locked(c, w.cpc) then pc else AfterSignal(i, why)
    case RetPending(i) => Signal(c, i, AfterRetire)
    case RetWake(i) => if Locked(c, w.cpc) then pc else Ppc.Out
    case _ => pc
  }

  predicate AtSlot(w: World, pc: Ppc) { TouchesSlot(pc) && pc.i < |w.slots| }

  function ProducerPc(c: Config, w: World, pc: Ppc, k: Choice): Ppc {
    if AtSlot(w, pc) then SlotPc(c, pc, w.slots[pc.i], k)
    else if TouchesSlot(pc) then Ppc.Out              // the registry is full
    else WordPc(c, w, pc, k)
  }

  function ProducerStep(c: Config, w: World, t: Tid, k: Choice): World
    requires t < |w.threads|
  {
    var pc := w.threads[t];
    w.(threads := w.threads[t := ProducerPc(c, w, pc, k)],
       slots := if AtSlot(w, pc) then w.slots[pc.i := Produce(t, pc, w.slots[pc.i])] else w.slots,
       active := if pc.SigOr? then w.active + {pc.i} else w.active,
       token := w.token || ((pc.SigNotify? || pc.RetWake?) && Heard(c, w.cpc)),
       retirePending := w.retirePending || pc.RetPending?,
       published := if pc.PushStore? then w.published + 1 else w.published,
       refused := if pc.PushDrop? then w.refused + 1 else w.refused)
  }

  // ------------------------------------------------------------ consumer

  // The n slots from rotate on, wrapping.
  function Order(n: nat, rotate: nat): seq<nat> {
    seq(n, (k: nat) => if k + rotate < n then k + rotate else k + rotate - n)
  }

  function Among(order: seq<nat>, m: set<nat>): seq<nat> {
    if order == [] then [] else (if order[0] in m then [order[0]] else []) + Among(order[1..], m)
  }

  function Min(a: nat, b: nat): nat { if a < b then a else b }

  function Rotated(c: Config, rotate: nat): nat { if rotate + 1 < c.n then rotate + 1 else 0 }

  // The slot the consumer's next step is on; n when it is on none.
  function At(n: nat, pc: Cpc): nat {
    match pc
    case Scan(_, _, todo, _) => if todo == [] then n else todo[0]
    case PopTail(_, _, todo, _, _) => if todo == [] then n else todo[0]
    case PopCopy(_, _, todo, _, _, _, _) => if todo == [] then n else todo[0]
    case PopHead(_, _, todo, _, _, _) => if todo == [] then n else todo[0]
    case RecState(_, i) => i
    case RecEmpty(_, i) => i
    case RecPushed(_, i) => i
    case RecAddPushed(_, i, _) => i
    case RecDropped(_, i) => i
    case RecAddDropped(_, i, _) => i
    case RecClear(_, i) => i
    case RecFree(_, i) => i
    case ClrEmpty(m) => if m == [] then n else m[0]
    case ClrAgain(m) => if m == [] then n else m[0]
    case ClrState(m) => if m == [] then n else m[0]
    case _ => n
  }

  // EmptyNow refreshes the cached tail, PopBatch only when it has used it up.
  function Refreshed(s: Slot): Slot { s.(cachedTail := s.tail) }

  function Polled(s: Slot): Slot { if s.head == s.cachedTail then Refreshed(s) else s }

  // What the consumer, at pc, does to slot s.
  function Consume(pc: Cpc, s: Slot): Slot {
    match pc
    case PopTail(_, _, _, _, _) => Polled(s)
    case PopHead(_, _, _, _, _, batch) => s.(head := s.head + |batch|)
    case RecEmpty(_, _) => Refreshed(s).(missed := s.missed || s.head != s.tail)
    case RecPushed(_, _) => s.(pushed := 0)
    case RecDropped(_, _) => s.(dropped := 0)
    case RecFree(_, _) => s.(state := Free, missed := false)
    case ClrEmpty(_) => Refreshed(s)
    case ClrAgain(_) => Refreshed(s)
    case _ => s
  }

  // How many PopBatch copies out, given the room left in the stage and in the batch.
  function Count(s: Slot, room: nat): nat {
    var end := Polled(s).cachedTail;
    if s.head <= end then Min(end - s.head, room) else 0
  }

  // The cell of position p.
  function CellAt(s: Slot, p: nat): Event { if s.cells == [] then Event(0, 0) else s.cells[Slots.Slot(|s.cells|, p)] }

  // After a pass over the rings that drained total events.
  function AfterScan(c: Config, rotate: nat, why: Purpose, total: nat): Cpc {
    match why
    case Main => if total > 0 then Loop else SwapPending
    case PrePark => if total > 0 then Loop else ParkSet
    case Final(pass) =>
      if total > 0 then Scan(true, Final(pass), Order(c.n, Rotated(c, rotate)), 0)
      else if pass == 0 then Scan(true, Final(1), Order(c.n, 0), 0)
      else LastFlush
  }

  function RoomLeft(c: Config, staged: nat, got: nat): nat { Min(c.stage - Min(staged, c.stage), c.batch - Min(got, c.batch)) }

  // drainFull, drainBitmap, drainRing, PopBatch and flush, on slot s.
  function DrainPc(c: Config, pc: Cpc, s: Slot, staged: nat, rotate: nat): Cpc {
    match pc
    case Scan(full, why, todo, total) =>
      if todo == [] then (if total > 0 then Flush(full, why, total) else AfterScan(c, rotate, why, total))
      else if full && s.state.Free? then Scan(full, why, todo[1..], total)
      else Room(full, why, todo, total, 0)
    case Room(full, why, todo, total, got) =>
      if got < c.batch then PopTail(full, why, todo, total, got) else Scan(full, why, todo[Min(1, |todo|)..], total + got)
    case PopTail(full, why, todo, total, got) =>
      if s.head == Polled(s).cachedTail then Scan(full, why, todo[Min(1, |todo|)..], total + got)
      else PopCopy(full, why, todo, total, got, Count(s, RoomLeft(c, staged, got)), [])
    case PopCopy(full, why, todo, total, got, n, batch) =>
      var batch' := batch + [CellAt(s, s.head + |batch|)];
      if |batch'| < n then PopCopy(full, why, todo, total, got, n, batch') else PopHead(full, why, todo, total, got, batch')
    case PopHead(full, why, todo, total, got, batch) => Room(full, why, todo, total, got + |batch|)
    case Flush(full, why, total) => AfterScan(c, rotate, why, total)
    case _ => pc
  }

  // reclaimRetired. last: the one after the closing loops.
  function ReclaimPc(pc: Cpc, n: nat, s: Slot): Cpc {
    match pc
    case RecState(last, i) =>
      if i >= n then (if last then Done else Idle)
      else if s.state.Retiring? then RecEmpty(last, i)
      else RecState(last, i + 1)
    case RecEmpty(last, i) => if s.head == s.tail then RecPushed(last, i) else RecState(last, i + 1)
    case RecPushed(last, i) => RecAddPushed(last, i, s.pushed)
    case RecAddPushed(last, i, _) => RecDropped(last, i)
    case RecDropped(last, i) => RecAddDropped(last, i, s.dropped)
    case RecAddDropped(last, i, _) => RecClear(last, i)
    case RecClear(last, i) => RecFree(last, i)
    case RecFree(last, i) => RecState(last, i + 1)
    case _ => pc
  }

  // clearEmptyBits. m: the bits of the loaded word that are still to be looked at.
  function ClearPc(c: Config, pc: Cpc, s: Slot, active: set<nat>, rotate: nat): Cpc {
    match pc
    case ClrLoad => ClrEmpty(Among(Order(c.n, 0), active))
    case ClrEmpty(m) =>
      if m == [] then Scan(true, PrePark, Order(c.n, rotate), 0)
      else if s.head == s.tail then ClrAnd(m)
      else ClrEmpty(m[1..])
    case ClrAnd(m) => ClrAgain(m)
    case ClrAgain(m) => if s.head == s.tail then ClrState(m) else ClrOr(m)
    case ClrState(m) => if s.state.Retiring? then ClrOr(m) else ClrEmpty(m[Min(1, |m|)..])
    case ClrOr(m) => ClrEmpty(m[Min(1, |m|)..])
    case _ => pc
  }

  // park, and the rest of consume.
  function LoopPc(c: Config, w: World, k: Choice): Cpc {
    match w.cpc
    case Loop =>
      if !w.running then Scan(true, Final(0), Order(c.n, 0), 0)
      else if c.bitmap then ScanActive
      else Scan(true, Main, Order(c.n, w.rotate), 0)
    case ScanActive => Scan(false, Main, Among(Order(c.n, w.rotate), w.active), 0)
    case SwapPending => if w.retirePending then RecState(false, 0) else Idle
    case Idle => if !k.Sleepy? then Loop else if c.bitmap then ClrLoad else Scan(true, PrePark, Order(c.n, w.rotate), 0)
    case ParkSet => ParkActive
    case ParkActive => if w.active == {} then ParkRunning else ParkReset
    case ParkRunning => if w.running then Select else ParkReset
    case Select => if w.token || k.Timeout? then ParkReset else Select
    case ParkReset => Loop
    case LastFlush => RecState(true, 0)
    case _ => w.cpc
  }

  predicate Drains(pc: Cpc) { pc.Scan? || pc.Room? || pc.PopTail? || pc.PopCopy? || pc.PopHead? || pc.Flush? }

  predicate Reclaims(pc: Cpc) {
    pc.RecState? || pc.RecEmpty? || pc.RecPushed? || pc.RecAddPushed? || pc.RecDropped? || pc.RecAddDropped? || pc.RecClear? || pc.RecFree?
  }

  predicate Clears(pc: Cpc) { pc.ClrLoad? || pc.ClrEmpty? || pc.ClrAnd? || pc.ClrAgain? || pc.ClrState? || pc.ClrOr? }

  function ConsumerPc(c: Config, w: World, s: Slot, k: Choice): Cpc {
    if Drains(w.cpc) then DrainPc(c, w.cpc, s, |w.staged|, w.rotate)
    else if Reclaims(w.cpc) then ReclaimPc(w.cpc, c.n, s)
    else if Clears(w.cpc) then ClearPc(c, w.cpc, s, w.active, w.rotate)
    else LoopPc(c, w, k)
  }

  // The last step of a pass: no event drained, or all of them flushed.
  predicate EndsPass(pc: Cpc) { pc.Flush? || (pc.Scan? && pc.todo == [] && pc.total == 0) }

  function RotateAfter(c: Config, w: World): nat {
    if w.cpc.Loop? then (if w.running then w.rotate else 0)
    else if !EndsPass(w.cpc) || w.cpc.why.PrePark? then w.rotate
    else if w.cpc.why.Final? && w.cpc.total == 0 then 0
    else Rotated(c, w.rotate)
  }

  predicate Flushes(c: Config, w: World) {
    w.cpc.Flush? || w.cpc.LastFlush? || (w.cpc.Room? && w.cpc.got < c.batch && |w.staged| == c.stage)
  }

  function StagedAfter(c: Config, w: World): seq<Out> {
    if Flushes(c, w) then []
    else if w.cpc.PopHead? && w.cpc.todo != [] then w.staged + Tag(w.cpc.todo[0], w.cpc.batch)
    else w.staged
  }

  function ActiveAfter(pc: Cpc, active: set<nat>): set<nat> {
    match pc
    case RecClear(_, i) => active - {i}
    case ClrAnd(m) => if m == [] then active else active - {m[0]}
    case ClrOr(m) => if m == [] then active else active + {m[0]}
    case _ => active
  }

  function ConsumerStep(c: Config, w: World, k: Choice): World {
    var i := At(c.n, w.cpc);
    var s := if i < |w.slots| then w.slots[i] else Blank(c);
    w.(slots := if i < |w.slots| then w.slots[i := Consume(w.cpc, s)] else w.slots,
       active := ActiveAfter(w.cpc, w.active),
       parked := if w.cpc.ParkSet? then true else if w.cpc.ParkReset? then false else w.parked,
       retirePending := w.retirePending && !w.cpc.SwapPending?,
       token := w.token && (!w.cpc.Select? || (k.Timeout? && !c.cond)),     // a select with both ready takes either
       retiredPushed := w.retiredPushed + (if w.cpc.RecAddPushed? then w.cpc.x else 0),
       retiredDropped := w.retiredDropped + (if w.cpc.RecAddDropped? then w.cpc.x else 0),
       rotate := RotateAfter(c, w),
       staged := StagedAfter(c, w),
       sink := if Flushes(c, w) then w.sink + w.staged else w.sink,
       cpc := ConsumerPc(c, w, s, k))
  }

  // ------------------------------------------------------------ stop

  // The tail of each ring, as running becomes false.
  function Marked(slots: seq<Slot>): seq<Slot> {
    seq(|slots|, (i: nat) requires i < |slots| => slots[i].(stop := slots[i].tail))
  }

  // StopWithDeadline. The wait for the rings to empty may end at any time: by the
  // deadline, or because they looked empty; Abort does not wait.
  function StopPc(c: Config, w: World, k: Choice): Spc {
    match w.spc
    case Running => if k.StopCall? then StopAccepting else Running
    case StopAccepting => Draining
    case Draining => if k.Timeout? then StopRunning else Draining
    case StopRunning => StopWake
    case StopWake => if Locked(c, w.cpc) then StopWake else Stopped
    case Stopped => Stopped
  }

  function StopStep(c: Config, w: World, k: Choice): World {
    w.(spc := StopPc(c, w, k),
       accepting := w.accepting && !w.spc.StopAccepting?,
       running := w.running && !w.spc.StopRunning?,
       token := w.token || (((w.spc.Draining? && !k.Timeout?) || w.spc.StopWake?) && Heard(c, w.cpc)),
       slots := if w.spc.StopRunning? then Marked(w.slots) else w.slots)
  }

  datatype Actor = Producer(t: Tid) | Consumer | Stopper

  predicate Acts(w: World, a: Actor) { a.Producer? ==> a.t < |w.threads| }

  /** One atomic step of one actor. */
  function Step(c: Config, w: World, a: Actor, k: Choice): World
    requires Acts(w, a)
  {
    match a
    case Producer(t) => ProducerStep(c, w, t, k)
    case Consumer => ConsumerStep(c, w, k)
    case Stopper => StopStep(c, w, k)
  }

  ghost predicate Next(c: Config, w: World, w': World) {
    exists a: Actor, k: Choice | Acts(w, a) :: w' == Step(c, w, a, k)
  }

  ghost predicate NextAt(c: Config, tr: seq<World>, j: nat)
    requires j + 1 < |tr|
  {
    Next(c, tr[j], tr[j + 1])
  }

  /** A run from Start on. */
  ghost predicate Run(c: Config, threads: nat, tr: seq<World>) {
    && Sane(c) && |tr| > 0 && tr[0] == Init(c, threads)
    && forall j | 0 <= j < |tr| - 1 :: NextAt(c, tr, j)
  }
}

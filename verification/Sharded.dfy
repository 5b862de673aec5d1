/**
 * The sharded queue as an interleaving transition system: one ring per producer,
 * each consumer serving its own rings in rotation, and a close that sets the
 * rings' closed bits one at a time and then wakes the consumers. Each consumer
 * sleeps on an event count of its own. One atomic access per step; spins change
 * nothing.
 */
module Sharded {
  import opened Slots
  import opened Streams

  type Value = int

  // ring: N / P slots a ring. cons: consumers. owned: rings each.
  datatype Config = Config(ring: nat, cons: nat, owned: nat)

  predicate Sane(c: Config) { c.ring >= 2 && c.cons > 0 && c.owned > 0 }

  // The ring that consumer i tries as its k-th.
  function RingOf(c: Config, i: nat, k: nat): nat
    decreases k
  {
    if k == 0 then i else RingOf(c, i, k - 1) + c.cons
  }

  // tail and closed are one word. log is history: what has been published.
  datatype Ring = Ring(tail: nat, closed: bool, cachedHead: nat, head: nat, cachedTail: nat, slots: seq<Value>, log: seq<Value>)

  // How a push ended, and at which position.
  datatype Attempt = Attempt(pos: nat, v: Value, ok: bool)

  // What a push returned.
  datatype Reply = NoReply | Ok | Full | Closed

  datatype Ppc =
    | Free(last: Reply)
    | Load(v: Value)                    // the tail word
    | Check(pos: nat, v: Value)         // against the cached head, refreshed if it says full
    | Write(pos: nat, v: Value)         // the slot
    | Publish(pos: nat, v: Value)       // compare-and-swap the tail word
    // notify_one of the ring's consumer
    | LoadWaiters
    | LoadPending
    | SwapPending
    | Advance                           // epoch_ + 1
    | WakeOne

  datatype Producer = Producer(pc: Ppc, tries: seq<Attempt>)

  datatype Answer = Nothing | Got(ring: nat, v: Value) | Empty | TimedOut | Drained

  // Whether a look at the rings is try_pop's own, one of the two that pop's round
  // begins with, or pop's last one before it sleeps.
  datatype Site = Once | Within | Second | Recheck(key: nat)

  datatype Cpc =
    | Idle(last: Answer)
    | Try(site: Site, k: nat)                      // head against the cached tail
    | Refresh(site: Site, k: nat)
    | Read(site: Site, k: nat)                     // the slot
    | Release(site: Site, k: nat, v: Value)        // store head
    | AnyClosed(site: Site, k: nat)
    | AllDone(k: nat)
    // prepare_wait
    | LoadKey
    | Enlist(key: nat)                             // waiters_ + 1
    | Unpend(key: nat)                             // pending_ = false
    | Decide(key: nat)                             // park, or give up at the deadline
    // wait
    | Test(key: nat)
    | WaitOn(key: nat)                             // compare and block, as one step
    | Blocked(key: nat)
    | Delist                                       // waiters_ - 1
    | Absorb                                       // pending_ = false
    | Cancel(again: bool, last: Answer)            // cancel_wait; then pop loops, or returns

  datatype Consumer = Consumer(pc: Cpc, next: nat, got: seq<Tagged<Value>>)

  // The closer: next ring to close, next consumer to wake, or done (Shut).
  datatype Closer = Open | Closing(p: nat) | Rousing(i: nat) | Waking(i: nat) | Shut

  // A consumer's event count. asleep: the operating system has blocked it. bumped
  // is history: close has advanced the epoch.
  datatype Wait = Wait(waiters: nat, pending: bool, epoch: nat, asleep: bool, bumped: bool)

  datatype World = World(rings: seq<Ring>, prods: seq<Producer>, cons: seq<Consumer>, closer: Closer, waits: seq<Wait>)

  // Expire: a deadline, a timer or a spurious wake.
  datatype Choice = Push(v: Value) | TryPop | Pop | CloseCall | Expire | Proceed

  function Init(c: Config): World {
    World(seq(c.cons * c.owned, (p: nat) => Ring(0, false, 0, 0, 0, seq(c.ring, (i: nat) => 0), [])),
          seq(c.cons * c.owned, (p: nat) => Producer(Free(NoReply), [])),
          seq(c.cons, (i: nat) => Consumer(Idle(Nothing), 0, [])), Open,
          seq(c.cons, (i: nat) => Wait(0, false, 0, false, false)))
  }

  // ------------------------------------------------------------ producers

  // The consumer that ring p belongs to.
  function OwnerOf(c: Config, p: nat): nat
    requires Sane(c)
  {
    Slot(c.cons, p)
  }

  function ProducerPc(c: Config, pc: Ppc, r: Ring, e: Wait, k: Choice): Ppc {
    match pc
    case Free(_) => if k.Push? then Load(k.v) else pc
    case Load(v) => if r.closed then Free(Closed) else Check(r.tail, v)
    case Check(pos, v) =>
      if pos == r.cachedHead + c.ring && pos == r.head + c.ring then Free(Full)
      else Write(pos, v)
    case Write(pos, v) => Publish(pos, v)
    case Publish(pos, v) => if Wins(pc, r) then LoadWaiters else Free(Closed)
    case LoadWaiters => if e.waiters == 0 then Free(Ok) else LoadPending
    case LoadPending => if e.pending then Free(Ok) else SwapPending
    case SwapPending => if e.pending then Free(Ok) else Advance
    case Advance => WakeOne
    case WakeOne => Free(Ok)
  }

  // What a producer's step does to its consumer's event count.
  function Notify(pc: Ppc, e: Wait): Wait {
    match pc
    case SwapPending => e.(pending := true)
    case Advance => e.(epoch := e.epoch + 1)
    case WakeOne => e.(asleep := false)
    case _ => e
  }

  // The compare-and-swap expects the word of the load, which was open.
  predicate Wins(pc: Ppc, r: Ring) { pc.Publish? && !r.closed && r.tail == pc.pos }

  function Produce(c: Config, pc: Ppc, r: Ring): Ring
    requires Sane(c)
  {
    match pc
    case Check(pos, _) => if pos == r.cachedHead + c.ring then r.(cachedHead := r.head) else r
    case Write(pos, v) => if Slot(c.ring, pos) < |r.slots| then r.(slots := r.slots[Slot(c.ring, pos) := v]) else r
    case Publish(pos, v) => if Wins(pc, r) then r.(tail := r.tail + 1, log := r.log + [v]) else r
    case _ => r
  }

  const NoWait := Wait(0, false, 0, false, false)

  function Tries(pc: Ppc, r: Ring, tries: seq<Attempt>): seq<Attempt> {
    if pc.Publish? then tries + [Attempt(pc.pos, pc.v, Wins(pc, r))] else tries
  }

  function ProducerStep(c: Config, w: World, p: nat, k: Choice): World
    requires Sane(c) && p < |w.prods| && p < |w.rings|
  {
    var a, r, i := w.prods[p], w.rings[p], OwnerOf(c, p);
    var e := if i < |w.waits| then w.waits[i] else NoWait;
    w.(prods := w.prods[p := Producer(ProducerPc(c, a.pc, r, e, k), Tries(a.pc, r, a.tries))],
       rings := w.rings[p := Produce(c, a.pc, r)],
       waits := if i < |w.waits| then w.waits[i := Notify(a.pc, e)] else w.waits)
  }

  // ------------------------------------------------------------ consumers

  function Wrapped(c: Config, k: nat): nat { if k < c.owned then k else k - c.owned }

  // The k-th of its rings, starting after the one it last took from.
  function Turn(c: Config, next: nat, k: nat): nat { Wrapped(c, next + k) }

  // The ring a consumer's next step is on.
  predicate Looks(pc: Cpc) { pc.Try? || pc.Refresh? || pc.Read? || pc.Release? || pc.AnyClosed? || pc.AllDone? }

  function At(c: Config, i: nat, a: Consumer): nat {
    if !Looks(a.pc) then 0
    else RingOf(c, i, if a.pc.AnyClosed? || a.pc.AllDone? then a.pc.k else Turn(c, a.next, a.pc.k))
  }

  predicate OnRing(c: Config, pc: Cpc) { Looks(pc) && pc.k < c.owned }

  // Where a consumer goes that looks at a ring.
  function LookPc(c: Config, i: nat, a: Consumer, r: Ring, k: Choice): Cpc
    requires Sane(c) && Looks(a.pc)
  {
    match a.pc
    case Try(site, j) =>
      if j >= c.owned then (if site.Once? then Idle(Empty) else if site.Within? then Try(Second, 0) else AnyClosed(site, 0))
      else if r.head == r.cachedTail then Refresh(site, j)
      else Read(site, j)
    case Refresh(site, j) => if r.head == r.tail then Try(site, j + 1) else Read(site, j)
    case Read(site, j) => Release(site, j, if Slot(c.ring, r.head) < |r.slots| then r.slots[Slot(c.ring, r.head)] else 0)
    case Release(site, j, v) =>
      var got := Got(RingOf(c, i, Turn(c, a.next, j)), v);
      if site.Recheck? then Cancel(false, got) else Idle(got)
    case AnyClosed(site, j) =>
      if j >= c.owned then (if site.Recheck? then Decide(site.key) else LoadKey)
      else if r.closed then (if site.Recheck? then Cancel(true, Nothing) else AllDone(0))
      else AnyClosed(site, j + 1)
    case AllDone(j) =>
      if j >= c.owned then Idle(Drained)
      else if r.closed && r.head == r.tail then AllDone(j + 1)
      else if k.Expire? then Idle(TimedOut)
      else Try(Within, 0)
  }

  // And one that is about to sleep, sleeps or wakes.
  function WaitPc(pc: Cpc, e: Wait, k: Choice): Cpc {
    match pc
    case Idle(_) => if k.TryPop? then Try(Once, 0) else if k.Pop? then Try(Within, 0) else pc
    case LoadKey => Enlist(e.epoch)
    case Enlist(key) => Unpend(key)
    case Unpend(key) => Try(Recheck(key), 0)
    case Decide(key) => if k.Expire? then Cancel(false, TimedOut) else Test(key)
    case Test(key) => if e.epoch != key || k.Expire? then Delist else WaitOn(key)
    case WaitOn(key) => if e.epoch == key then Blocked(key) else Test(key)
    case Blocked(key) => if e.asleep && !k.Expire? then pc else Test(key)
    case Delist => Absorb
    case Absorb => Try(Within, 0)
    case Cancel(again, last) => if again then Try(Within, 0) else Idle(last)
    case _ => pc
  }

  function ConsumerPc(c: Config, i: nat, a: Consumer, r: Ring, e: Wait, k: Choice): Cpc
    requires Sane(c)
  {
    if Looks(a.pc) then LookPc(c, i, a, r, k) else WaitPc(a.pc, e, k)
  }

  function Less(n: nat): nat { if n == 0 then 0 else n - 1 }

  // What a consumer's step does to its event count.
  function Attend(pc: Cpc, e: Wait, k: Choice): Wait {
    match pc
    case Enlist(_) => e.(waiters := e.waiters + 1)
    case Unpend(_) => e.(pending := false)
    case WaitOn(key) => if e.epoch == key then e.(asleep := true) else e
    case Blocked(_) => if e.asleep && !k.Expire? then e else e.(asleep := false)
    case Delist => e.(waiters := Less(e.waiters))
    case Absorb => e.(pending := false)
    case Cancel(_, _) => e.(waiters := Less(e.waiters))
    case _ => e
  }

  function Consume(pc: Cpc, r: Ring): Ring {
    match pc
    case Refresh(_, _) => r.(cachedTail := r.tail)
    case Release(_, _, _) => r.(head := r.head + 1)
    case _ => r
  }

  function After(c: Config, i: nat, a: Consumer, r: Ring, e: Wait, k: Choice): Consumer
    requires Sane(c)
  {
    Consumer(ConsumerPc(c, i, a, r, e, k),
             if a.pc.Release? then Wrapped(c, Turn(c, a.next, a.pc.k) + 1) else a.next,
             if a.pc.Release? then a.got + [Tagged(At(c, i, a), a.pc.v)] else a.got)
  }

  const NoRing := Ring(0, false, 0, 0, 0, [], [])

  function ConsumerStep(c: Config, w: World, i: nat, k: Choice): World
    requires Sane(c) && i < |w.cons|
  {
    var a := w.cons[i];
    var on := OnRing(c, a.pc) && At(c, i, a) < |w.rings|;
    var r := if on then w.rings[At(c, i, a)] else NoRing;
    var e := if i < |w.waits| then w.waits[i] else NoWait;
    w.(cons := w.cons[i := After(c, i, a, r, e, k)],
       rings := if on then w.rings[At(c, i, a) := Consume(a.pc, r)] else w.rings,
       waits := if i < |w.waits| then w.waits[i := Attend(a.pc, e, k)] else w.waits)
  }

  // ------------------------------------------------------------ close

  function CloserPc(w: World, k: Choice): Closer {
    match w.closer
    case Open => if k.CloseCall? then Closing(0) else Open
    case Closing(p) => if p < |w.rings| then Closing(p + 1) else Rousing(0)
    case Rousing(i) => if i < |w.waits| then Waking(i) else Shut
    case Waking(i) => Rousing(i + 1)
    case Shut => Shut
  }

  function CloserStep(w: World, k: Choice): World {
    var pc := w.closer;
    w.(closer := CloserPc(w, k),
       rings := if pc.Closing? && pc.p < |w.rings| then w.rings[pc.p := w.rings[pc.p].(closed := true)] else w.rings,
       waits := if pc.Rousing? && pc.i < |w.waits| then w.waits[pc.i := w.waits[pc.i].(epoch := w.waits[pc.i].epoch + 1, bumped := true)]
                else if pc.Waking? && pc.i < |w.waits| then w.waits[pc.i := w.waits[pc.i].(asleep := false)]
                else w.waits)
  }

  datatype Actor = Prod(p: nat) | Cons(i: nat) | Close

  predicate Acts(w: World, a: Actor) {
    match a
    case Prod(p) => p < |w.prods| && p < |w.rings|
    case Cons(i) => i < |w.cons|
    case Close => true
  }

  /** One atomic step of one actor. */
  function Step(c: Config, w: World, a: Actor, k: Choice): World
    requires Sane(c) && Acts(w, a)
  {
    match a
    case Prod(p) => ProducerStep(c, w, p, k)
    case Cons(i) => ConsumerStep(c, w, i, k)
    case Close => CloserStep(w, k)
  }

  ghost predicate Next(c: Config, w: World, w': World)
    requires Sane(c)
  {
    exists a: Actor, k: Choice | Acts(w, a) :: w' == Step(c, w, a, k)
  }

  ghost predicate NextAt(c: Config, tr: seq<World>, j: nat)
    requires Sane(c) && j + 1 < |tr|
  {
    Next(c, tr[j], tr[j + 1])
  }

  ghost predicate Run(c: Config, tr: seq<World>) {
    && Sane(c) && |tr| > 0 && tr[0] == Init(c)
    && forall j | 0 <= j < |tr| - 1 :: NextAt(c, tr, j)
  }
}

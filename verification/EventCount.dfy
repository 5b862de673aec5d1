/**
 * The C++ sleep protocols around the C++ ring, one atomic access per step: the
 * event count with coalesced wakes, the event count that wakes on every push, and
 * the epoch that every push advances. The fence-separated accesses are taken in
 * one total order. The operating system may wake any thread that waits at any
 * time, a timer may fire at any time, and a wake picks any waiting thread.
 */
module EventCount {
  import opened Slots
  import opened Ring
  import opened RingInvariant
  import opened RingSteps
  import opened RingTheorems
  import opened RingCalls

  datatype Protocol = Coalesced | EveryPush | EpochOnly

  // Where in pop (or outside it) a try_pop is.
  datatype Site = Alone | Opening | Second | Recheck(key: nat) | Woken

  datatype Epc =
    | Out(last: Answer)             // in no call
    | Pushing                       // in the ring: try_push or a ticket
    | NextPop(site: Site)
    | Popping(site: Site)           // in the ring: try_pop
    | NextDrain
    | Draining                      // in the ring: the look at the tail and the head
    // prepare_wait
    | LoadKey
    | Enlist(key: nat)              // waiters_ + 1
    | Unpend(key: nat)              // pending_ = false
    | LookTail(key: nat)            // the tail load after an empty re-check
    | Decide(key: nat)              // park, or give up at the deadline
    // wait
    | Test(key: nat)                // load the epoch
    | WaitOn(key: nat)              // compare and block, as one step
    | Blocked(key: nat)
    | Delist                        // waiters_ - 1
    | Absorb                        // pending_ = false
    | Cancel(nx: After)             // cancel_wait
    | NextPeek(ans: Answer)
    | Peeking(ans: Answer)          // in the ring: head_published, for the chained wake
    // notify_one
    | LoadWaiters(ans: Answer)
    | LoadPending(ans: Answer)
    | SwapPending(ans: Answer)
    | Advance(ans: Answer)          // epoch_ + 1
    | WakeOne(ans: Answer)
    // close
    | Closing                       // in the ring
    | CloseAdvance
    | CloseWake

  datatype EChoice =
    | Op(call: Call)
    | CallPop
    | CallClose
    | Pick(u: Tid)                  // whom a wake reaches
    | Timeout                       // a timer, or a spurious wake
    | Proceed

  // asleep: the threads the operating system has blocked. counted, bumped and woke
  // are history: who is counted in waiters, whether close has advanced the epoch,
  // and whether it has woken everybody.
  datatype World = World(ring: State, pcs: seq<Epc>, waiters: nat, pending: bool, epoch: nat, asleep: set<Tid>,
                         counted: set<Tid>, bumped: bool, woke: bool)

  function At(w: World, t: Tid, pc: Epc): World
    requires t < |w.pcs|
  {
    w.(pcs := w.pcs[t := pc])
  }

  function PcPlace(pc: Epc): Place {
    match pc
    case Pushing => InPush
    case Popping(_) => InPop
    case Draining => InDrain
    case Peeking(_) => InPeek
    case Closing => InClose
    case _ => Nowhere
  }

  // Where the thread goes when the ring operation it is in returns res.
  function Finish(pc: Epc, k: EChoice, res: Result): Epc {
    match pc
    case Pushing => if res.PushOK? || res.PushPanicked? then LoadWaiters(Told(res)) else Out(Told(res))
    case Popping(site) => AfterPop(site, res)
    case Draining =>
      (match res
       case Drained => Out(Told(res))
       case Open => LoadKey
       case _ => if k.Timeout? then Out(TimedOut) else NextPop(Opening))
    case Peeking(ans) => if res.Published? then LoadWaiters(ans) else Out(ans)
    case _ => CloseAdvance
  }

  function AfterPop(site: Site, res: Result): Epc {
    if res.PopOK? then
      match site
      case Recheck(_) => Cancel(Return(Told(res)))
      case Woken => NextPeek(Told(res))
      case _ => Out(Told(res))
    else
      match site
      case Alone => Out(Told(res))
      case Opening => NextPop(Second)
      case Second => NextDrain
      case Recheck(key) => LookTail(key)
      case Woken => NextPop(Opening)
  }

  function Landed(w: World, ring': State, t: Tid, k: EChoice): World
    requires t < |w.pcs|
  {
    var w' := w.(ring := ring');
    if t < |ring'.threads| && ring'.threads[t].pc.Idle? then At(w', t, Finish(w.pcs[t], k, ring'.threads[t].pc.res)) else w'
  }

  datatype Entry = NoEntry | Enters(call: Call, pc: Epc)

  function Entering(pc: Epc, k: EChoice): Entry {
    match pc
    case Out(_) =>
      (match k
       case Op(call) =>
         if call.TryPop? then Enters(call, Popping(Alone))
         else if (call.TryPush? && call.kind.Plain?) || call.PushTicket? || call.TakeTicket? then Enters(call, Pushing)
         else NoEntry
       case CallClose => Enters(Close, Closing)
       case _ => NoEntry)
    case NextPop(site) => Enters(TryPop, Popping(site))
    case NextDrain => Enters(Drain, Draining)
    case NextPeek(ans) => Enters(Peek, Peeking(ans))
    case _ => NoEntry
  }

  function Sub1(n: nat): nat { if n == 0 then 0 else n - 1 }

  predicate Preparing(pc: Epc) { pc.LoadKey? || pc.Enlist? || pc.Unpend? || pc.LookTail? || pc.Decide? }

  predicate InWait(pc: Epc) { pc.Test? || pc.WaitOn? || pc.Blocked? }

  predicate Sleeping(pc: Epc) { InWait(pc) || pc.Delist? || pc.Absorb? || pc.Cancel? }

  // prepare_wait, and what follows an empty re-check.
  function PrepareStep(p: Protocol, w: World, t: Tid, k: EChoice): World
    requires t < |w.pcs|
  {
    match w.pcs[t]
    case LoadKey => At(w, t, if p.EpochOnly? then NextPop(Recheck(w.epoch)) else Enlist(w.epoch))
    case Enlist(key) => At(w.(waiters := w.waiters + 1, counted := w.counted + {t}), t, Unpend(key))
    case Unpend(key) => At(w.(pending := false), t, NextPop(Recheck(key)))
    case LookTail(key) => At(w, t, if w.ring.q.closed then Cancel(Again) else Decide(key))
    case Decide(key) => At(w, t, if k.Timeout? then Cancel(Return(TimedOut)) else Test(key))
    case _ => w
  }

  // wait and cancel_wait.
  function WaitStep(p: Protocol, w: World, t: Tid, k: EChoice): World
    requires t < |w.pcs|
  {
    match w.pcs[t]
    case Test(key) =>
      At(w, t, if w.epoch != key || k.Timeout? then (if p.EpochOnly? then NextPop(Woken) else Delist) else WaitOn(key))
    case WaitOn(key) =>
      if w.epoch == key then At(w.(asleep := w.asleep + {t}), t, Blocked(key)) else At(w, t, Test(key))
    case Blocked(key) =>
      if k.Timeout? || t !in w.asleep then At(w.(asleep := w.asleep - {t}), t, Test(key)) else w
    case Delist => At(w.(waiters := Sub1(w.waiters), counted := w.counted - {t}), t, Absorb)
    case Absorb => At(w.(pending := false), t, NextPop(Woken))
    case Cancel(nx) =>
      At(if p.EpochOnly? then w else w.(waiters := Sub1(w.waiters), counted := w.counted - {t}), t,
         if nx.Again? then NextPop(Opening) else Out(nx.ans))
    case _ => w
  }

  // notify_one and notify_all, and the start of a pop.
  function NotifyStep(p: Protocol, cons: set<Tid>, w: World, t: Tid, k: EChoice): World
    requires t < |w.pcs|
  {
    match w.pcs[t]
    case Out(_) => if k.CallPop? && t in cons then At(w, t, NextPop(Opening)) else w
    case LoadWaiters(ans) =>
      At(w, t, if p.EpochOnly? then Advance(ans)
               else if w.waiters == 0 then Out(ans)
               else if p.Coalesced? then LoadPending(ans)
               else Advance(ans))
    case LoadPending(ans) => At(w, t, if w.pending then Out(ans) else SwapPending(ans))
    case SwapPending(ans) => At(w.(pending := true), t, if w.pending then Out(ans) else Advance(ans))
    case Advance(ans) => At(w.(epoch := w.epoch + 1), t, WakeOne(ans))
    case WakeOne(ans) =>
      if w.asleep == {} then At(w, t, Out(ans))
      else if k.Pick? && k.u in w.asleep then At(w.(asleep := w.asleep - {k.u}), t, Out(ans))
      else w
    case CloseAdvance => At(w.(epoch := w.epoch + 1, bumped := true), t, CloseWake)
    case CloseWake => At(w.(asleep := {}, woke := true), t, Out(Told(CloseDone)))
    case _ => w
  }

  // A step outside the ring operations.
  function Local(p: Protocol, cons: set<Tid>, w: World, t: Tid, k: EChoice): World
    requires t < |w.pcs|
  {
    if Preparing(w.pcs[t]) then PrepareStep(p, w, t, k)
    else if Sleeping(w.pcs[t]) then WaitStep(p, w, t, k)
    else NotifyStep(p, cons, w, t, k)
  }

  /** One atomic step of thread t. cons: the threads that may call pop. */
  function EStep(c: Config, p: Protocol, cons: set<Tid>, w: World, t: Tid, k: EChoice): World
    requires Sized(c, w.ring.q) && t < |w.pcs| == |w.ring.threads|
  {
    if PcPlace(w.pcs[t]) != Nowhere then Landed(w, Step(c, w.ring, t, Go), t, k)
    else
      match Entering(w.pcs[t], k)
      case Enters(call, pc) => At(w.(ring := Step(c, w.ring, t, Start(call))), t, pc)
      case NoEntry => Local(p, cons, w, t, k)
  }

  ghost predicate EInit(c: Config, w: World) {
    && Init(c, w.ring) && |w.pcs| == |w.ring.threads|
    && (forall t | 0 <= t < |w.pcs| :: w.pcs[t] == Out(Told(Nothing)))
    && w == World(w.ring, w.pcs, 0, false, 0, {}, {}, false, false)
  }

  ghost predicate ENext(c: Config, p: Protocol, cons: set<Tid>, w: World, w': World) {
    && Sized(c, w.ring.q) && |w.pcs| == |w.ring.threads|
    && exists t: Tid, k: EChoice | t < |w.pcs| :: w' == EStep(c, p, cons, w, t, k)
  }

  ghost predicate ENextAt(c: Config, p: Protocol, cons: set<Tid>, tr: seq<World>, j: nat)
    requires j + 1 < |tr|
  {
    ENext(c, p, cons, tr[j], tr[j + 1])
  }

  /** A run of the C++ queue whose popping threads are those of cons. */
  ghost predicate ERun(c: Config, p: Protocol, cons: set<Tid>, tr: seq<World>) {
    && |tr| > 0 && c.rule.CppRule? && EInit(c, tr[0]) && (forall u | u in cons :: u < |tr[0].pcs|)
    && forall j | 0 <= j < |tr| - 1 :: ENextAt(c, p, cons, tr, j)
  }
}

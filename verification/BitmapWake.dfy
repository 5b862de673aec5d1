/**
 * Go's sleep protocol (Waiter: a bitmap of sleepers and a one-token channel each)
 * around the ring: every operation of the queue, one atomic access per step. A
 * thread that is inside a ring operation takes a step of the ring; every other
 * step leaves the ring alone. Timeouts may fire at any time.
 */
module BitmapWake {
  import opened Slots
  import opened Ring
  import opened RingInvariant
  import opened RingSteps
  import opened RingTheorems
  import opened RingCalls

  // Where in Pop (or outside it) a TryPop is.
  datatype Site = Alone | Opening | Second | Recheck | Woken

  datatype Wpc =
    | Out(last: Answer)             // in no call
    | Pushing                       // in the ring: TryPush, TryPushFunc or a ticket
    | NextPop(site: Site)
    | Popping(site: Site)           // in the ring: TryPop
    | NextDrain
    | Draining                      // in the ring: the look at the tail, closedAt and head
    | Prepare
    | LookTail                      // the tail load after an empty re-check
    | Decide                        // park, or give up at the deadline
    | Block                         // in the select
    | WaitClear
    | Cancel(nx: After)
    | CancelDrop(nx: After)
    | NextPeek(ans: Answer)
    | Peeking(ans: Answer)          // in the ring: headPublished, for the chained wake
    | N1(nx: After)               // Notify: load the bitmap
    | N2(nx: After, i: Tid)       // clear sleeper i's bit
    | N3(nx: After, i: Tid)       // send sleeper i's token
    | Closing                       // in the ring: Close up to closedAt
    | CloseCas
    | CloseSwap
    | CloseSend(m: set<Tid>)

  datatype WChoice =
    | Op(call: Call)                // start a push, or a TryPop on its own
    | CallPop
    | CallClose
    | Inside(k: Choice)             // a step of the ring operation
    | Pick(i: Tid)                  // which bit of a loaded bitmap
    | Timeout
    | Proceed

  // asleep: the bitmap. tokens: the sleepers whose channel holds a token.
  // swept is history: Waiter.Close has swapped the bitmap out.
  datatype World = World(ring: State, pcs: seq<Wpc>, asleep: set<Tid>, tokens: set<Tid>,
                         closing: bool, swept: bool)

  ghost predicate Ready(c: Config, w: World) {
    Sized(c, w.ring.q) && |w.pcs| == |w.ring.threads|
  }

  function At(w: World, t: Tid, pc: Wpc): World
    requires t < |w.pcs|
  {
    w.(pcs := w.pcs[t := pc])
  }

  function Resume(nx: After): Wpc { if nx.Return? then Out(nx.ans) else NextPop(Opening) }

  // Where the ring operation that a thread is in belongs.
  function PcPlace(pc: Wpc): Place {
    match pc
    case Pushing => InPush
    case Popping(_) => InPop
    case Draining => InDrain
    case Peeking(_) => InPeek
    case Closing => InClose
    case _ => Nowhere
  }

  // Where the thread goes when the ring operation it is in returns res.
  function Finish(pc: Wpc, k: WChoice, res: Result): Wpc {
    match pc
    case Pushing => if res.PushOK? || res.PushPanicked? then N1(Return(Told(res))) else Out(Told(res))
    case Popping(site) => AfterPop(site, res)
    case Draining =>
      (match res
       case Drained => Out(Told(res))
       case Open => if k.Timeout? then Out(TimedOut) else Prepare
       case _ => if k.Timeout? then Out(TimedOut) else NextPop(Opening))
    case Peeking(ans) => if res.Published? then N1(Return(ans)) else Out(ans)
    case _ => CloseCas
  }

  function AfterPop(site: Site, res: Result): Wpc {
    if res.PopOK? then
      match site
      case Recheck => Cancel(Return(Told(res)))
      case Woken => NextPeek(Told(res))
      case _ => Out(Told(res))
    else
      match site
      case Alone => Out(Told(res))
      case Opening => NextPop(Second)
      case Second => NextDrain
      case Recheck => LookTail
      case Woken => NextPop(Opening)
  }

  // t's step of its ring operation has taken the ring to ring'.
  function Landed(w: World, ring': State, t: Tid, k: WChoice): World
    requires t < |w.pcs|
  {
    var w' := w.(ring := ring');
    if t < |ring'.threads| && ring'.threads[t].pc.Idle? then At(w', t, Finish(w.pcs[t], k, ring'.threads[t].pc.res)) else w'
  }

  function Inner(pc: Wpc, k: WChoice): Choice { if pc.Pushing? && k.Inside? then k.k else Go }

  datatype Entry = NoEntry | Enters(call: Call, pc: Wpc)

  // The ring operation that t starts with this step, if it starts one. cons: the
  // threads that may call Pop.
  function Entering(pc: Wpc, k: WChoice): Entry {
    match pc
    case Out(_) =>
      (match k
       case Op(call) =>
         if call.TryPop? then Enters(call, Popping(Alone))
         else if call.TryPush? || call.PushTicket? || call.TakeTicket? then Enters(call, Pushing)
         else NoEntry
       case CallClose => Enters(Close, Closing)
       case _ => NoEntry)
    case NextPop(site) => Enters(TryPop, Popping(site))
    case NextDrain => Enters(Drain, Draining)
    case NextPeek(ans) => Enters(Peek, Peeking(ans))
    case _ => NoEntry
  }

  // A step outside the ring operations.
  function Local(cons: set<Tid>, w: World, t: Tid, k: WChoice): World
    requires t < |w.pcs|
  {
    match w.pcs[t]
    case Out(_) => if k.CallPop? && t in cons then At(w, t, NextPop(Opening)) else w
    case Prepare => At(w.(asleep := w.asleep + {t}), t, NextPop(Recheck))
    case LookTail => At(w, t, if w.ring.q.closed then Cancel(Again) else Decide)
    case Decide => At(w, t, if k.Timeout? then Cancel(Return(TimedOut)) else Block)
    case Block =>
      if k.Timeout? || t in w.tokens then At(w.(tokens := w.tokens - {t}), t, WaitClear) else w
    case WaitClear => At(w.(asleep := w.asleep - {t}), t, NextPop(Woken))
    case Cancel(nx) =>
      At(w.(asleep := w.asleep - {t}), t, if t in w.asleep then Resume(nx) else CancelDrop(nx))
    case CancelDrop(nx) => At(w.(tokens := w.tokens - {t}), t, N1(nx))
    case N1(nx) =>
      if w.asleep == {} then At(w, t, Resume(nx))
      else if k.Pick? && k.i in w.asleep then At(w, t, N2(nx, k.i))
      else w
    case N2(nx, i) => At(w.(asleep := w.asleep - {i}), t, if i in w.asleep then N3(nx, i) else N1(nx))
    case N3(nx, i) => At(w.(tokens := w.tokens + {i}), t, Resume(nx))
    case CloseCas => At(w.(closing := true), t, if w.closing then Out(Told(CloseDone)) else CloseSwap)
    case CloseSwap => At(w.(asleep := {}, swept := true), t, CloseSend(w.asleep))
    case CloseSend(m) =>
      if m == {} then At(w, t, Out(Told(CloseDone)))
      else if k.Pick? && k.i in m then At(w.(tokens := w.tokens + {k.i}), t, CloseSend(m - {k.i}))
      else w
    case _ => w
  }

  /** One atomic step of thread t. cons: the threads that may call Pop. */
  function WStep(c: Config, cons: set<Tid>, w: World, t: Tid, k: WChoice): World
    requires Sized(c, w.ring.q) && t < |w.pcs| == |w.ring.threads|
  {
    if PcPlace(w.pcs[t]) != Nowhere then
      Landed(w, Step(c, w.ring, t, Inner(w.pcs[t], k)), t, k)
    else
      match Entering(w.pcs[t], k)
      case Enters(call, pc) => At(w.(ring := Step(c, w.ring, t, Start(call))), t, pc)
      case NoEntry => Local(cons, w, t, k)
  }

  ghost predicate WInit(c: Config, w: World) {
    && Init(c, w.ring) && |w.pcs| == |w.ring.threads|
    && (forall t | 0 <= t < |w.pcs| :: w.pcs[t] == Out(Told(Nothing)))
    && w.asleep == {} && w.tokens == {} && !w.closing && !w.swept
  }

  ghost predicate WNext(c: Config, cons: set<Tid>, w: World, w': World) {
    && Ready(c, w)
    && exists t: Tid, k: WChoice | t < |w.pcs| :: w' == WStep(c, cons, w, t, k)
  }

  ghost predicate WNextAt(c: Config, cons: set<Tid>, tr: seq<World>, j: nat)
    requires j + 1 < |tr|
  {
    WNext(c, cons, tr[j], tr[j + 1])
  }

  /** A run of Go's queue whose popping threads are those of cons. */
  ghost predicate WRun(c: Config, cons: set<Tid>, tr: seq<World>) {
    && |tr| > 0 && c.rule.GoRule? && WInit(c, tr[0]) && (forall u | u in cons :: u < |tr[0].pcs|)
    && forall j | 0 <= j < |tr| - 1 :: WNextAt(c, cons, tr, j)
  }
}

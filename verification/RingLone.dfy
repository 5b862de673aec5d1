/**
 * A call that runs undisturbed from any reachable state, wherever the other
 * threads have stopped, ends after a few steps with the one right answer.
 */
module RingLone {
  import opened Slots
  import opened Ring
  import opened RingInvariant
  import opened RingSteps
  import opened RingTheorems
  import opened RingCalls

  // Thread t takes a step.
  ghost function Onward(c: Config, s: State, t: Tid): (s': State)
    requires Inv(c, s) && t < |s.threads|
    ensures Inv(c, s') && |s'.threads| == |s.threads|
  {
    StepInv(c, s, t, Go);
    StepMoves(c, s, t, Go);
    Step(c, s, t, Go)
  }

  /** The state after n more steps of thread t alone. */
  ghost function Solo(c: Config, s: State, t: Tid, n: nat): (s': State)
    requires Inv(c, s) && t < |s.threads|
    ensures Inv(c, s') && |s'.threads| == |s.threads|
    decreases n
  {
    if n == 0 then s else Solo(c, Onward(c, s, t), t, n - 1)
  }

  lemma {:induction false} SoloTwice(c: Config, s: State, t: Tid, m: nat, n: nat)
    requires Inv(c, s) && t < |s.threads|
    ensures Solo(c, Solo(c, s, t, m), t, n) == Solo(c, s, t, m + n)
    decreases m
  {
    hide Inv, Onward;
    if m > 0 { SoloTwice(c, Onward(c, s, t), t, m - 1, n); }
  }

  // The m-th state and the next.
  lemma SoloNext(c: Config, s: State, t: Tid, m: nat)
    requires Inv(c, s) && t < |s.threads|
    ensures Solo(c, s, t, m + 1) == Onward(c, Solo(c, s, t, m), t)
    ensures Solo(c, s, t, 0) == s
  {
    hide Inv, Onward;
    SoloTwice(c, s, t, m, 1);
    assert Solo(c, Onward(c, Solo(c, s, t, m), t), t, 0) == Onward(c, Solo(c, s, t, m), t);
  }

  lemma {:induction false} IdleStays(c: Config, s: State, t: Tid, n: nat)
    requires Inv(c, s) && t < |s.threads| && s.threads[t].pc.Idle?
    ensures Solo(c, s, t, n) == s
    decreases n
  {
    if n > 0 {
      assert Onward(c, s, t) == s;
      IdleStays(c, s, t, n - 1);
    }
  }

  lemma SoloFirst(c: Config, s: State, t: Tid, n: nat)
    requires Inv(c, s) && t < |s.threads|
    ensures Solo(c, s, t, n) == if n == 0 then s else Solo(c, Onward(c, s, t), t, n - 1)
  {
    hide Inv, Onward;
  }

  // ------------------------------------------------------------ pushes

  // The slot of position p is free for it: the position one lap back has been released.
  predicate Vacant(c: Config, q: Shared, p: nat) {
    p < c.n || (p - c.n < |q.log| && q.log[p - c.n].phase.Released?)
  }

  lemma VacantStamp(c: Config, s: State)
    requires Inv(c, s) && !s.q.closed
    ensures var seen := s.q.stamps[Slot(c.n, s.q.tail)].pos;
      if Vacant(c, s.q, s.q.tail) then seen == s.q.tail else seen < s.q.tail
  {
    var q := s.q;
    var i := Slot(c.n, q.tail);
    assert SlotOk(c, q, i);
    SameSlot(c.n, q.tail, q.turn[i]);
    if q.tail >= c.n {
      assert EntryOk(c, q, q.tail - c.n);
      assert Slot(c.n, q.tail - c.n) == i;
    } else {
      SlotBelow(c.n, q.turn[i]);
    }
  }

  /** Alone, TryPush answers closed on a closed ring, full on a full one, and otherwise publishes its value at the tail. */
  lemma LonePush(c: Config, s: State, t: Tid, v: Value)
    requires Inv(c, s) && t < |s.threads| && s.threads[t].pc == ClaimLoad(v, Plain)
    ensures s.q.closed ==> Solo(c, s, t, 1) == To(s, t, s.q, Idle(PushClosed))
    ensures !s.q.closed && !Vacant(c, s.q, s.q.tail) ==> Solo(c, s, t, 2) == To(s, t, s.q, Idle(PushFull))
    ensures !s.q.closed && Vacant(c, s.q, s.q.tail) ==> PushedAt(s, Solo(c, s, t, 5), t, v)
  {
    SoloNext(c, s, t, 0);
    hide Solo, Inv;
    if !s.q.closed {
      VacantStamp(c, s);
      SoloNext(c, s, t, 1);
      if Vacant(c, s.q, s.q.tail) {
        LoneClaim(c, s, t, v);
        SoloNext(c, s, t, 2);
        SoloNext(c, s, t, 3);
        SoloNext(c, s, t, 4);
      }
    }
  }

  // Thread t's push has published v at the tail.
  predicate PushedAt(s: State, s': State, t: Tid, v: Value) {
    && t < |s.threads| && t < |s'.threads|
    && s'.threads[t].pc == Idle(PushOK(s.q.tail)) && s'.q.head == s.q.head && s'.q.tail == s.q.tail + 1
    && s'.q.log == s.q.log + [Entry(t, s.threads[t].issued, v, Plain, false, Public, false, 0, 0)]
  }

  lemma LoneClaim(c: Config, s: State, t: Tid, v: Value)
    requires Inv(c, s) && t < |s.threads| && !s.q.closed
    requires Onward(c, Onward(c, s, t), t) == To(s, t, s.q, ClaimCas(v, Plain, s.q.tail))
    ensures PushedAt(s, Onward(c, Onward(c, Onward(c, Onward(c, Onward(c, s, t), t), t), t), t), t, v)
  {
    var p := s.q.tail;
    var s2 := Onward(c, Onward(c, s, t), t);
    var s3 := Onward(c, s2, t);
    assert s3.threads[t].pc == Write(p, v) && s3.q == Append(s.q, Entry(t, s.threads[t].issued, v, Plain, false, Ready, false, 0, 0)) by { ClaimOnward(c, s2, t, v); }
    var s4 := Onward(c, s3, t);
    assert s4.threads[t].pc == Store(p) && s4.q == Mark(s3.q, p, Written).(cells := s4.q.cells) by { WriteOnward(c, s3, t); }
    var s5 := Onward(c, s4, t);
    StoreOnward(c, s4, t);
    hide Onward, Inv;
  }

  lemma ClaimOnward(c: Config, s: State, t: Tid, v: Value)
    requires Inv(c, s) && t < |s.threads| && !s.q.closed && s.threads[t].pc == ClaimCas(v, Plain, s.q.tail)
    ensures var s' := Onward(c, s, t);
      s'.threads[t].pc == Write(s.q.tail, v) && s'.q == Append(s.q, Entry(t, s.threads[t].issued, v, Plain, false, Ready, false, 0, 0))
  {
  }

  lemma WriteOnward(c: Config, s: State, t: Tid)
    requires Inv(c, s) && t < |s.threads| && s.threads[t].pc.Write?
    ensures var s', p := Onward(c, s, t), s.threads[t].pc.pos;
      s'.threads[t].pc == Store(p) && s'.q == Mark(s.q, p, Written).(cells := s'.q.cells)
  {
  }

  lemma StoreOnward(c: Config, s: State, t: Tid)
    requires Inv(c, s) && t < |s.threads| && s.threads[t].pc.Store?
    ensures var s', p := Onward(c, s, t), s.threads[t].pc.pos;
      s'.threads[t].pc == Idle(PushOK(p)) && s'.q == Mark(s.q, p, Public).(stamps := s'.q.stamps)
  {
  }

  // ------------------------------------------------------------ pops

  predicate ShownAt(q: Shared, p: nat) { p < |q.log| && q.log[p].phase.Public? }

  /** The first position from p on that is not a published tombstone. */
  function PastTombs(q: Shared, p: nat): (r: nat)
    ensures r >= p
    decreases |q.log| - p
  {
    if ShownAt(q, p) && q.log[p].dead then PastTombs(q, p + 1) else p
  }

  lemma {:induction false} PastTombsSame(q: Shared, q': Shared, p: nat)
    requires |q'.log| == |q.log| && forall i | p <= i < |q.log| :: q'.log[i] == q.log[i]
    ensures PastTombs(q', p) == PastTombs(q, p)
    decreases |q.log| - p
  {
    if ShownAt(q, p) && q.log[p].dead { PastTombsSame(q, q', p + 1); }
  }

  // Nothing published at the head: empty.
  lemma LoneEmpty(c: Config, s: State, t: Tid)
    requires Inv(c, s) && t < |s.threads| && s.threads[t].pc == PopSeq(s.q.head) && !ShownAt(s.q, s.q.head)
    ensures Onward(c, s, t) == To(s, t, s.q, Idle(PopEmpty))
  {
    HeadStamp(c, s);
    HeadNotAhead(c, s);
  }

  lemma HeadNotAhead(c: Config, s: State)
    requires Inv(c, s)
    ensures s.q.stamps[Slot(c.n, s.q.head)].pos <= s.q.head + 1
  {
    var i := Slot(c.n, s.q.head);
    assert SlotOk(c, s.q, i);
    SameSlot(c.n, s.q.head, s.q.turn[i]);
  }

  // The claim of a published head.
  lemma LoneClaims(c: Config, s: State, t: Tid)
    requires Inv(c, s) && t < |s.threads| && s.threads[t].pc == PopSeq(s.q.head) && ShownAt(s.q, s.q.head)
    ensures var h := s.q.head; var e := s.q.log[h]; var s2 := Onward(c, Onward(c, s, t), t);
      && s2.q == Claim(s.q, t, h, if e.dead then Cleared else Claimed)
      && s2.threads[t].pc == if e.dead then Release(h, Raw) else Read(h)
  {
    var h := s.q.head;
    HeadStamp(c, s);
    var i := Slot(c.n, h);
    assert SlotOk(c, s.q, i) && EntryOk(c, s.q, h);
    assert Onward(c, s, t) == To(s, t, s.q, PopCas(h, s.q.log[h].dead));
  }

  lemma ReleaseOnward(c: Config, s: State, t: Tid)
    requires Inv(c, s) && t < |s.threads| && s.threads[t].pc.Release?
    ensures var s', p, got := Onward(c, s, t), s.threads[t].pc.pos, s.threads[t].pc.got;
      && s'.threads[t].pc == (if got.Obj? then Idle(PopOK(p, got.v)) else PopSeq(p + 1))
      && s'.q == Mark(s.q, p, Released).(stamps := s'.q.stamps, turn := s'.q.turn)
  {
  }

  lemma ClearOnward(c: Config, s: State, t: Tid)
    requires Inv(c, s) && t < |s.threads| && s.threads[t].pc.Clear?
    ensures var s', p, got := Onward(c, s, t), s.threads[t].pc.pos, s.threads[t].pc.got;
      s'.threads[t].pc == Release(p, got) && s'.q == Mark(s.q, p, Cleared).(cells := s'.q.cells)
  {
  }

  lemma ReadOnward(c: Config, s: State, t: Tid)
    requires Inv(c, s) && t < |s.threads| && s.threads[t].pc.Read?
    ensures var s', p := Onward(c, s, t), s.threads[t].pc.pos;
      p < |s.q.log| && s'.threads[t].pc == Clear(p, Obj(s.q.log[p].v)) && s'.q == Deliver(s.q, t, p, s.q.log[p].v)
  {
    var p := s.threads[t].pc.pos;
    assert PcOk(c, s.q, t, s.threads[t].pc) && EntryOk(c, s.q, p) && SlotOk(c, s.q, Slot(c.n, p));
  }

  // A tombstone is released and passed.
  lemma LoneSkips(c: Config, s: State, t: Tid)
    requires Inv(c, s) && t < |s.threads| && s.threads[t].pc == PopSeq(s.q.head) && ShownAt(s.q, s.q.head) && s.q.log[s.q.head].dead
    ensures var h := s.q.head; var s' := Solo(c, s, t, 3);
      && s'.threads[t].pc == PopSeq(h + 1) && s'.q.head == h + 1
      && s'.q.log == s.q.log[h := s.q.log[h].(phase := Released, taker := t)]
  {
    hide Onward, Solo, Inv;
    SoloNext(c, s, t, 0);
    SoloNext(c, s, t, 1);
    SoloNext(c, s, t, 2);
    LoneClaims(c, s, t);
    ReleaseOnward(c, Solo(c, s, t, 2), t);
  }

  // Position h has gone from its consumer's read to its release, and nothing else has changed in the log.
  predicate GivenBack(q: Shared, q': Shared, h: nat) {
    && h < |q.log| == |q'.log| && q'.head == q.head && q'.log == q.log[h := q'.log[h]]
    && q'.log[h].phase.Released? && q'.log[h].taker == q.log[h].taker
  }

  lemma LoneReads(c: Config, s: State, t: Tid)
    requires Inv(c, s) && t < |s.threads| && s.threads[t].pc.Read?
    ensures var h := s.threads[t].pc.pos; var s' := Onward(c, Onward(c, Onward(c, s, t), t), t);
      GivenBack(s.q, s'.q, h) && s'.threads[t].pc == Idle(PopOK(h, s.q.log[h].v))
  {
    var s1 := Onward(c, s, t);
    var s2 := Onward(c, s1, t);
    ReadOnward(c, s, t);
    ClearOnward(c, s1, t);
    ReleaseOnward(c, s2, t);
    hide Onward, Inv;
  }

  // An event is read, cleared and released.
  lemma LoneTakes(c: Config, s: State, t: Tid)
    requires Inv(c, s) && t < |s.threads| && s.threads[t].pc == PopSeq(s.q.head) && ShownAt(s.q, s.q.head) && !s.q.log[s.q.head].dead
    ensures var h := s.q.head; var s' := Solo(c, s, t, 5);
      && s'.threads[t].pc == Idle(PopOK(h, s.q.log[h].v))
      && GivenBack(Claim(s.q, t, h, Claimed), s'.q, h)
  {
    hide Onward, Solo, Inv;
    SoloNext(c, s, t, 0);
    SoloNext(c, s, t, 1);
    SoloNext(c, s, t, 2);
    SoloNext(c, s, t, 3);
    SoloNext(c, s, t, 4);
    LoneClaims(c, s, t);
    LoneReads(c, Solo(c, s, t, 2), t);
  }

  // What a lone TryPop that starts at the head of q answers, and where it leaves
  // the head; what is there is as it was.
  ghost predicate PoppedFrom(q: Shared, q': Shared, pc: Pc) {
    var p := PastTombs(q, q.head);
    && (forall i | q'.head <= i :: ShownAt(q', i) <==> ShownAt(q, i))
    && if ShownAt(q, p) then pc == Idle(PopOK(p, q.log[p].v)) && q'.head == p + 1
    else pc == Idle(PopEmpty) && q'.head == p
  }

  lemma PoppedOn(q: Shared, q1: Shared, q': Shared, pc: Pc)
    requires ShownAt(q, q.head) && q.log[q.head].dead && PoppedFrom(q1, q', pc)
    requires q1.head == q.head + 1 && |q1.log| == |q.log| && q1.log == q.log[q.head := q1.log[q.head]]
    ensures PoppedFrom(q, q', pc)
  {
    PastTombsSame(q, q1, q.head + 1);
  }

  // From the load of the head on.
  lemma {:induction false} LonePopFrom(c: Config, s: State, t: Tid) returns (n: nat)
    requires Inv(c, s) && t < |s.threads| && s.threads[t].pc == PopSeq(s.q.head)
    ensures PoppedFrom(s.q, Solo(c, s, t, n).q, Solo(c, s, t, n).threads[t].pc)
    decreases |s.q.log| - s.q.head
  {
    hide Inv, Solo, Onward;
    var h := s.q.head;
    if !ShownAt(s.q, h) {
      LoneEmpty(c, s, t);
      SoloNext(c, s, t, 0);
      n := 1;
    } else if !s.q.log[h].dead {
      LoneTakes(c, s, t);
      n := 5;
    } else {
      LoneSkips(c, s, t);
      hide PoppedFrom;
      var s' := Solo(c, s, t, 3);
      var m := LonePopFrom(c, s', t);
      SoloTwice(c, s, t, 3, m);
      PoppedOn(s.q, s'.q, Solo(c, s', t, m).q, Solo(c, s', t, m).threads[t].pc);
      n := 3 + m;
    }
  }

  /**
   * Alone, TryPop passes the tombstones at the head, gives their slots back, and
   * answers the event behind them, or empty if none is published there.
   */
  lemma LonePop(c: Config, s: State, t: Tid) returns (n: nat)
    requires Inv(c, s) && t < |s.threads| && s.threads[t].pc == PopLoad
    ensures PoppedFrom(s.q, Solo(c, s, t, n).q, Solo(c, s, t, n).threads[t].pc)
  {
    assert Onward(c, s, t) == To(s, t, s.q, PopSeq(s.q.head));
    hide Inv, Onward, PoppedFrom;
    var m := LonePopFrom(c, Onward(c, s, t), t);
    SoloNext(c, s, t, 0);
    SoloTwice(c, s, t, 1, m);
    n := 1 + m;
  }

  // A TryPop that finds the end of the log leaves everything as it was.
  lemma LoneLook(c: Config, s: State, t: Tid)
    requires Inv(c, s) && t < |s.threads| && s.threads[t].pc == PopLoad && s.q.head == |s.q.log|
    ensures Solo(c, s, t, 2) == To(s, t, s.q, Idle(PopEmpty))
  {
    SoloNext(c, s, t, 0);
    SoloNext(c, s, t, 1);
    var s1 := Onward(c, s, t);
    assert s1 == To(s, t, s.q, PopSeq(s.q.head));
    LoneEmpty(c, s1, t);
  }

  /** Alone, the look at the head tells whether its position is published. */
  lemma LonePeek(c: Config, s: State, t: Tid)
    requires Inv(c, s) && t < |s.threads| && s.threads[t].pc == PeekHead
    ensures Solo(c, s, t, 2) == To(s, t, s.q, Idle(if ShownAt(s.q, s.q.head) then Published else Unpublished))
  {
    SoloNext(c, s, t, 0);
    SoloNext(c, s, t, 1);
    HeadStamp(c, s);
    assert Onward(c, s, t) == To(s, t, s.q, PeekSeq(s.q.head));
  }

  // ------------------------------------------------------------ pushes by function

  // Thread t's push has ended at p with the entry as it was but for its phase, and dead or not.
  predicate EndedAt(s: State, s': State, t: Tid, p: nat, res: Result, dead: bool) {
    && t < |s'.threads| && s'.threads[t].pc == Idle(res) && p < |s.q.log|
    && s'.q.log == s.q.log[p := s.q.log[p].(phase := Public, dead := dead)] && s'.q.head == s.q.head && s'.q.tail == s.q.tail
  }

  // The callback panics.
  ghost function Panicked(c: Config, s: State, t: Tid): (s': State)
    requires Inv(c, s) && t < |s.threads|
    ensures Inv(c, s') && |s'.threads| == |s.threads|
  {
    StepInv(c, s, t, Panic);
    StepMoves(c, s, t, Panic);
    Step(c, s, t, Panic)
  }

  lemma BuriesOnward(c: Config, s: State, t: Tid)
    requires Inv(c, s) && t < |s.threads| && s.threads[t].pc.TombStore? && !s.threads[t].pc.doomed
    ensures var p := s.threads[t].pc.pos; EndedAt(s, Onward(c, s, t), t, p, PushPanicked(p), true)
  {
    assert PcOk(c, s.q, t, s.threads[t].pc);
  }

  lemma TombOnward(c: Config, s: State, t: Tid)
    requires Inv(c, s) && t < |s.threads| && s.threads[t].pc.TombWrite?
    ensures var s', p := Onward(c, s, t), s.threads[t].pc.pos;
      && s'.threads[t].pc == TombStore(p, false)
      && |s'.q.log| == |s.q.log| && (p < |s.q.log| ==> s'.q.log == s.q.log[p := s.q.log[p].(phase := Tomb)]) && s'.q.head == s.q.head && s'.q.tail == s.q.tail
  {
  }

  /** Alone, a push whose callback panics publishes its position as a tombstone and says so. */
  lemma LonePanic(c: Config, s: State, t: Tid)
    requires Inv(c, s) && t < |s.threads| && s.threads[t].pc.Fill?
    ensures var p := s.threads[t].pc.pos; EndedAt(s, Solo(c, Panicked(c, s, t), t, 2), t, p, PushPanicked(p), true)
  {
    var s1 := Panicked(c, s, t);
    assert s1 == To(s, t, s.q, TombWrite(s.threads[t].pc.pos));
    hide Inv, Onward, Solo, Panicked;
    SoloNext(c, s1, t, 0);
    SoloNext(c, s1, t, 1);
    TombOnward(c, s1, t);
    BuriesOnward(c, Onward(c, s1, t), t);
  }

  lemma FillOnward(c: Config, s: State, t: Tid)
    requires Inv(c, s) && t < |s.threads| && s.threads[t].pc.Fill?
    ensures var s', p := Onward(c, s, t), s.threads[t].pc.pos;
      && s'.threads[t].pc == Store(p) && p < |s.q.log| && !s.q.log[p].dead
      && s'.q.log == s.q.log[p := s.q.log[p].(phase := Written)] && s'.q.head == s.q.head && s'.q.tail == s.q.tail
  {
    assert PcOk(c, s.q, t, s.threads[t].pc) && EntryOk(c, s.q, s.threads[t].pc.pos);
  }

  /** Alone, one whose callback returns publishes its event and says ok. */
  lemma LoneFill(c: Config, s: State, t: Tid)
    requires Inv(c, s) && t < |s.threads| && s.threads[t].pc.Fill?
    ensures var p := s.threads[t].pc.pos; EndedAt(s, Solo(c, s, t, 2), t, p, PushOK(p), false)
  {
    hide Inv, Onward, Solo;
    SoloNext(c, s, t, 0);
    SoloNext(c, s, t, 1);
    FillOnward(c, s, t);
    StoreOnward(c, Onward(c, s, t), t);
  }
}

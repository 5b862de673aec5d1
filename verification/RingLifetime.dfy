/** Payload lifetimes: raw storage, one object per published position, and the destructor. */
module RingLifetime {
  import opened Slots
  import opened Ring
  import opened RingInvariant
  import opened RingSteps
  import opened RingTheorems

  /** A payload is constructed only into raw storage (retain off: every C++ ring). */
  lemma ConstructsOnRaw(c: Config, tr: seq<State>, j: nat, t: Tid)
    requires Run(c, tr) && j < |tr| && !c.retain && Sized(c, tr[j].q)
    requires t < |tr[j].threads| && tr[j].threads[t].pc.Write?
    ensures tr[j].q.cells[Slot(c.n, tr[j].threads[t].pc.pos)] == Raw
  {
    RunInv(c, tr, j);
    NearOf(c, tr[j], t, tr[j].threads[t].pc.pos);
  }

  /** A consumer reads and destroys the very object that its position's producer built. */
  lemma ReadsTheObject(c: Config, tr: seq<State>, j: nat, t: Tid)
    requires Run(c, tr) && j < |tr| && Sized(c, tr[j].q)
    requires t < |tr[j].threads| && (tr[j].threads[t].pc.Read? || tr[j].threads[t].pc.Clear?)
    ensures var q := tr[j].q; var pos := tr[j].threads[t].pc.pos;
            pos < |q.log| && q.cells[Slot(c.n, pos)] == Obj(q.log[pos].v)
            && (tr[j].threads[t].pc.Clear? ==> tr[j].threads[t].pc.got == Obj(q.log[pos].v))
  {
    RunInv(c, tr, j);
    NearOf(c, tr[j], t, tr[j].threads[t].pc.pos);
  }

  /**
   * A payload changes only under the thread that holds its slot: its producer puts
   * its own value where there was none, its consumer takes away the very object
   * that the producer put there, and a panicking fill gives up what it scribbled.
   */
  lemma PayloadChanges(c: Config, tr: seq<State>, j: nat, t: Tid, k: Choice, i: nat)
    requires Run(c, tr) && j < |tr| && Sized(c, tr[j].q) && t < |tr[j].threads| && i < c.n
    requires var q' := Step(c, tr[j], t, k).q; |q'.cells| == c.n && q'.cells[i] != tr[j].q.cells[i]
    ensures var pc := tr[j].threads[t].pc; var q, q' := tr[j].q, Step(c, tr[j], t, k).q;
            && AtPayload(pc) && i == Slot(c.n, pc.pos) && pc.pos < |q.log|
            && (var e := q.log[pc.pos];
                || (pc.Write? && e.owner == t && q'.cells[i] == Obj(e.v) && (c.retain || q.cells[i] == Raw))
                || (pc.Fill? && e.owner == t && e.kind.Func? && q'.cells[i].Obj?)
                || (pc.TombWrite? && e.owner == t && e.kind.Func? && q'.cells[i] == Raw)
                || (pc.Clear? && e.taker == t && q.cells[i] == Obj(e.v) && q'.cells[i] == Raw))
  {
    RunInv(c, tr, j);
    var s := tr[j];
    OnlyHoldersWrite(c, s, t, k, i);
    NearOf(c, s, t, s.threads[t].pc.pos);
    HolderWrites(c, s, t, k, s.threads[t].pc.pos);
    hide Step;
  }

  lemma OnlyHoldersWrite(c: Config, s: State, t: Tid, k: Choice, i: nat)
    requires Sized(c, s.q) && t < |s.threads| && i < c.n
    requires var q' := Step(c, s, t, k).q; |q'.cells| == c.n && q'.cells[i] != s.q.cells[i]
    ensures var pc := s.threads[t].pc; (pc.Write? || pc.Fill? || pc.TombWrite? || pc.Clear?) && i == Slot(c.n, pc.pos)
  {
    var pc := s.threads[t].pc;
    if !(pc.Write? || pc.Fill? || pc.TombWrite? || pc.Clear?) {
      OthersLeaveCells(c, s, t, k);
      hide Step;
    }
    hide Slot;
  }

  lemma OthersLeaveCells(c: Config, s: State, t: Tid, k: Choice)
    requires Sized(c, s.q) && t < |s.threads|
    requires var pc := s.threads[t].pc; !pc.Write? && !pc.Fill? && !pc.TombWrite? && !pc.Clear?
    ensures Step(c, s, t, k).q.cells == s.q.cells
  {
    hide Slot;
  }

  lemma HolderWrites(c: Config, s: State, t: Tid, k: Choice, pos: nat)
    requires Near(c, s, t, pos)
    ensures var pc := s.threads[t].pc; var e, i := s.q.log[pos], Slot(c.n, pos); var q' := Step(c, s, t, k).q;
            && |q'.cells| == c.n
            && (pc.Write? ==> e.owner == t && q'.cells[i] == Obj(e.v) && (c.retain || s.q.cells[i] == Raw))
            && (pc.Fill? && q'.cells[i] != s.q.cells[i] ==> e.owner == t && e.kind.Func? && q'.cells[i].Obj?)
            && (pc.TombWrite? ==> e.owner == t && e.kind.Func? && q'.cells[i] == Raw)
            && (pc.Clear? && q'.cells[i] != s.q.cells[i] ==> e.taker == t && s.q.cells[i] == Obj(e.v) && q'.cells[i] == Raw)
  {
    if s.threads[t].pc.Clear? {
      ClearerWrites(c, s, t, k, pos);
      hide Step, Near;
    }
  }

  lemma ClearerWrites(c: Config, s: State, t: Tid, k: Choice, pos: nat)
    requires Near(c, s, t, pos) && s.threads[t].pc.Clear?
    ensures var e, i := s.q.log[pos], Slot(c.n, pos); var q' := Step(c, s, t, k).q;
            && |q'.cells| == c.n && (q'.cells[i] != s.q.cells[i] ==> e.taker == t && s.q.cells[i] == Obj(e.v) && q'.cells[i] == Raw)
  {
  }

  // ---------------------------------------------------- constructions and destructions

  // In the step from s to s', thread t completes the object of position p.
  predicate MakesAt(s: State, s': State, t: Tid, p: nat) {
    && t < |s.threads| && t < |s'.threads| && (s.threads[t].pc.Write? || s.threads[t].pc.Fill?) && s.threads[t].pc.pos == p
    && s'.threads[t].pc == Store(p)
  }

  // In it thread t, having read the object of position p, destroys it.
  predicate UnmakesAt(s: State, s': State, t: Tid, p: nat) {
    t < |s.threads| && t < |s'.threads| && s.threads[t].pc.Clear? && s.threads[t].pc.pos == p && s'.threads[t].pc.Release?
  }

  ghost predicate Makes(s: State, s': State, p: nat) { exists t :: MakesAt(s, s', t, p) }

  ghost predicate Unmakes(s: State, s': State, p: nat) { exists t :: UnmakesAt(s, s', t, p) }

  /** How often an object has been built at position p, in the first j steps of the run. */
  ghost function Built(tr: seq<State>, j: nat, p: nat): nat
    requires j < |tr|
  {
    if j == 0 then 0 else Built(tr, j - 1, p) + if Makes(tr[j - 1], tr[j], p) then 1 else 0
  }

  /** How often a consumer has destroyed one there. */
  ghost function Destroyed(tr: seq<State>, j: nat, p: nat): nat
    requires j < |tr|
  {
    if j == 0 then 0 else Destroyed(tr, j - 1, p) + if Unmakes(tr[j - 1], tr[j], p) then 1 else 0
  }

  // Position p is past the end of its producer's construction.
  predicate Made(q: Shared, p: nat) { p < |q.log| && (q.log[p].phase.Written? || (Shown(q.log[p].phase) && !q.log[p].dead)) }

  // It is past its consumer's Clear.
  predicate Unmade(q: Shared, p: nat) { p < |q.log| && !q.log[p].dead && (q.log[p].phase.Cleared? || q.log[p].phase.Released?) }

  // What one step does to the life of position p.
  predicate Lives(s: State, s': State, t: Tid, p: nat) {
    && (Made(s'.q, p) <==> Made(s.q, p) || MakesAt(s, s', t, p)) && !(Made(s.q, p) && MakesAt(s, s', t, p))
    && (Unmade(s'.q, p) <==> Unmade(s.q, p) || UnmakesAt(s, s', t, p)) && !(Unmade(s.q, p) && UnmakesAt(s, s', t, p))
  }

  lemma OwnerLives(c: Config, s: State, t: Tid, k: Choice, pos: nat)
    requires Near(c, s, t, pos) && ProducerHolds(s.threads[t].pc)
    ensures Lives(s, Step(c, s, t, k), t, pos)
  {
  }

  lemma TakerLives(c: Config, s: State, t: Tid, k: Choice, pos: nat)
    requires Near(c, s, t, pos) && ConsumerHolds(s.threads[t].pc)
    ensures Lives(s, Step(c, s, t, k), t, pos)
  {
  }

  // A holder's step leaves the lives of the other positions alone.
  lemma OtherLives(c: Config, s: State, s': State, t: Tid, pos: nat, p: nat)
    requires Touches(c, s.q, s'.q, pos) && p != pos && t < |s.threads| && Holds(s.threads[t].pc) && s.threads[t].pc.pos == pos
    ensures Lives(s, s', t, p)
  {
  }

  lemma ClaimLives(c: Config, s: State, t: Tid, k: Choice, p: nat)
    requires Sized(c, s.q) && t < |s.threads| && s.threads[t].pc.PopCas? && s.threads[t].pc.pos == s.q.head
    requires PcOk(c, s.q, t, s.threads[t].pc) && s.q.head < |s.q.log| && EntryOk(c, s.q, s.q.head)
    ensures Lives(s, Step(c, s, t, k), t, p)
  {
  }

  lemma RestLives(c: Config, s: State, t: Tid, k: Choice, p: nat)
    requires Sized(c, s.q) && t < |s.threads|
    requires !Holds(s.threads[t].pc) && !(s.threads[t].pc.PopCas? && s.threads[t].pc.pos == s.q.head)
    ensures Lives(s, Step(c, s, t, k), t, p)
  {
  }

  lemma StepLives(c: Config, s: State, t: Tid, k: Choice, p: nat)
    requires Inv(c, s) && t < |s.threads|
    ensures Lives(s, Step(c, s, t, k), t, p)
  {
    var pc := s.threads[t].pc;
    assert PcOk(c, s.q, t, pc);
    if Holds(pc) { HolderLives(c, s, t, k, p); }
    else if pc.PopCas? && pc.pos == s.q.head {
      assert EntryOk(c, s.q, pc.pos);
      ClaimLives(c, s, t, k, p);
    } else { RestLives(c, s, t, k, p); }
    hide Step, Lives;
  }

  lemma HolderLives(c: Config, s: State, t: Tid, k: Choice, p: nat)
    requires Inv(c, s) && t < |s.threads| && Holds(s.threads[t].pc)
    ensures Lives(s, Step(c, s, t, k), t, p)
  {
    var pos, s' := s.threads[t].pc.pos, Step(c, s, t, k);
    NearOf(c, s, t, pos);
    if s' == s {}
    else if p == pos { if ProducerHolds(s.threads[t].pc) { OwnerLives(c, s, t, k, pos); } else { TakerLives(c, s, t, k, pos); } }
    else {
      if ProducerHolds(s.threads[t].pc) { OwnerTouch(c, s, t, k, pos); } else { TakerTouch(c, s, t, k, pos); }
      OtherLives(c, s, s', t, pos, p);
    }
    hide Step;
  }

  // Only the thread that moves makes or unmakes.
  lemma OnlyTheMover(c: Config, s: State, t: Tid, k: Choice, u: Tid, p: nat)
    requires Sized(c, s.q) && t < |s.threads| && u != t
    ensures !MakesAt(s, Step(c, s, t, k), u, p) && !UnmakesAt(s, Step(c, s, t, k), u, p)
  {
  }

  lemma NextLives(c: Config, s: State, s': State, p: nat)
    requires Inv(c, s) && Next(c, s, s')
    ensures (Made(s'.q, p) <==> Made(s.q, p) || Makes(s, s', p)) && !(Made(s.q, p) && Makes(s, s', p))
    ensures (Unmade(s'.q, p) <==> Unmade(s.q, p) || Unmakes(s, s', p)) && !(Unmade(s.q, p) && Unmakes(s, s', p))
  {
    if s' == s {
      forall u ensures !MakesAt(s, s', u, p) && !UnmakesAt(s, s', u, p) {}
    } else {
      var t: Tid, k: Choice :| t < |s.threads| && s' == Step(c, s, t, k);
      StepLives(c, s, t, k, p);
      forall u: Tid | u != t ensures !MakesAt(s, s', u, p) && !UnmakesAt(s, s', u, p) { OnlyTheMover(c, s, t, k, u, p); }
    }
    hide Step, MakesAt, UnmakesAt, Made, Unmade, Inv;
  }

  /**
   * Over every run, each position has been built once if its producer is past the
   * construction and never before, and destroyed once if its consumer is past its
   * Clear and never before: no object is built twice or destroyed twice, and a
   * tombstone's slot is neither built nor destroyed.
   */
  lemma {:induction false} LivesOnce(c: Config, tr: seq<State>, j: nat, p: nat)
    requires Run(c, tr) && j < |tr|
    ensures Built(tr, j, p) == if Made(tr[j].q, p) then 1 else 0
    ensures Destroyed(tr, j, p) == if Unmade(tr[j].q, p) then 1 else 0
  {
    hide Inv, Next;
    if j > 0 {
      LivesOnce(c, tr, j - 1, p);
      RunInv(c, tr, j - 1);
      assert NextAt(c, tr, j - 1);
      NextLives(c, tr[j - 1], tr[j], p);
    }
  }

  // The object of position p exists.
  predicate Present(c: Config, q: Shared, p: nat)
    requires Sized(c, q)
  {
    q.turn[Slot(c.n, p)] == p && q.cells[Slot(c.n, p)].Obj?
  }

  /**
   * The objects built and not yet destroyed are the objects in the slots, each in
   * its position's slot with its producer's value (retain off, and no callback at
   * work on the slot: every C++ ring).
   */
  lemma BuiltMinusDestroyed(c: Config, tr: seq<State>, j: nat, p: nat)
    requires Run(c, tr) && j < |tr| && !c.retain && Sized(c, tr[j].q)
    requires p < |tr[j].q.log| && tr[j].q.log[p].phase.Ready? ==> tr[j].q.log[p].kind.Plain?
    ensures Built(tr, j, p) - Destroyed(tr, j, p) == if Present(c, tr[j].q, p) then 1 else 0
    ensures Present(c, tr[j].q, p) ==> p < |tr[j].q.log| && tr[j].q.cells[Slot(c.n, p)] == Obj(tr[j].q.log[p].v)
  {
    LivesOnce(c, tr, j, p);
    RunInv(c, tr, j);
    var q := tr[j].q;
    assert SlotOk(c, q, Slot(c.n, p));
    if p < |q.log| { assert EntryOk(c, q, p); }
  }

  // The position at slot i is published, alive and not claimed.
  predicate Unclaimed(q: Shared, p: nat) {
    q.head <= p < |q.log| && !q.log[p].dead
  }

  lemma QuiescentSlot(c: Config, s: State, i: nat)
    requires Inv(c, s) && AllIdle(s) && i < c.n
    ensures var at := s.q.turn[i];
            if at < |s.q.log| then at >= s.q.head && s.q.log[at].phase.Public? && s.q.stamps[i] == Stamp(at + 1, s.q.log[at].dead)
                                   && (if s.q.log[at].dead then c.retain || s.q.cells[i] == Raw else s.q.cells[i] == Obj(s.q.log[at].v))
            else c.retain || s.q.cells[i] == Raw
  {
    assert SlotOk(c, s.q, i);
    if s.q.turn[i] < |s.q.log| {
      assert EntryOk(c, s.q, s.q.turn[i]) && Held(s.q, s.threads, s.q.turn[i]);
    }
  }

  lemma QuiescentEntry(c: Config, s: State, p: nat)
    requires Inv(c, s) && AllIdle(s) && s.q.head <= p < |s.q.log|
    ensures s.q.turn[Slot(c.n, p)] == p
  {
    assert EntryOk(c, s.q, p) && Held(s.q, s.threads, p);
  }

  lemma QuiescentBounds(c: Config, s: State)
    requires Inv(c, s) && AllIdle(s) && c.rule.CppRule?
    ensures Sized(c, s.q) && s.q.head <= |s.q.log| == s.q.tail
    ensures forall i | 0 <= i < c.n :: s.q.turn[i] >= s.q.head && Slot(c.n, s.q.turn[i]) == i
  {
    forall i | 0 <= i < c.n ensures s.q.turn[i] >= s.q.head && Slot(c.n, s.q.turn[i]) == i {
      QuiescentSlot(c, s, i);
      assert SlotOk(c, s.q, i);
    }
  }

  // The walk has come to pos: ps are the objects before it, in order.
  ghost predicate Walked(c: Config, q: Shared, ps: seq<nat>, pos: nat) {
    && Sized(c, q)
    && (forall p | 0 <= p :: p in ps <==> Unclaimed(q, p) && p < pos)
    && (forall a, b | 0 <= a < b < |ps| :: ps[a] < ps[b])
    && forall a | 0 <= a < |ps| :: Unclaimed(q, ps[a]) && q.cells[Slot(c.n, ps[a])] == Obj(q.log[ps[a]].v)
  }

  lemma WalkedOn(c: Config, q: Shared, ps: seq<nat>, pos: nat)
    requires Walked(c, q, ps, pos) && q.head <= pos < |q.log|
    ensures Unclaimed(q, pos) && q.cells[Slot(c.n, pos)] == Obj(q.log[pos].v) ==> Walked(c, q, ps + [pos], pos + 1)
    ensures !Unclaimed(q, pos) ==> Walked(c, q, ps, pos + 1)
  {
    forall a | 0 <= a < |ps| ensures ps[a] < pos { assert ps[a] in ps; }
  }

  // The destructor's loop, from the head to the tail.
  method Walk(c: Config, s: State, cells: array<Cell>) returns (destroyed: seq<nat>)
    requires Inv(c, s) && AllIdle(s) && c.rule.CppRule? && !c.retain
    requires cells[..] == s.q.cells
    modifies cells
    ensures forall i | 0 <= i < cells.Length :: cells[i] == Raw
    ensures Walked(c, s.q, destroyed, |s.q.log|)
  {
    var q := s.q;
    destroyed := [];
    var pos := q.head;
    QuiescentBounds(c, s);
    hide Inv, AllIdle;
    while pos != q.tail
      invariant q.head <= pos <= q.tail && cells.Length == c.n
      invariant forall i | 0 <= i < c.n :: cells[i] == if q.turn[i] < pos then Raw else q.cells[i]
      invariant Walked(c, q, destroyed, pos)
      decreases q.tail - pos
    {
      var i := Slot(c.n, pos);
      QuiescentEntry(c, s, pos);
      QuiescentSlot(c, s, i);
      WalkedOn(c, q, destroyed, pos);
      hide Walked;
      if q.stamps[i] == Stamp(pos + 1, false) {
        assert cells[i].Obj?;
        cells[i] := Raw;
        destroyed := destroyed + [pos];
      }
      pos := pos + 1;
    }
    hide Walked;
    forall i | 0 <= i < c.n ensures cells[i] == Raw { QuiescentSlot(c, s, i); }
  }

  /**
   * ~Queue: after every operation has returned, the walk destroys exactly the
   * published, unclaimed objects, in order, each of them once; it never takes a
   * tombstone or raw storage for an object, and leaves none behind. So every object
   * built in the run has been destroyed exactly once, by a consumer or here.
   */
  method Destroy(c: Config, ghost tr: seq<State>, s: State, cells: array<Cell>) returns (destroyed: seq<nat>)
    requires Run(c, tr) && s == tr[|tr| - 1] && AllIdle(s) && c.rule.CppRule? && !c.retain
    requires cells[..] == s.q.cells && cells.Length == c.n
    modifies cells
    ensures forall i | 0 <= i < cells.Length :: cells[i] == Raw
    ensures forall p | 0 <= p :: p in destroyed <==> Unclaimed(s.q, p)
    ensures forall a, b | 0 <= a < b < |destroyed| :: destroyed[a] < destroyed[b]
    ensures forall a | 0 <= a < |destroyed| ::
              Unclaimed(s.q, destroyed[a]) && old(cells[..])[Slot(c.n, destroyed[a])] == Obj(s.q.log[destroyed[a]].v)
    ensures forall p: nat :: Built(tr, |tr| - 1, p) == Destroyed(tr, |tr| - 1, p) + multiset(destroyed)[p]
  {
    RunInv(c, tr, |tr| - 1);
    destroyed := Walk(c, s, cells);
    forall p: nat ensures Built(tr, |tr| - 1, p) == Destroyed(tr, |tr| - 1, p) + multiset(destroyed)[p] {
      OnceInAll(c, tr, destroyed, p);
    }
  }

  lemma OnceInAll(c: Config, tr: seq<State>, destroyed: seq<nat>, p: nat)
    requires Run(c, tr) && AllIdle(tr[|tr| - 1])
    requires p in destroyed <==> Unclaimed(tr[|tr| - 1].q, p)
    requires forall a, b | 0 <= a < b < |destroyed| :: destroyed[a] < destroyed[b]
    ensures Built(tr, |tr| - 1, p) == Destroyed(tr, |tr| - 1, p) + multiset(destroyed)[p]
  {
    var s := tr[|tr| - 1];
    hide Inv, Run, AllIdle;
    RunInv(c, tr, |tr| - 1);
    LivesOnce(c, tr, |tr| - 1, p);
    CountsOnce(destroyed, p);
    if p < |s.q.log| { QuiescentLife(c, s, p); }
  }

  lemma QuiescentLife(c: Config, s: State, p: nat)
    requires Inv(c, s) && AllIdle(s) && p < |s.q.log|
    ensures Made(s.q, p) <==> Unmade(s.q, p) || Unclaimed(s.q, p)
    ensures !(Unmade(s.q, p) && Unclaimed(s.q, p))
  {
    assert EntryOk(c, s.q, p) && Held(s.q, s.threads, p);
  }

  lemma {:induction false} CountsOnce(ps: seq<nat>, p: nat)
    requires forall a, b | 0 <= a < b < |ps| :: ps[a] < ps[b]
    ensures multiset(ps)[p] == if p in ps then 1 else 0
  {
    if ps != [] {
      assert ps == [ps[0]] + ps[1..];
      CountsOnce(ps[1..], p);
    }
  }
}

/**
 * Go's Ring in its own form, arrays and counters, run one call at a time: the
 * lap-stamped slots behave as the bounded FIFO. Ring and the modules after it
 * interleave the same operations; here the exits that only a rival thread can
 * cause, a lost compare-and-swap and a stale counter, do not arise.
 */
module Turnstile {
  import opened Options
  import opened Slots
  import opened Windows
  import opened Fifo
  import R = Ring

  type Stamp = R.Stamp

  // A tombstone is None.
  function Entry<T>(stamp: Stamp, val: T): Option<T> { if stamp.dead then None else Some(val) }

  function Entries<T>(stamps: seq<Stamp>, vals: seq<T>): seq<Option<T>>
    requires |stamps| == |vals|
  {
    seq(|vals|, (i: nat) requires i < |vals| => Entry(stamps[i], vals[i]))
  }

  lemma EntriesAt<T>(stamps: seq<Stamp>, vals: seq<T>, i: nat)
    requires i < |stamps| == |vals|
    ensures Entries(stamps, vals)[i] == Entry(stamps[i], vals[i])
  {
  }

  /** Leaves out the tombstones. */
  function Values<T>(es: seq<Option<T>>): seq<T> {
    if es == [] then [] else (if es[0].Some? then [es[0].value] else []) + Values(es[1..])
  }

  lemma {:induction false} ValuesAppend<T>(a: seq<Option<T>>, b: seq<Option<T>>)
    ensures Values(a + b) == Values(a) + Values(b)
  {
    if a == [] {
      assert a + b == b;
    } else {
      assert (a + b)[1..] == a[1..] + b && (a + b)[0] == a[0];
      ValuesAppend(a[1..], b);
    }
  }

  class Ring<T(0)> {
    const stamps: array<Stamp>
    const vals: array<T>
    const zero: T
    const retain: bool
    var tail: nat
    var closed: bool
    var head: nat
    var closedAt: nat       // 1 + the tail's position when Close set the bit; 0 before

    // Where the positions that somebody is owed end: refused tickets go past it.
    ghost function End(): nat
      reads this
    {
      if closed && closedAt > 0 then closedAt - 1 else tail
    }

    // Positions published and not claimed, then positions free for their producer.
    ghost predicate Valid()
      reads this, stamps
    {
      && (stamps as object) != vals && stamps.Length == vals.Length >= 2 && (closed <==> closedAt > 0)
      && head <= End() <= tail && End() <= head + stamps.Length
      && (forall p {:trigger Slot(stamps.Length, p)} | head <= p < End() :: stamps[Slot(stamps.Length, p)].pos == p + 1)
      && (forall p {:trigger Slot(stamps.Length, p)} | End() <= p < head + stamps.Length :: stamps[Slot(stamps.Length, p)] == R.Stamp(p, false))
    }

    /** The reserved positions in order, tombstones among them. */
    ghost function Reserved(): seq<Option<T>>
      requires Valid()
      reads this, stamps, vals
    {
      Window(Entries(stamps[..], vals[..]), head, End() - head)
    }

    /** As a FIFO: the values, without the tombstones. */
    ghost function Model(): Queue<T>
      requires Valid()
      reads this, stamps, vals
    {
      Queue(Values(Reserved()), stamps.Length, closed)
    }

    constructor (capacity: nat, zeroValue: T, keep: bool)
      requires capacity >= 2
      ensures Valid() && fresh(stamps) && fresh(vals) && stamps.Length == capacity
      ensures Reserved() == [] && !closed && zero == zeroValue && retain == keep
    {
      stamps := new Stamp[capacity](i => R.Stamp(i, false));
      vals := new T[capacity];
      zero, retain := zeroValue, keep;
      tail, closed, head, closedAt := 0, false, 0, 0;
      new;
      forall p | 0 <= p < capacity ensures stamps[Slot(capacity, p)] == R.Stamp(p, false) {}
    }

    // claim: the position, if it is given one.
    method Claim() returns (pos: nat, r: PushResult)
      requires Valid()
      modifies this`tail
      ensures r.PushClosed? <==> closed
      ensures r.PushFull? <==> !closed && |old(Reserved())| == stamps.Length
      ensures r.PushOK? ==> pos == old(tail) && tail == pos + 1
      ensures !r.PushOK? ==> tail == old(tail)
    {
      if closed { return 0, PushClosed; }
      pos := tail;
      var seen := stamps[Slot(stamps.Length, pos)].pos;
      if seen == pos {
        if pos == head + stamps.Length { FullSlot(); }
        tail := pos + 1;
        return pos, PushOK;
      }
      if pos < head + stamps.Length { assert false; }
      FullSlot();
      return pos, PushFull;
    }

    // In a full ring the tail's slot still holds the position one lap back.
    lemma FullSlot()
      requires Valid() && End() == head + stamps.Length
      ensures stamps[Slot(stamps.Length, End())].pos == head + 1 < End()
    {
      assert Slot(stamps.Length, End()) == Slot(stamps.Length, head);
    }

    // publish, or the deferred tombstone: the slot's value, and then its stamp.
    method Publish(ghost was: seq<Option<T>>, pos: nat, e: Option<T>)
      requires (stamps as object) != vals && stamps.Length == vals.Length >= 2 && !closed && closedAt == 0 && head <= pos < head + stamps.Length && tail == pos + 1
      requires forall p {:trigger Slot(stamps.Length, p)} | head <= p < pos :: stamps[Slot(stamps.Length, p)].pos == p + 1
      requires forall p {:trigger Slot(stamps.Length, p)} | pos <= p < head + stamps.Length :: stamps[Slot(stamps.Length, p)] == R.Stamp(p, false)
      requires was == Window(Entries(stamps[..], vals[..]), head, pos - head)
      modifies stamps, vals
      ensures Valid() && Reserved() == was + [e]
    {
      var i := Slot(stamps.Length, pos);
      ghost var before, s0, v0 := Entries(stamps[..], vals[..]), stamps[..], vals[..];
      vals[i] := if e.Some? then e.value else zero;
      stamps[i] := R.Stamp(pos + 1, e.None?);
      forall p | head <= p < head + stamps.Length && p != pos
        ensures Slot(stamps.Length, p) != i
      {
        if Slot(stamps.Length, p) == i { SameSlot(stamps.Length, p, pos); }
      }
      WindowPush(before, head, pos - head, e);
      hide Window;
      forall j | 0 <= j < stamps.Length ensures Entries(stamps[..], vals[..])[j] == before[i := e][j] {
        EntriesAt(stamps[..], vals[..], j);
        EntriesAt(s0, v0, j);
      }
    }

    /** The FIFO's push, as long as no tombstone holds a slot. */
    method TryPush(v: T) returns (r: PushResult)
      requires Valid()
      modifies this`tail, stamps, vals
      ensures Valid()
      ensures r.PushClosed? <==> closed
      ensures r.PushFull? <==> !closed && |old(Reserved())| == stamps.Length
      ensures Reserved() == if r.PushOK? then old(Reserved()) + [Some(v)] else old(Reserved())
      ensures |old(Model()).items| == |old(Reserved())| ==> old(Model()).Push(v) == (Model(), r)
    {
      ghost var was := Reserved();
      r := Reserve(Some(v));
      ValuesAppend(was, [Some(v)]);
      assert [Some(v)][1..] == [] && Values([Some(v)]) == [v];
      assert |was| <= stamps.Length;
    }

    // filled: what fill leaves in the slot, or None if it panics.
    method TryPushFunc(filled: Option<T>) returns (r: PushResult)
      requires Valid()
      modifies this`tail, stamps, vals
      ensures Valid()
      ensures r.PushClosed? <==> closed
      ensures r.PushFull? <==> !closed && |old(Reserved())| == stamps.Length
      ensures Reserved() == if r.PushOK? then old(Reserved()) + [filled] else old(Reserved())
    {
      r := Reserve(filled);
    }

    method Reserve(e: Option<T>) returns (r: PushResult)
      requires Valid()
      modifies this`tail, stamps, vals
      ensures Valid()
      ensures r.PushClosed? <==> closed
      ensures r.PushFull? <==> !closed && |old(Reserved())| == stamps.Length
      ensures Reserved() == if r.PushOK? then old(Reserved()) + [e] else old(Reserved())
    {
      ghost var was := Reserved();
      var pos: nat;
      pos, r := Claim();
      if r.PushOK? { Publish(was, pos, e); }
    }

    // The head has just moved past pos, whose slot is still held.
    ghost predicate Claimed(pos: nat)
      reads this, stamps
    {
      && (stamps as object) != vals && stamps.Length == vals.Length >= 2 && (closed <==> closedAt > 0)
      && head == pos + 1 <= End() <= tail && End() <= pos + stamps.Length
      && (forall p {:trigger Slot(stamps.Length, p)} | head <= p < End() :: stamps[Slot(stamps.Length, p)].pos == p + 1)
      && (forall p {:trigger Slot(stamps.Length, p)} | End() <= p < pos + stamps.Length :: stamps[Slot(stamps.Length, p)] == R.Stamp(p, false))
    }

    // The slot goes to the producer one lap on.
    method Release(pos: nat)
      requires Claimed(pos)
      modifies stamps
      ensures Valid()
      ensures forall i | 0 <= i < stamps.Length && i != Slot(stamps.Length, pos) :: stamps[i] == old(stamps[i])
    {
      var i := Slot(stamps.Length, pos);
      stamps[i] := R.Stamp(pos + stamps.Length, false);
      forall p | head <= p < pos + stamps.Length ensures Slot(stamps.Length, p) != i {
        if Slot(stamps.Length, p) == i { SameSlot(stamps.Length, p, pos); }
      }
      assert Slot(stamps.Length, pos + stamps.Length) == i;
    }

    // consume, once the value has been read: clear the slot, and release it.
    method Consume(pos: nat)
      requires Claimed(pos)
      modifies stamps, vals
      ensures Valid()
      ensures forall i | 0 <= i < stamps.Length && i != Slot(stamps.Length, pos) :: stamps[i] == old(stamps[i]) && vals[i] == old(vals[i])
    {
      if !retain { vals[Slot(stamps.Length, pos)] := zero; }
      Release(pos);
    }

    // The claim of the head, and then consume, or release alone for a tombstone.
    method ClaimHead() returns (e: Option<T>)
      requires Valid() && head < End()
      modifies this`head, stamps, vals
      ensures Valid() && head == old(head) + 1 && End() == old(End())
      ensures old(Reserved()) == [e] + Reserved()
    {
      var pos := head;
      ghost var before := Entries(stamps[..], vals[..]);
      Front();
      forall j | 0 <= j < stamps.Length ensures before[j] == Entry(stamps[j], vals[j]) { EntriesAt(stamps[..], vals[..], j); }
      var i := Slot(stamps.Length, pos);
      e := Entry(stamps[i], vals[i]);
      head := pos + 1;
      if e.Some? { Consume(pos); } else { Release(pos); }
      hide Window, Entries;
      Untouched(before, pos);
    }

    lemma Front()
      requires Valid() && head < End()
      ensures var i := Slot(stamps.Length, head);
        Reserved() == [Entry(stamps[i], vals[i])] + Window(Entries(stamps[..], vals[..]), head + 1, End() - (head + 1))
    {
      var es := Entries(stamps[..], vals[..]);
      EntriesAt(stamps[..], vals[..], Slot(stamps.Length, head));
      hide Entries, Slot;
      WindowPop(es, head, End() - head, 1);
      WindowAt(es, head, End() - head, 0);
      assert Reserved() == [Reserved()[0]] + Reserved()[1..];
    }

    /** The oldest value, past any tombstones, which are skipped and released. */
    method TryPop() returns (r: PopResult<T>)
      requires Valid()
      modifies this`head, stamps, vals
      ensures Valid() && Model() == old(Model()).Pop().0
      ensures r == if old(Model()).Pop().1.PopOK? then old(Model()).Pop().1 else PopEmpty
      ensures r.PopEmpty? ==> Reserved() == []
    {
      var pos := head;
      while true
        invariant Valid() && pos == head && End() == old(End())
        invariant Values(Reserved()) == Values(old(Reserved()))
        decreases End() - head
      {
        var raw := stamps[Slot(stamps.Length, pos)];
        if raw.pos != pos + 1 {
          assert Reserved() == [];
          return PopEmpty;
        }
        if pos == End() { assert false; }
        var e := ClaimHead();
        if e.Some? {
          assert old(Model()).items == [e.value] + Model().items;
          return PopOK(e.value);
        }
        pos := pos + 1;
      }
    }

    // Work on the claimed slot leaves the rest of the window as it was.
    lemma Untouched(before: seq<Option<T>>, pos: nat)
      requires Valid() && head == pos + 1 && End() <= pos + stamps.Length && |before| == stamps.Length
      requires forall i | 0 <= i < stamps.Length && i != Slot(stamps.Length, pos) :: Entry(stamps[i], vals[i]) == before[i]
      ensures Reserved() == Window(before, head, End() - head)
    {
      forall j | 0 <= j < End() - head ensures Reserved()[j] == Window(before, head, End() - head)[j] {
        var i := Slot(stamps.Length, head + j);
        if i == Slot(stamps.Length, pos) { SameSlot(stamps.Length, head + j, pos); }
        WindowAt(Entries(stamps[..], vals[..]), head, End() - head, j);
        WindowAt(before, head, End() - head, j);
        EntriesAt(stamps[..], vals[..], i);
      }
    }

    /** Pop's test: closed, and everything up to the close position claimed. */
    method IsDrained() returns (drained: bool)
      requires Valid()
      ensures drained <==> closed && Reserved() == []
    {
      if !closed { return false; }
      return closedAt != 0 && head == closedAt - 1;
    }

    /** A ticket taken after the close is refused and touches nothing but the tail. */
    method RefusedTicket() returns (r: PushResult)
      requires Valid() && closed
      modifies this`tail
      ensures Valid() && r.PushClosed? && Reserved() == old(Reserved()) && closedAt == old(closedAt)
    {
      tail := tail + 1;
      return PushClosed;
    }

    /** Idempotent: the first call fixes the close position. */
    method Close()
      requires Valid()
      modifies this`closed, this`closedAt
      ensures Valid() && closed && Reserved() == old(Reserved())
      ensures closedAt == if old(closed) then old(closedAt) else tail + 1
    {
      if !closed {
        closed := true;
        closedAt := tail + 1;
      }
    }
  }
}

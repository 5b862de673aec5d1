/** The ring under one lock. A call is its critical section; a wait ends by the deadline. */
module MutexQueue {
  import opened Slots
  import opened Windows
  import opened Fifo

  lemma {:induction false} SlotOfSlot(n: nat, h: nat, i: nat)
    requires n > 0
    ensures Slot(n, Slot(n, h) + i) == Slot(n, h + i)
    decreases h
  {
    if h >= n {
      SlotOfSlot(n, h - n, i);
      assert h + i - n == h - n + i;
    }
  }

  /** Reducing the head changes nothing that is read through it. */
  lemma WindowOfSlot<T>(s: seq<T>, h: nat, len: nat)
    requires |s| > 0
    ensures Window(s, Slot(|s|, h), len) == Window(s, h, len)
  {
    forall i | 0 <= i < len ensures Window(s, Slot(|s|, h), len)[i] == Window(s, h, len)[i] { SlotOfSlot(|s|, h, i); }
  }

  class MutexQueue<T(0)> {
    const ring: array<T>
    var head: nat
    var size: nat
    var closed: bool

    ghost predicate Valid()
      reads this
    {
      ring.Length > 0 && head < ring.Length && size <= ring.Length
    }

    ghost function Model(): Queue<T>
      requires Valid()
      reads this, ring
    {
      Queue(Window(ring[..], head, size), ring.Length, closed)
    }

    constructor (n: nat)
      requires n > 0
      ensures Valid() && fresh(ring) && Model() == Queue([], n, false)
    {
      ring := new T[n];
      head, size, closed := 0, 0, false;
    }

    method Put(v: T)
      requires Valid() && size < ring.Length
      modifies this`size, ring
      ensures Valid() && Model() == old(Model()).(items := old(Model()).items + [v]) && size == old(size) + 1
    {
      WindowPush(ring[..], head, size, v);
      ring[Slot(ring.Length, head + size)] := v;
      size := size + 1;
    }

    method Take() returns (v: T)
      requires Valid() && size > 0
      modifies this`head, this`size
      ensures Valid() && old(Model()).Pop() == (Model(), PopOK(v)) && size == old(size) - 1
    {
      ghost var was := Model().items;
      v := ring[head];
      WindowAt(ring[..], head, size, 0);
      WindowPop(ring[..], head, size, 1);
      WindowOfSlot(ring[..], head + 1, size - 1);
      head := Slot(ring.Length, head + 1);
      size := size - 1;
      assert Model().items == was[1..];
    }

    method TryPush(v: T) returns (r: PushResult)
      requires Valid()
      modifies this`size, ring
      ensures Valid() && old(Model()).Push(v) == (Model(), r)
    {
      if closed { return PushClosed; }
      if size == ring.Length { return PushFull; }
      Put(v);
      return PushOK;
    }

    // Empty comes before closed: TryPop does not tell a drained queue from an empty one.
    method TryPop() returns (r: PopResult<T>)
      requires Valid()
      modifies this`head, this`size
      ensures Valid() && Model() == old(Model()).Pop().0
      ensures r == if old(Model()).Pop().1.PopOK? then old(Model()).Pop().1 else PopEmpty
    {
      if size == 0 { return PopEmpty; }
      var v := Take();
      return PopOK(v);
    }

    // PopEmpty is the source's timeout.
    method Pop() returns (r: PopResult<T>)
      requires Valid()
      modifies this`head, this`size
      ensures Valid() && old(Model()).Pop() == (Model(), r)
    {
      if size == 0 {
        if closed { return PopDrained; }
        return PopEmpty;
      }
      var v := Take();
      return PopOK(v);
    }

    method PushBatch(items: seq<T>) returns (done: nat)
      requires Valid()
      modifies this`size, ring
      ensures Valid() && old(Model()).PushAll(items) == (Model(), done)
    {
      done := 0;
      if closed { assert Model().items + items[..0] == Model().items; return; }
      ghost var was := Model().items;
      assert was + items[..0] == was;
      while done < |items| && size < ring.Length
        invariant Valid() && !closed && done <= |items| && size == |was| + done
        invariant Model().items == was + items[..done]
      {
        assert items[..done + 1] == items[..done] + [items[done]];
        Put(items[done]);
        done := done + 1;
      }
    }

    method PopBatch(max: nat) returns (out: seq<T>)
      requires Valid()
      modifies this`head, this`size
      ensures Valid() && old(Model()).PopAll(max) == (Model(), out)
    {
      out := [];
      ghost var was := Model().items;
      while |out| < max && size > 0
        invariant Valid() && |out| <= max && |out| + size == |was|
        invariant out == was[..|out|] && Model() == old(Model()).(items := was[|out|..])
      {
        var v := Take();
        assert was[|out|..][1..] == was[|out| + 1..];
        out := out + [v];
      }
    }

    method Close()
      requires Valid()
      modifies this`closed
      ensures Valid() && Model() == old(Model()).(closed := true)
    {
      closed := true;
    }
  }
}

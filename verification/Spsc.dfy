/**
 * The single-producer, single-consumer rings, run one call at a time: a bounded
 * FIFO however stale the cached indices are. Weir and Sharded interleave their steps.
 */
module Spsc {
  import opened Slots
  import opened Windows

  /** Go's SpscRing and its C++ twin. */
  class SpscRing<T(0)> {
    const slots: array<T>
    var tail: nat
    var cachedHead: nat     // the producer's
    var head: nat
    var cachedTail: nat     // the consumer's

    ghost predicate Valid()
      reads this
    {
      slots.Length >= 2 && cachedHead <= head <= cachedTail <= tail <= cachedHead + slots.Length
    }

    ghost function Contents(): seq<T>
      requires Valid()
      reads this, slots
    {
      Window(slots[..], head, tail - head)
    }

    constructor (capacity: nat)
      requires capacity >= 2
      ensures Valid() && fresh(slots) && slots.Length == capacity && Contents() == []
    {
      slots := new T[capacity];
      tail, cachedHead, head, cachedTail := 0, 0, 0, 0;
    }

    /** Refuses exactly when the ring is full, whatever the cached head says. */
    method TryPush(v: T) returns (ok: bool)
      requires Valid()
      modifies this`tail, this`cachedHead, slots
      ensures Valid()
      ensures ok <==> |old(Contents())| < slots.Length
      ensures Contents() == if ok then old(Contents()) + [v] else old(Contents())
    {
      var t := tail;
      if t - cachedHead == slots.Length {
        cachedHead := head;
        if t - cachedHead == slots.Length { return false; }
      }
      WindowPush(slots[..], head, tail - head, v);
      slots[Slot(slots.Length, t)] := v;
      tail := t + 1;
      return true;
    }

    /**
     * Copies the oldest events to out from index at on, at most len; none only if
     * there is none or no room.
     */
    method PopBatch(out: array<T>, at: nat, len: nat) returns (n: nat)
      requires Valid() && out != slots && at + len <= out.Length
      modifies this`head, this`cachedTail, out
      ensures Valid() && n <= len && n <= |old(Contents())|
      ensures n == 0 <==> len == 0 || old(Contents()) == []
      ensures out[..] == old(out[..at]) + old(Contents())[..n] + old(out[at + n..])
      ensures Contents() == old(Contents())[n..]
    {
      ghost var was, before := Contents(), out[..];
      var h := head;
      if h == cachedTail {
        cachedTail := tail;
        if h == cachedTail { return 0; }
      }
      n := len;
      if cachedTail - h < n { n := cachedTail - h; }
      WindowPop(slots[..], h, tail - h, n);
      var i := 0;
      while i < n
        modifies out
        invariant 0 <= i <= n
        invariant forall k | 0 <= k < i :: out[at + k] == was[k]
        invariant forall k | 0 <= k < out.Length && !(at <= k < at + i) :: out[k] == before[k]
      {
        out[at + i] := slots[Slot(slots.Length, h + i)];
        i := i + 1;
      }
      head := h + n;
    }

    /** Refreshes the cached tail. */
    method EmptyNow() returns (empty: bool)
      requires Valid()
      modifies this`cachedTail
      ensures Valid() && Contents() == old(Contents()) && (empty <==> Contents() == [])
      ensures cachedTail == tail
    {
      cachedTail := tail;
      return head == cachedTail;
    }

    method SizeNow() returns (n: nat)
      requires Valid()
      ensures n == |Contents()|
    {
      return tail - head;
    }
  }

  // ------------------------------------------------------------ Python's ring of bytes

  type Byte = bv8

  /** Events one after the other. */
  function Join(cells: seq<seq<Byte>>): seq<Byte> {
    if cells == [] then [] else Join(cells[..|cells| - 1]) + cells[|cells| - 1]
  }

  /** The buffer as a ring of cells of size bytes. */
  function Cells(buf: seq<Byte>, size: nat, cap: nat): (r: seq<seq<Byte>>)
    requires |buf| == cap * size
  {
    seq(cap, (i: nat) requires i < cap => Cell(buf, size, cap, i))
  }

  function Cell(buf: seq<Byte>, size: nat, cap: nat, i: nat): seq<Byte>
    requires |buf| == cap * size && i < cap
  {
    CellFits(size, cap, i);
    buf[i * size..i * size + size]
  }

  lemma CellFits(size: nat, cap: nat, i: nat)
    requires i < cap
    ensures 0 <= i * size <= i * size + size <= cap * size
  {
    assert cap * size == i * size + (cap - i) * size;
    assert (cap - i) * size == size + (cap - i - 1) * size;
  }

  lemma SpanFits(size: nat, cap: nat, a: nat, n: nat)
    requires a + n <= cap
    ensures 0 <= a * size <= (a + n) * size <= cap * size && (a + n) * size == a * size + n * size
  {
    assert cap * size == (a + n) * size + (cap - a - n) * size;
  }

  /** Cells in a row are a slice of the buffer. */
  lemma {:induction false} JoinIsSlice(buf: seq<Byte>, size: nat, cap: nat, a: nat, n: nat)
    requires |buf| == cap * size && a + n <= cap
    ensures 0 <= a * size <= (a + n) * size <= |buf| && Join(Cells(buf, size, cap)[a..a + n]) == buf[a * size..(a + n) * size]
  {
    SpanFits(size, cap, a, n);
    var row := Cells(buf, size, cap)[a..a + n];
    if n > 0 {
      JoinIsSlice(buf, size, cap, a, n - 1);
      SpanFits(size, cap, a, n - 1);
      SpanFits(size, cap, a + n - 1, 1);
      assert row[..n - 1] == Cells(buf, size, cap)[a..a + n - 1];
      assert row[n - 1] == Cell(buf, size, cap, a + n - 1);
    }
  }

  lemma {:induction false} JoinAppend(a: seq<seq<Byte>>, b: seq<seq<Byte>>)
    ensures Join(a + b) == Join(a) + Join(b)
  {
    if b == [] {
      assert a + b == a;
    } else {
      assert (a + b)[..|a + b| - 1] == a + b[..|b| - 1];
      JoinAppend(a, b[..|b| - 1]);
    }
  }

  class BytesRing {
    const buf: array<Byte>
    const size: nat         // EVENT_SIZE
    const cap: nat
    var tail: nat
    var cachedHead: nat
    var head: nat
    var cachedTail: nat

    ghost predicate Valid()
      reads this
    {
      && cap >= 2 && size > 0 && buf.Length == cap * size
      && cachedHead <= head <= cachedTail <= tail <= cachedHead + cap
    }

    ghost function Contents(): seq<seq<Byte>>
      requires Valid()
      reads this, buf
    {
      Window(Cells(buf[..], size, cap), head, tail - head)
    }

    constructor (capacity: nat, eventSize: nat)
      requires capacity >= 2 && eventSize > 0
      ensures Valid() && fresh(buf) && cap == capacity && size == eventSize && Contents() == []
    {
      buf := new Byte[capacity * eventSize];
      size, cap := eventSize, capacity;
      tail, cachedHead, head, cachedTail := 0, 0, 0, 0;
    }

    // event: the packed bytes.
    method TryPush(event: seq<Byte>) returns (ok: bool)
      requires Valid() && |event| == size
      modifies this`tail, this`cachedHead, buf
      ensures Valid()
      ensures ok <==> |old(Contents())| < cap
      ensures Contents() == if ok then old(Contents()) + [event] else old(Contents())
    {
      var t := tail;
      if t - cachedHead == cap {
        cachedHead := head;
        if t - cachedHead == cap { return false; }
      }
      ghost var was := buf[..];
      var at := Slot(cap, t);
      CellFits(size, cap, at);
      forall j | 0 <= j < size { buf[at * size + j] := event[j]; }
      PackedCell(was, buf[..], size, cap, at, event);
      WindowPush(Cells(was, size, cap), head, tail - head, event);
      tail := t + 1;
      return true;
    }

    /**
     * One slice copy, or two at the wrap, is the copy of the oldest n events one by
     * one: the stage holds them packed, and nothing else in it changes.
     */
    method PopInto(stage: array<Byte>, offset: nat, max: nat) returns (n: nat)
      requires Valid() && stage != buf && (offset + max) * size <= stage.Length
      modifies this`head, this`cachedTail, stage
      ensures Valid() && n <= max && n <= |old(Contents())| && 0 <= offset * size <= (offset + n) * size <= stage.Length
      ensures n == 0 <==> max == 0 || old(Contents()) == []
      ensures stage[..] == old(stage[..offset * size]) + Join(old(Contents())[..n]) + old(stage[(offset + n) * size..])
      ensures Contents() == old(Contents())[n..]
    {
      hide Cell, Slot;
      SpanFits(size, offset + max, offset, 0);
      var h := head;
      if h == cachedTail {
        cachedTail := tail;
        if h == cachedTail { return 0; }
      }
      n := cachedTail - h;
      if n > max { n := max; }
      SpanFits(size, offset + max, offset, n);
      WindowPop(Cells(buf[..], size, cap), h, tail - h, n);
      CopyOut(stage, offset * size, h, n);
      head := h + n;
    }

    // The copies of PopInto.
    method CopyOut(stage: array<Byte>, dst: nat, h: nat, n: nat)
      requires Valid() && stage != buf && n <= cap && 0 <= n * size && dst + n * size <= stage.Length
      modifies stage
      ensures stage[..] == old(stage[..dst]) + Join(Window(Cells(buf[..], size, cap), h, n)) + old(stage[dst + n * size..])
    {
      var start := Slot(cap, h);
      var run := cap - start;
      if run >= n {
        OneSlice(buf[..], size, cap, h, n);
        CopySlice(stage, dst, buf, start * size, n * size);
      } else {
        TwoSlices(buf[..], size, cap, h, n);
        CopyAround(stage, dst, buf, start * size, run * size, (n - run) * size);
      }
    }
  }

  // The end of the source, first bytes of it, and then rest bytes from its start.
  method CopyAround(to: array<Byte>, at: nat, source: array<Byte>, start: nat, first: nat, rest: nat)
    requires to != source && at + first + rest <= to.Length && start + first == source.Length && rest <= source.Length
    modifies to
    ensures to[..] == old(to[..at]) + (source[start..] + source[..rest]) + old(to[at + first + rest..])
  {
    ghost var was := to[..];
    CopySlice(to, at, source, start, first);
    ghost var mid := to[..];
    CopySlice(to, at + first, source, 0, rest);
    TwoCopies(was, mid, to[..], at, source[start..], source[..rest]);
  }

  // A slice assignment between two buffers.
  method CopySlice(to: array<Byte>, at: nat, source: array<Byte>, start: nat, len: nat)
    requires to != source && at + len <= to.Length && start + len <= source.Length
    modifies to
    ensures to[..] == old(to[..at]) + source[start..start + len] + old(to[at + len..])
  {
    forall j | 0 <= j < len { to[at + j] := source[start + j]; }
  }

  lemma TwoCopies(was: seq<Byte>, mid: seq<Byte>, now: seq<Byte>, dst: nat, a: seq<Byte>, b: seq<Byte>)
    requires dst + |a| + |b| <= |was|
    requires mid == was[..dst] + a + was[dst + |a|..]
    requires now == mid[..dst + |a|] + b + mid[dst + |a| + |b|..]
    ensures now == was[..dst] + (a + b) + was[dst + |a| + |b|..]
  {
    assert mid[..dst + |a|] == was[..dst] + a;
    assert mid[dst + |a| + |b|..] == was[dst + |a| + |b|..];
  }

  /** The oldest n events, where they do not wrap. */
  lemma OneSlice(buf: seq<Byte>, size: nat, cap: nat, h: nat, n: nat)
    requires cap > 0 && |buf| == cap * size && Slot(cap, h) + n <= cap
    ensures var start := Slot(cap, h);
      && 0 <= start * size && n * size >= 0 && start * size + n * size <= |buf|
      && Join(Window(Cells(buf, size, cap), h, n)) == buf[start * size..start * size + n * size]
  {
    SpanFits(size, cap, Slot(cap, h), n);
    WindowIsSlice(Cells(buf, size, cap), h, n);
    JoinIsSlice(buf, size, cap, Slot(cap, h), n);
  }

  /** And where they do. */
  lemma TwoSlices(buf: seq<Byte>, size: nat, cap: nat, h: nat, n: nat)
    requires cap > 0 && |buf| == cap * size && n <= cap < Slot(cap, h) + n
    ensures var start := Slot(cap, h); var run := cap - start;
      && 0 <= start * size && 0 <= run * size && start * size + run * size == |buf| && 0 <= (n - run) * size <= |buf|
      && run * size + (n - run) * size == n * size
      && Join(Window(Cells(buf, size, cap), h, n)) == buf[start * size..] + buf[..(n - run) * size]
  {
    var start := Slot(cap, h);
    var run := cap - start;
    var cells := Cells(buf, size, cap);
    SpanFits(size, cap, start, run);
    SpanFits(size, n, run, n - run);
    SpanFits(size, cap, 0, n - run);
    WindowIsTwoSlices(cells, h, n);
    JoinIsSlice(buf, size, cap, start, run);
    JoinIsSlice(buf, size, cap, 0, n - run);
    JoinAppend(cells[start..], cells[..n - run]);
    assert cells[start..start + run] == cells[start..] && cells[0..n - run] == cells[..n - run];
  }

  // Packing an event into its cell leaves the others.
  lemma PackedCell(was: seq<Byte>, buf: seq<Byte>, size: nat, cap: nat, at: nat, event: seq<Byte>)
    requires |was| == |buf| == cap * size && at < cap && |event| == size
    requires 0 <= at * size <= at * size + size <= |buf|
    requires forall j | 0 <= j < size :: buf[at * size + j] == event[j]
    requires forall j | 0 <= j < |buf| && !(at * size <= j < at * size + size) :: buf[j] == was[j]
    ensures Cells(buf, size, cap) == Cells(was, size, cap)[at := event]
  {
    forall i | 0 <= i < cap ensures Cell(buf, size, cap, i) == if i == at then event else Cell(was, size, cap, i) {
      CellFits(size, cap, i);
      if i < at { SpanFits(size, at, i, 1); } else if i > at { SpanFits(size, i, at, 1); }
    }
  }
}

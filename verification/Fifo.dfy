/** The bounded FIFO with a close, which the queues are compared with. */
module Fifo {

  datatype PushResult = PushOK | PushFull | PushClosed
  datatype PopResult<T> = PopOK(v: T) | PopEmpty | PopDrained

  datatype Queue<T> = Queue(items: seq<T>, cap: nat, closed: bool) {

    function Push(v: T): (Queue<T>, PushResult) {
      if closed then (this, PushClosed)
      else if |items| >= cap then (this, PushFull)
      else (this.(items := items + [v]), PushOK)
    }

    function Pop(): (Queue<T>, PopResult<T>) {
      if items != [] then (this.(items := items[1..]), PopOK(items[0]))
      else (this, if closed then PopDrained else PopEmpty)
    }

    // As many of vs, in order, as there is room for.
    function PushAll(vs: seq<T>): (Queue<T>, nat) {
      var n := if closed || |items| >= cap then 0 else if |vs| <= cap - |items| then |vs| else cap - |items|;
      (this.(items := items + vs[..n]), n)
    }

    function PopAll(max: nat): (Queue<T>, seq<T>) {
      var n := if max <= |items| then max else |items|;
      (this.(items := items[n..]), items[..n])
    }
  }

  // One at a time is the same as all at once.

  function PushEach<T>(q: Queue<T>, vs: seq<T>): Queue<T>
    decreases |vs|
  {
    if vs == [] then q else PushEach(q.Push(vs[0]).0, vs[1..])
  }

  /** A batch is the pushes it stands for. */
  lemma {:induction false} BatchIsPushes<T>(q: Queue<T>, vs: seq<T>)
    requires |q.items| <= q.cap
    ensures PushEach(q, vs) == q.PushAll(vs).0
    decreases |vs|
  {
    if vs == [] {
      assert q.items + [] == q.items;
    } else {
      var q' := q.Push(vs[0]).0;
      BatchIsPushes(q', vs[1..]);
      var n := q.PushAll(vs).1;
      if n > 0 { assert q'.items + vs[1..][..n - 1] == q.items + vs[..n]; }
      else { assert q'.items + vs[1..][..0] == q.items + vs[..0]; }
    }
  }

  /** What comes out of a run of pops is the front of the queue, oldest first. */
  function PopEach<T>(q: Queue<T>, n: nat): seq<T>
    decreases n
  {
    if n == 0 then [] else match q.Pop() { case (q', PopOK(v)) => [v] + PopEach(q', n - 1) case _ => [] }
  }

  lemma {:induction false} BatchIsPops<T>(q: Queue<T>, max: nat)
    ensures PopEach(q, max) == q.PopAll(max).1
    decreases max
  {
    if max > 0 && q.items != [] {
      BatchIsPops(q.Pop().0, max - 1);
      var n := |q.PopAll(max).1|;
      assert q.items[..n] == [q.items[0]] + q.items[1..][..n - 1];
    }
  }
}

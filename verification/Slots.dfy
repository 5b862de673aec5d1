/** Positions and slots. Both language tracks map position p to slot p & (N - 1). */
module Slots {

  /** The slot that position p uses in a ring of n slots. */
  function Slot(n: nat, p: nat): (i: nat)
    requires n > 0
    ensures i < n
    decreases p
  {
    if p < n then p else Slot(n, p - n)
  }

  lemma {:induction false} SlotIsMod(n: nat, p: nat)
    requires n > 0
    ensures Slot(n, p) == p % n
    decreases p
  {
    if p >= n {
      SlotIsMod(n, p - n);
      ModSub(n, p);
    }
  }

  lemma ModSub(n: nat, p: nat)
    requires 0 < n <= p
    ensures p % n == (p - n) % n
  {
    var q, r := (p - n) / n, (p - n) % n;
    assert p == n * (q + 1) + r;
    assert n * (q + 1) == n * q + n;
    DivUnique(n, p, q + 1, r);
  }

  lemma DivUnique(n: nat, p: nat, q: int, r: nat)
    requires n > 0 && r < n && p == n * q + r
    ensures p % n == r
  {
    MulFar(n, p / n - q);
    assert n * (p / n - q) == r - p % n;
  }

  lemma MulFar(n: nat, d: int)
    ensures d >= 1 ==> n * d >= n
    ensures d <= -1 ==> n * d <= -(n as int)
  {
  }

  /** Two positions that share a slot are the same or at least one lap apart. */
  lemma {:induction false} SameSlot(n: nat, p: nat, q: nat)
    requires n > 0 && Slot(n, p) == Slot(n, q)
    ensures p == q || p >= q + n || q >= p + n
    decreases p + q
  {
    if p >= n && q >= n {
      SameSlot(n, p - n, q - n);
    } else if p >= n {
      SlotBelow(n, p - n);
    } else if q >= n {
      SlotBelow(n, q - n);
    }
  }

  lemma {:induction false} SlotBelow(n: nat, p: nat)
    requires n > 0
    ensures Slot(n, p) <= p
    decreases p
  {
    if p >= n {
      SlotBelow(n, p - n);
    }
  }

  lemma NextSlot(n: nat, p: nat)
    requires n >= 2
    ensures Slot(n, p + 1) != Slot(n, p)
  {
    if Slot(n, p + 1) == Slot(n, p) {
      SameSlot(n, p + 1, p);
    }
  }
}

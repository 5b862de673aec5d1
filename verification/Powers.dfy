/** Powers of two and bit widths. */
module Powers {

  function Pow2(e: nat): (p: nat)
    ensures p > 0
  {
    if e == 0 then 1 else 2 * Pow2(e - 1)
  }

  /** Bits needed for v: std::bit_width, bits.Len64. */
  function BitLen(v: nat): nat { if v == 0 then 0 else 1 + BitLen(v / 2) }

  lemma {:induction false} BitLenBounds(v: nat)
    requires v > 0
    ensures BitLen(v) >= 1 && Pow2(BitLen(v) - 1) <= v < Pow2(BitLen(v))
  {
    if v > 1 { BitLenBounds(v / 2); }
  }

  lemma {:induction false} Pow2Monotone(a: nat, b: nat)
    requires a <= b
    ensures Pow2(a) <= Pow2(b)
  {
    if a < b { Pow2Monotone(a, b - 1); }
  }

  lemma Pow2Orders(a: nat, b: nat)
    requires Pow2(a) < Pow2(b)
    ensures a < b
  {
    if b <= a { Pow2Monotone(b, a); assert false; }
  }

  lemma {:induction false} Pow2Sum(a: nat, b: nat)
    ensures Pow2(a + b) == Pow2(a) * Pow2(b)
  {
    if b > 0 { Pow2Sum(a, b - 1); }
  }

  /** A width is the only one whose powers bound v. */
  lemma BitLenIs(v: nat, b: nat)
    requires v > 0 && b >= 1 && Pow2(b - 1) <= v < Pow2(b)
    ensures BitLen(v) == b
  {
    BitLenBounds(v);
    if BitLen(v) < b { Pow2Monotone(BitLen(v), b - 1); }
    if b < BitLen(v) { Pow2Monotone(b, BitLen(v) - 1); }
  }

  function Shr(v: nat, e: nat): nat { if e == 0 then v else Shr(v, e - 1) / 2 }

  lemma {:induction false} ShrBounds(v: nat, e: nat)
    ensures Shr(v, e) * Pow2(e) <= v < (Shr(v, e) + 1) * Pow2(e)
  {
    if e > 0 {
      ShrBounds(v, e - 1);
      Halved(Shr(v, e - 1), Pow2(e - 1));
    }
  }

  lemma Halved(x: nat, d: nat)
    ensures x / 2 * (2 * d) <= x * d && (x + 1) * d <= (x / 2 + 1) * (2 * d)
  {
    Times(x / 2 * 2, x, d);
    Times(x + 1, x / 2 * 2 + 2, d);
    assert x / 2 * (2 * d) == x / 2 * 2 * d && (x / 2 + 1) * (2 * d) == (x / 2 * 2 + 2) * d;
  }

  lemma ShrIs(v: nat, e: nat, q: nat)
    requires q * Pow2(e) <= v < (q + 1) * Pow2(e)
    ensures Shr(v, e) == q
  {
    ShrBounds(v, e);
    if Shr(v, e) < q { Times(Shr(v, e) + 1, q, Pow2(e)); }
    if q < Shr(v, e) { Times(q + 1, Shr(v, e), Pow2(e)); }
  }

  lemma {:induction false} ShrMonotone(v: nat, w: nat, e: nat)
    requires v <= w
    ensures Shr(v, e) <= Shr(w, e)
  {
    if e > 0 { ShrMonotone(v, w, e - 1); }
  }

  lemma {:induction false} Times(a: nat, b: nat, d: nat)
    requires a <= b
    ensures a * d <= b * d
    decreases b
  {
    if a < b {
      Times(a, b - 1, d);
      assert b * d == (b - 1) * d + d;
    }
  }
}

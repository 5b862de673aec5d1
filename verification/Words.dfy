/** The 64-bit encodings: masks, signed differences, the closed bit and the dead bit. */
module Words {
  import opened Powers
  import opened Slots

  // ------------------------------------------------------------ p & (N - 1)

  /** The bitwise and of two words. */
  function And(a: nat, b: nat): nat {
    if a == 0 || b == 0 then 0 else (a % 2) * (b % 2) + 2 * And(a / 2, b / 2)
  }

  lemma {:induction false} MaskIsMod(k: nat, p: nat)
    ensures And(p, Pow2(k) - 1) == p % Pow2(k)
  {
    if k == 0 {
    } else if p == 0 {
    } else {
      MaskIsMod(k - 1, p / 2);
      var m := Pow2(k - 1);
      assert (2 * m - 1) / 2 == m - 1 && (2 * m - 1) % 2 == 1;
      HalfMod(p, m);
      if m == 1 { AndZero(p / 2); }
    }
  }

  lemma AndZero(p: nat)
    ensures And(p, 0) == 0
  {
  }

  lemma HalfMod(p: nat, m: nat)
    requires m > 0
    ensures p % (2 * m) == p % 2 + 2 * (p / 2 % m)
  {
    var q, r := p / 2 / m, p / 2 % m;
    assert p / 2 == m * q + r;
    assert 2 * (m * q) == 2 * m * q;
    DivUnique(2 * m, p, q, p % 2 + 2 * r);
  }

  /** With N = 2^k slots, the mask picks the slot. */
  lemma MaskIsSlot(k: nat, p: nat)
    ensures And(p, Pow2(k) - 1) == Slot(Pow2(k), p)
  {
    MaskIsMod(k, p);
    SlotIsMod(Pow2(k), p);
  }

  // ------------------------------------------------------------ int64(seq - pos)

  // Unsigned subtraction wraps; the conversion reads the result as two's complement.
  function Sub64(a: nat, b: nat): int { if a >= b then a - b else a - b + Pow2(64) }

  function Int64(x: int): int { if x < Pow2(63) then x else x - Pow2(64) }

  /** The signed difference has the sign of the comparison, for positions below 2^63. */
  lemma SignedDifference(seen: nat, pos: nat)
    requires seen < Pow2(63) && pos < Pow2(63)
    ensures var d := Int64(Sub64(seen, pos)); (d == 0 <==> seen == pos) && (d < 0 <==> seen < pos) && d == seen - pos
  {
    assert Pow2(64) == 2 * Pow2(63);
    hide Pow2;
  }

  // ------------------------------------------------------------ the tail word

  function Pack(tail: nat, closed: bool): nat { (2 * tail + (if closed then 1 else 0)) % Pow2(64) }

  /** The tail word gives back the tail and the bit exactly while the tail is below 2^63. */
  lemma PackRoundTrip(tail: nat, closed: bool)
    ensures Pack(tail, closed) / 2 == tail && (Pack(tail, closed) % 2 == 1 <==> closed) <==> tail < Pow2(63)
  {
    assert Pow2(64) == 2 * Pow2(63);
    var word := 2 * tail + (if closed then 1 else 0);
    hide Pow2;
    SlotIsMod(Pow2(64), word);
    if tail < Pow2(63) { assert Slot(Pow2(64), word) == word; }
    else { assert Pack(tail, closed) < Pow2(64); }
  }

  /** Adding 2 to it moves the tail and nothing else; setting the low bit closes it and nothing else. */
  lemma WordSteps(tail: nat, closed: bool)
    requires tail + 1 < Pow2(63)
    ensures Pack(tail + 1, closed) == Pack(tail, closed) + 2
    ensures Pack(tail, true) == Pack(tail, closed) + (if closed then 0 else 1)
  {
    PackIs(tail, closed);
    PackIs(tail, true);
    PackIs(tail + 1, closed);
  }

  lemma PackIs(tail: nat, closed: bool)
    requires tail < Pow2(63)
    ensures Pack(tail, closed) == 2 * tail + (if closed then 1 else 0)
  {
    assert Pow2(64) == 2 * Pow2(63);
    hide Pow2;
    SlotIsMod(Pow2(64), 2 * tail + (if closed then 1 else 0));
  }

  // ------------------------------------------------------------ the dead bit

  // pos | 1 << 63, for a pos without that bit.
  function Dead(pos: nat): nat { pos + Pow2(63) }

  // seq &^ (1 << 63).
  function Bare(word: nat): nat { if word >= Pow2(63) then word - Pow2(63) else word }

  /** A tombstone compares as its position; a live stamp is not mistaken for one. */
  lemma DeadBit(pos: nat)
    requires pos < Pow2(63)
    ensures Bare(Dead(pos)) == pos && Dead(pos) < Pow2(64) && Bare(pos) == pos && Dead(pos) != pos
  {
    assert Pow2(64) == 2 * Pow2(63);
    hide Pow2;
  }
}

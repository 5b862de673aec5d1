/** The active word: its bits, its rotation, and the walk over its set bits. */
module BitWalk {
  import opened Powers
  import opened Words
  import opened Weir

  // ------------------------------------------------------------ bits of a word

  // MaxProducers, and the width of the word.
  const WIDTH: nat := 64

  predicate Word(m: nat) { m < Pow2(WIDTH) }

  predicate Bit(m: nat, i: nat)
    decreases i
  {
    if i == 0 then m % 2 == 1 else Bit(m / 2, i - 1)
  }

  /** The set that a word stands for. */
  function Bits(m: nat): set<nat> { set i: nat | i < WIDTH && Bit(m, i) }

  function Or(a: nat, b: nat): nat {
    if a == 0 then b else if b == 0 then a else (if a % 2 == 1 || b % 2 == 1 then 1 else 0) + 2 * Or(a / 2, b / 2)
  }

  function Shl(v: nat, e: nat): nat { if e == 0 then v else 2 * Shl(v, e - 1) }

  function Not(m: nat): int { Pow2(WIDTH) - 1 - m }

  lemma {:induction false} ZeroBit(i: nat)
    ensures !Bit(0, i)
  {
    if i > 0 { ZeroBit(i - 1); }
  }

  lemma {:induction false} OrBit(a: nat, b: nat, i: nat)
    ensures Bit(Or(a, b), i) <==> Bit(a, i) || Bit(b, i)
    decreases i
  {
    ZeroBit(i);
    if a > 0 && b > 0 && i > 0 { OrBit(a / 2, b / 2, i - 1); }
  }

  lemma {:induction false} AndBit(a: nat, b: nat, i: nat)
    ensures Bit(And(a, b), i) <==> Bit(a, i) && Bit(b, i)
    decreases i
  {
    ZeroBit(i);
    if a > 0 && b > 0 {
      if i > 0 { AndBit(a / 2, b / 2, i - 1); }
      else { assert a % 2 == 0 || a % 2 == 1; assert b % 2 == 0 || b % 2 == 1; }
    }
  }

  lemma {:induction false} ShlBit(v: nat, e: nat, i: nat)
    ensures Bit(Shl(v, e), i) <==> e <= i && Bit(v, i - e)
    decreases e
  {
    if e > 0 {
      assert Shl(v, e) / 2 == Shl(v, e - 1) && Shl(v, e) % 2 == 0;
      if i > 0 { ShlBit(v, e - 1, i - 1); }
    }
  }

  lemma {:induction false} ShrBit(v: nat, e: nat, i: nat)
    ensures Bit(Shr(v, e), i) <==> Bit(v, i + e)
    decreases e
  {
    if e > 0 { ShrBit(v, e - 1, i + 1); }
  }

  lemma {:induction false} ModBit(v: nat, k: nat, i: nat)
    ensures Bit(v % Pow2(k), i) <==> i < k && Bit(v, i)
    decreases k
  {
    if k == 0 { ZeroBit(i); }
    else {
      HalfMod(v, Pow2(k - 1));
      var r := v / 2 % Pow2(k - 1);
      assert (v % 2 + 2 * r) / 2 == r && (v % 2 + 2 * r) % 2 == v % 2;
      if i > 0 { ModBit(v / 2, k - 1, i - 1); }
    }
  }

  lemma {:induction false} NotBit(m: nat, k: nat, i: nat)
    requires m < Pow2(k)
    ensures Bit(Pow2(k) - 1 - m, i) <==> i < k && !Bit(m, i)
    decreases k
  {
    if k == 0 { ZeroBit(i); }
    else {
      var h := Pow2(k - 1);
      assert (2 * h - 1 - m) / 2 == h - 1 - m / 2 && (2 * h - 1 - m) % 2 == 1 - m % 2;
      if i > 0 { NotBit(m / 2, k - 1, i - 1); }
    }
  }

  lemma {:induction false} OneBit(j: nat, i: nat)
    ensures Bit(Pow2(j), i) <==> i == j
    decreases i
  {
    if j > 0 {
      assert Pow2(j) / 2 == Pow2(j - 1) && Pow2(j) % 2 == 0;
      if i > 0 { OneBit(j - 1, i - 1); }
    } else if i > 0 { ZeroBit(i - 1); }
  }

  /** signal's Or adds the producer's bit to the set. */
  lemma OrAdds(m: nat, i: nat)
    requires i < WIDTH
    ensures Bits(Or(m, Pow2(i))) == Bits(m) + {i}
  {
    forall j: nat | j < WIDTH ensures Bit(Or(m, Pow2(i)), j) <==> Bit(m, j) || j == i {
      OrBit(m, Pow2(i), j);
      OneBit(i, j);
    }
  }

  /** clearEmptyBits' And takes it out. */
  lemma AndRemoves(m: nat, i: nat)
    requires i < WIDTH
    ensures Pow2(i) < Pow2(WIDTH) && Bits(And(m, Not(Pow2(i)))) == Bits(m) - {i}
  {
    PowBelow(i, WIDTH);
    forall j: nat | j < WIDTH ensures Bit(And(m, Not(Pow2(i))), j) <==> Bit(m, j) && j != i {
      AndBit(m, Not(Pow2(i)), j);
      NotBit(Pow2(i), WIDTH, j);
      OneBit(i, j);
    }
  }

  lemma {:induction false} PowBelow(i: nat, k: nat)
    requires i < k
    ensures Pow2(i) < Pow2(k)
  {
    if i < k - 1 { PowBelow(i, k - 1); }
  }

  /** The word is zero exactly when no bit is set: what signal's coalescing and park test. */
  lemma ZeroIsNone(m: nat)
    requires Word(m)
    ensures m == 0 <==> Bits(m) == {}
  {
    if m == 0 { forall i: nat | i < WIDTH ensures !Bit(m, i) { ZeroBit(i); } }
    else {
      LowestBit(m);
      TrailingInWord(m, WIDTH);
      assert TrailingZeros(m) in Bits(m);
    }
  }

  // ------------------------------------------------------------ the lowest set bit

  function TrailingZeros(m: nat): nat
    requires m > 0
  {
    if m % 2 == 1 then 0 else 1 + TrailingZeros(m / 2)
  }

  lemma {:induction false} LowestBit(m: nat)
    requires m > 0
    ensures Bit(m, TrailingZeros(m)) && forall i | 0 <= i < TrailingZeros(m) :: !Bit(m, i)
  {
    if m % 2 == 0 {
      LowestBit(m / 2);
      forall i | 0 <= i < TrailingZeros(m) ensures !Bit(m, i) {
        if i > 0 { assert !Bit(m / 2, i - 1); }
      }
    }
  }

  lemma {:induction false} TrailingInWord(m: nat, k: nat)
    requires 0 < m < Pow2(k)
    ensures TrailingZeros(m) < k
    decreases k
  {
    if m % 2 == 0 { TrailingInWord(m / 2, k - 1); }
  }

  lemma AndOdd(a: nat, b: nat)
    requires a % 2 == 1 && b % 2 == 1
    ensures And(a, b) == 1 + 2 * And(a / 2, b / 2)
  {
  }

  lemma AndEven(a: nat, b: nat)
    requires a > 0 && b > 0 && a % 2 == 0
    ensures And(a, b) == 2 * And(a / 2, b / 2)
  {
  }

  lemma {:induction false} AndSelf(m: nat)
    ensures And(m, m) == m
  {
    if m > 0 {
      AndSelf(m / 2);
      if m % 2 == 1 { AndOdd(m, m); } else { AndEven(m, m); }
      hide And;
    }
  }

  /** m & (m - 1) clears the lowest set bit and nothing else. */
  lemma {:induction false} ClearsLowest(m: nat, i: nat)
    requires m > 0
    ensures And(m, m - 1) < m
    ensures Bit(And(m, m - 1), i) <==> Bit(m, i) && i != TrailingZeros(m)
    decreases m
  {
    var h := m / 2;
    ZeroBit(i);
    if m % 2 == 1 {
      AndSelf(h);
      assert (m - 1) / 2 == h && (m - 1) % 2 == 0 && And(m, m - 1) == 2 * h;
    } else {
      assert (m - 1) / 2 == h - 1 && And(m, m - 1) == 2 * And(h, h - 1);
      ClearsLowest(h, if i > 0 then i - 1 else 0);
    }
  }

  // ------------------------------------------------------------ rotation

  // bits.RotateLeft64, and std::rotr for a negative k.
  function RotateLeft64(m: nat, k: int): nat {
    var s := k % WIDTH;
    Or(Shl(m, s) % Pow2(WIDTH), Shr(m, WIDTH - s))
  }

  lemma HighBit(m: nat, i: nat)
    requires Word(m) && i >= WIDTH
    ensures !Bit(m, i)
  {
    ModBit(m, WIDTH, i);
    assert m % Pow2(WIDTH) == m by { ModBelow(m, Pow2(WIDTH)); }
  }

  lemma ModBelow(m: nat, d: nat)
    requires m < d
    ensures m % d == m
  {
  }

  lemma ShiftedBit(m: nat, s: nat, i: nat)
    requires Word(m) && s < WIDTH
    ensures Bit(Or(Shl(m, s) % Pow2(WIDTH), Shr(m, WIDTH - s)), i) <==> i < WIDTH && Bit(m, if s <= i then i - s else i + WIDTH - s)
  {
    OrBit(Shl(m, s) % Pow2(WIDTH), Shr(m, WIDTH - s), i);
    ModBit(Shl(m, s), WIDTH, i);
    ShlBit(m, s, i);
    ShrBit(m, WIDTH - s, i);
    if s <= i { HighBit(m, i + WIDTH - s); }
    hide Bit, Shl, Shr, Or, Pow2;
  }

  // Where bit i of the rotated word comes from.
  lemma RotatedFrom(rotate: nat, i: nat)
    requires rotate < WIDTH && i < WIDTH
    ensures var s := -(rotate as int) % WIDTH; (if s <= i then i - s else i + WIDTH - s) == (i + rotate) % WIDTH
  {
    var s := -(rotate as int) % WIDTH;
    assert s == if rotate == 0 then 0 else WIDTH - rotate;
  }

  /** Rotating right brings bit rotate to the bottom, and wraps the bits below it to the top. */
  lemma RotatedBit(m: nat, rotate: nat, i: nat)
    requires Word(m) && rotate < WIDTH
    ensures Bit(RotateLeft64(m, -(rotate as int)), i) <==> i < WIDTH && Bit(m, (i + rotate) % WIDTH)
  {
    ShiftedBit(m, -(rotate as int) % WIDTH, i);
    if i < WIDTH { RotatedFrom(rotate, i); }
    hide Bit, Shl, Shr, Or, Pow2;
  }

  // ------------------------------------------------------------ the walk

  lemma Associates(a: seq<nat>, b: seq<nat>, c: seq<nat>)
    ensures a + (b + c) == a + b + c
  {
  }

  lemma {:induction false} AmongAppend(a: seq<nat>, b: seq<nat>, m: set<nat>)
    ensures Among(a + b, m) == Among(a, m) + Among(b, m)
  {
    if a == [] { assert a + b == b; }
    else {
      AmongAppend(a[1..], b, m);
      var first := if a[0] in m then [a[0]] else [];
      assert Among(a + b, m) == first + Among(a[1..] + b, m) by { assert (a + b)[0] == a[0] && (a + b)[1..] == a[1..] + b; }
      Associates(first, Among(a[1..], m), Among(b, m));
    }
  }

  lemma {:induction false} AmongNone(order: seq<nat>, m: set<nat>)
    requires forall k | 0 <= k < |order| :: order[k] !in m
    ensures Among(order, m) == []
  {
    if order != [] { AmongNone(order[1..], m); }
  }

  // The members between k and off are not in the set; the one at off is.
  lemma AmongNext(order: seq<nat>, m: set<nat>, k: nat, off: nat)
    requires k <= off < |order| && order[off] in m && forall j | k <= j < off :: order[j] !in m
    ensures Among(order[..off + 1], m) == Among(order[..k], m) + [order[off]]
  {
    assert order[..off + 1] == order[..k] + order[k..off] + [order[off]];
    AmongAppend(order[..k] + order[k..off], [order[off]], m);
    AmongAppend(order[..k], order[k..off], m);
    AmongNone(order[k..off], m);
    assert [order[off]][1..] == [];
  }

  lemma AmongRest(order: seq<nat>, m: set<nat>, k: nat)
    requires k <= |order| && forall j | k <= j < |order| :: order[j] !in m
    ensures Among(order, m) == Among(order[..k], m)
  {
    assert order == order[..k] + order[k..];
    AmongAppend(order[..k], order[k..], m);
    AmongNone(order[k..], m);
  }

  // m holds what is left of the word, rotated, after its first k places.
  ghost predicate Left(m: nat, word: nat, rotate: nat, k: nat) {
    forall i: nat :: Bit(m, i) <==> k <= i < WIDTH && Bit(word, (i + rotate) % WIDTH)
  }

  lemma LeftStart(word: nat, rotate: nat)
    requires Word(word) && rotate < WIDTH
    ensures Left(RotateLeft64(word, -(rotate as int)), word, rotate, 0)
  {
    var m := RotateLeft64(word, -(rotate as int));
    forall i: nat ensures Bit(m, i) <==> 0 <= i < WIDTH && Bit(word, (i + rotate) % WIDTH) { RotatedBit(word, rotate, i); }
  }

  lemma LeftBegins(word: nat)
    requires Word(word)
    ensures Left(word, word, 0, 0)
  {
    var m := word;
    forall i: nat ensures Bit(m, i) <==> 0 <= i < WIDTH && Bit(word, (i + 0) % WIDTH) { if i >= WIDTH { HighBit(word, i); } }
  }

  lemma LeftClears(m: nat, word: nat, rotate: nat, k: nat)
    requires m > 0 && k <= WIDTH && Left(m, word, rotate, k)
    ensures var off := TrailingZeros(m); k <= off < WIDTH && Left(And(m, m - 1), word, rotate, off + 1) && And(m, m - 1) < m
  {
    var off, rest := TrailingZeros(m), And(m, m - 1);
    LowestBit(m);
    ClearsLowest(m, 0);
    assert Bit(m, off);
    forall i: nat ensures Bit(rest, i) <==> off + 1 <= i < WIDTH && Bit(word, (i + rotate) % WIDTH) {
      ClearsLowest(m, i);
      assert Bit(m, i) <==> k <= i < WIDTH && Bit(word, (i + rotate) % WIDTH);
    }
  }

  // The next set bit of the rotated word is the next of the slots in turn.
  lemma LeftNext(m: nat, word: nat, rotate: nat, k: nat)
    requires m > 0 && rotate < WIDTH && k <= WIDTH && Left(m, word, rotate, k) && k <= TrailingZeros(m) < WIDTH
    ensures var off := TrailingZeros(m);
      Among(Order(WIDTH, rotate)[..off + 1], Bits(word)) == Among(Order(WIDTH, rotate)[..k], Bits(word)) + [Order(WIDTH, rotate)[off]]
  {
    var off, order := TrailingZeros(m), Order(WIDTH, rotate);
    LowestBit(m);
    assert Bit(m, off);
    forall j | k <= j < off ensures order[j] !in Bits(word) { OrderIsMod(rotate, j); assert !Bit(m, j); }
    OrderIsMod(rotate, off);
    AmongNext(order, Bits(word), k, off);
  }

  lemma LeftStep(m: nat, word: nat, rotate: nat, k: nat)
    requires m > 0 && rotate < WIDTH && k <= WIDTH && Left(m, word, rotate, k)
    ensures var off := TrailingZeros(m);
      && off < WIDTH && Left(And(m, m - 1), word, rotate, off + 1) && And(m, m - 1) < m
      && Among(Order(WIDTH, rotate)[..off + 1], Bits(word)) == Among(Order(WIDTH, rotate)[..k], Bits(word)) + [And(off + rotate, WIDTH - 1)]
  {
    LeftClears(m, word, rotate, k);
    LeftNext(m, word, rotate, k);
    var off := TrailingZeros(m);
    MaskIsMod(6, off + rotate);
    OrderIsMod(rotate, off);
    hide Among, And, TrailingZeros, Left, Bits, Order;
  }

  lemma OrderIsMod(rotate: nat, k: nat)
    requires rotate < WIDTH && k < WIDTH
    ensures Order(WIDTH, rotate)[k] == (k + rotate) % WIDTH
  {
  }

  lemma LeftNone(word: nat, rotate: nat, k: nat)
    requires rotate < WIDTH && k <= WIDTH && Left(0, word, rotate, k)
    ensures Among(Order(WIDTH, rotate), Bits(word)) == Among(Order(WIDTH, rotate)[..k], Bits(word))
  {
    var order := Order(WIDTH, rotate);
    forall j | k <= j < WIDTH ensures order[j] !in Bits(word) { OrderIsMod(rotate, j); ZeroBit(j); assert !Bit(0, j); }
    AmongRest(order, Bits(word), k);
  }

  /** drainBitmap's loop probes the set bits of the word once each, in turn from rotate. */
  method DrainBitmap(word: nat, rotate: nat) returns (probed: seq<nat>)
    requires Word(word) && rotate < WIDTH
    ensures probed == Among(Order(WIDTH, rotate), Bits(word))
  {
    hide Among, And, TrailingZeros, Left, Bits, RotateLeft64;
    var m := RotateLeft64(word, -(rotate as int));
    probed := [];
    ghost var k: nat := 0;
    LeftStart(word, rotate);
    AmongNone(Order(WIDTH, rotate)[..0], Bits(word));
    while m != 0
      invariant k <= WIDTH && Left(m, word, rotate, k)
      invariant probed == Among(Order(WIDTH, rotate)[..k], Bits(word))
      decreases m
    {
      LeftStep(m, word, rotate, k);
      var off := TrailingZeros(m);
      m := And(m, m - 1);
      probed := probed + [And(off + rotate, WIDTH - 1)];
      k := off + 1;
    }
    LeftNone(word, rotate, k);
  }

  /** clearEmptyBits' loop looks at them from the lowest up. */
  method ClearEmptyBits(word: nat) returns (looked: seq<nat>)
    requires Word(word)
    ensures looked == Among(Order(WIDTH, 0), Bits(word))
  {
    hide Among, And, TrailingZeros, Left, Bits;
    var m := word;
    looked := [];
    ghost var k: nat := 0;
    LeftBegins(word);
    AmongNone(Order(WIDTH, 0)[..0], Bits(word));
    while m != 0
      invariant k <= WIDTH && Left(m, word, 0, k)
      invariant looked == Among(Order(WIDTH, 0)[..k], Bits(word))
      decreases m
    {
      LeftClears(m, word, 0, k);
      LeftNext(m, word, 0, k);
      var i := TrailingZeros(m);
      m := And(m, m - 1);
      looked := looked + [i];
      k := i + 1;
    }
    LeftNone(word, 0, k);
  }
}

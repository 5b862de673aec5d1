/** The log-linear latency histogram: what its buckets round, and what it answers. */
module Histogram {
  import opened Powers
  import Slots

  const BUCKETS := 976

  /** A 64-bit value. */
  predicate Word(v: nat) { v < Pow2(64) }

  // index = 16 * e + (v >> e), where e puts v >> e in [16, 32).
  function Index(v: nat): nat {
    if v < 32 then v else 16 * Exponent(v) + Shr(v, Exponent(v))
  }

  function Exponent(v: nat): nat { if BitLen(v) < 5 then 0 else BitLen(v) - 5 }

  // ((m + 1) << e) - 1 in 64 bits, where both the shift and the subtraction wrap.
  function Upper(i: nat): nat {
    if i < 32 then i
    else
      var e := i / 16 - 1;
      Dec64((i - 16 * e + 1) * Pow2(e) % Pow2(64))
  }

  function Dec64(x: nat): nat { if x == 0 then Pow2(64) - 1 else x - 1 }

  // ------------------------------------------------------------ the buckets

  lemma SmallPowers()
    ensures Pow2(4) == 16 && Pow2(5) == 32
  {
    assert Pow2(2) == 4 && Pow2(3) == 8;
  }

  // Where the bucket of v lies.
  lemma IndexParts(v: nat)
    requires v >= 32 && Word(v)
    ensures var e, d := Exponent(v), Pow2(Exponent(v));
      1 <= e <= 59 && 16 <= Shr(v, e) < 32 && Shr(v, e) * d <= v < (Shr(v, e) + 1) * d && Index(v) == 16 * e + Shr(v, e)
  {
    BitLenBounds(v);
    SmallPowers();
    if BitLen(v) < 6 { Pow2Monotone(BitLen(v), 5); }
    if BitLen(v) > 64 { Pow2Monotone(64, BitLen(v) - 1); }
    var e := BitLen(v) - 5;
    Pow2Sum(4, e);
    Pow2Sum(5, e);
    Leading(v, e);
  }

  lemma Leading(v: nat, e: nat)
    requires 16 * Pow2(e) <= v < 32 * Pow2(e)
    ensures 16 <= Shr(v, e) < 32 && Shr(v, e) * Pow2(e) <= v < (Shr(v, e) + 1) * Pow2(e)
  {
    ShrBounds(v, e);
    if Shr(v, e) < 16 { Times(Shr(v, e) + 1, 16, Pow2(e)); }
    if Shr(v, e) >= 32 { Times(32, Shr(v, e), Pow2(e)); }
  }

  /** Every 64-bit value has a bucket. */
  lemma IndexInRange(v: nat)
    requires Word(v)
    ensures Index(v) < BUCKETS
  {
    if v >= 32 { IndexParts(v); }
  }

  // Values with the same leading part are in the bucket that part names.
  lemma IndexIs(v: nat, e: nat, m: nat)
    requires v >= 32 && 16 <= m < 32 && m * Pow2(e) <= v < (m + 1) * Pow2(e)
    ensures Index(v) == 16 * e + m
  {
    SmallPowers();
    Pow2Sum(4, e);
    Pow2Sum(5, e);
    Times(16, m, Pow2(e));
    Times(m + 1, 32, Pow2(e));
    BitLenIs(v, e + 5);
    ShrIs(v, e, m);
  }

  // The shape of a bucket past the exact ones.
  lemma UpperParts(i: nat)
    requires 32 <= i < BUCKETS
    ensures var e, m := i / 16 - 1, i - 16 * (i / 16 - 1);
      && 1 <= e <= 59 && 16 <= m < 32 && i == 16 * e + m
      && (m + 1) * Pow2(e) <= Pow2(64) && Upper(i) == (m + 1) * Pow2(e) - 1
  {
    var e, m := i / 16 - 1, i - 16 * (i / 16 - 1);
    SmallPowers();
    hide Pow2, Dec64;
    Times(m + 1, 32, Pow2(e));
    Times(1, m + 1, Pow2(e));
    Pow2Sum(5, e);
    Pow2Monotone(e + 5, 64);
    WrapLast((m + 1) * Pow2(e));
  }

  // The last bucket's shift wraps to 0, and the subtraction brings it back.
  lemma WrapLast(x: nat)
    requires 0 < x <= Pow2(64)
    ensures Dec64(x % Pow2(64)) == x - 1
  {
    hide Pow2;
    if x < Pow2(64) { Slots.DivUnique(Pow2(64), x, 0, x); } else { Slots.DivUnique(x, x, 1, 0); }
  }

  // The edge of leading part m at exponent e, and the value after it.
  lemma EdgeOf(e: nat, m: nat)
    requires e >= 1 && 16 <= m < 32
    ensures var u := (m + 1) * Pow2(e) - 1;
      && u >= 32 && Index(u) == 16 * e + m
      && Index(u + 1) == 16 * e + m + 1
  {
    var d := Pow2(e);
    Pow2Monotone(1, e);
    assert Pow2(1) == 2;
    hide Index;
    Times(17, m + 1, d);
    assert (m + 1) * d == m * d + d && (m + 2) * d == (m + 1) * d + d;
    IndexIs((m + 1) * d - 1, e, m);
    if m < 31 { IndexIs((m + 1) * d, e, m + 1); }
    else {
      Pow2Sum(1, e);
      IndexIs(32 * d, e + 1, 16);
    }
  }

  /** The upper edge of bucket i is in it, and the next value is in the next one. */
  lemma UpperIsLast(i: nat)
    requires i < BUCKETS
    ensures Word(Upper(i)) && Index(Upper(i)) == i
    ensures Index(Upper(i) + 1) == i + 1
  {
    if i < 32 { ExactBuckets(i); }
    else {
      UpperParts(i);
      EdgeOf(i / 16 - 1, i - 16 * (i / 16 - 1));
      hide Index, Upper, Pow2;
    }
  }

  lemma ExactBuckets(i: nat)
    requires i < 32
    ensures Word(i) && Index(i + 1) == i + 1
  {
    SmallPowers();
    Pow2Monotone(5, 64);
    if i == 31 {
      assert Pow2(1) == 2;
      IndexIs(32, 1, 16);
    }
  }

  lemma {:induction false} LengthMonotone(v: nat, w: nat)
    requires 0 < v <= w
    ensures BitLen(v) <= BitLen(w)
  {
    BitLenBounds(v);
    BitLenBounds(w);
    Pow2Orders(BitLen(v) - 1, BitLen(w));
    hide BitLen;
  }

  // The leading parts decide within one length, the length between two.
  lemma PartsMonotone(v: nat, w: nat)
    requires 32 <= v <= w && Word(w)
    ensures Index(v) <= Index(w)
  {
    IndexParts(v);
    IndexParts(w);
    LengthMonotone(v, w);
    if Exponent(v) == Exponent(w) { ShrMonotone(v, w, Exponent(w)); }
    hide Index, Shr, Pow2, BitLen;
  }

  /** Larger values are in later buckets. */
  lemma IndexMonotone(v: nat, w: nat)
    requires v <= w && Word(w)
    ensures Index(v) <= Index(w)
  {
    if w >= 32 {
      if v >= 32 { PartsMonotone(v, w); } else { IndexParts(w); }
    }
  }

  /** Upper is the exact inverse of Index for order: a value is in bucket i or before exactly when it is at most Upper(i). */
  lemma IndexUpper(v: nat, i: nat)
    requires Word(v) && i < BUCKETS
    ensures Index(v) <= i <==> v <= Upper(i)
  {
    UpperIsLast(i);
    if v <= Upper(i) { IndexMonotone(v, Upper(i)); }
    else { IndexMonotone(Upper(i) + 1, v); }
  }

  /** A bucket is exact below 32, and above that less than a sixteenth of the value wide. */
  lemma UpperError(v: nat)
    requires Word(v)
    ensures v <= Upper(Index(v))
    ensures v < 32 ==> Upper(Index(v)) == v
    ensures v >= 32 ==> 16 * (Upper(Index(v)) - v) < v
  {
    IndexInRange(v);
    IndexUpper(v, Index(v));
    if v >= 32 {
      IndexParts(v);
      UpperParts(Index(v));
      var e, d := Exponent(v), Pow2(Exponent(v));
      var m := Shr(v, e);
      assert Index(v) / 16 - 1 == e && Index(v) - 16 * e == m;
      EdgeError(v, m, d);
    }
  }

  lemma EdgeError(v: nat, m: nat, d: nat)
    requires d > 0 && m >= 16 && m * d <= v < (m + 1) * d
    ensures 16 * ((m + 1) * d - 1 - v) < v
  {
    assert (m + 1) * d == m * d + d;
    Times(16, m, d);
  }

  // ------------------------------------------------------------ counting samples

  function InBucket(s: seq<nat>, i: nat): nat {
    if s == [] then 0 else InBucket(s[..|s| - 1], i) + (if Index(s[|s| - 1]) == i then 1 else 0)
  }

  /** Samples at most x. */
  function AtMost(s: seq<nat>, x: int): nat {
    if s == [] then 0 else AtMost(s[..|s| - 1], x) + (if s[|s| - 1] <= x then 1 else 0)
  }

  function Largest(s: seq<nat>): nat {
    if s == [] then 0
    else if s[|s| - 1] > Largest(s[..|s| - 1]) then s[|s| - 1]
    else Largest(s[..|s| - 1])
  }

  predicate Words(s: seq<nat>) { forall k | 0 <= k < |s| :: Word(s[k]) }

  lemma {:induction false} InBucketAppend(a: seq<nat>, b: seq<nat>, i: nat)
    ensures InBucket(a + b, i) == InBucket(a, i) + InBucket(b, i)
  {
    if b == [] { assert a + b == a; }
    else {
      assert (a + b)[..|a + b| - 1] == a + b[..|b| - 1];
      InBucketAppend(a, b[..|b| - 1], i);
    }
  }

  lemma {:induction false} LargestAppend(a: seq<nat>, b: seq<nat>)
    ensures Largest(a + b) == if Largest(a) >= Largest(b) then Largest(a) else Largest(b)
  {
    if b == [] { assert a + b == a; }
    else {
      assert (a + b)[..|a + b| - 1] == a + b[..|b| - 1];
      LargestAppend(a, b[..|b| - 1]);
    }
  }

  lemma {:induction false} LargestBounds(s: seq<nat>, k: nat)
    requires k < |s|
    ensures s[k] <= Largest(s)
  {
    if k < |s| - 1 { LargestBounds(s[..|s| - 1], k); }
  }

  /** The samples in the first i buckets are those up to the edge of the i-th. */
  function Below(s: seq<nat>, i: nat): nat { if i == 0 then 0 else Below(s, i - 1) + InBucket(s, i - 1) }

  lemma {:induction false} BelowIsAtMost(s: seq<nat>, i: nat)
    requires Words(s) && 0 < i <= BUCKETS
    ensures Below(s, i) == AtMost(s, Upper(i - 1))
    decreases i, |s|
  {
    if s == [] { BelowNone(i); }
    else {
      var r := s[..|s| - 1];
      BelowIsAtMost(r, i);
      IndexUpper(s[|s| - 1], i - 1);
      BelowOne(s, i);
    }
  }

  lemma {:induction false} BelowNone(i: nat)
    ensures Below([], i) == 0
  {
    if i > 0 { BelowNone(i - 1); }
  }

  lemma {:induction false} BelowOne(s: seq<nat>, i: nat)
    requires s != []
    ensures Below(s, i) == Below(s[..|s| - 1], i) + (if Index(s[|s| - 1]) < i then 1 else 0)
  {
    if i > 0 { BelowOne(s, i - 1); }
  }

  lemma {:induction false} AtMostMonotone(s: seq<nat>, x: int, y: int)
    requires x <= y
    ensures AtMost(s, x) <= AtMost(s, y) <= |s|
  {
    if s != [] { AtMostMonotone(s[..|s| - 1], x, y); }
  }

  lemma {:induction false} AtMostAll(s: seq<nat>, x: int)
    requires forall k | 0 <= k < |s| :: s[k] <= x
    ensures AtMost(s, x) == |s|
  {
    if s != [] { AtMostAll(s[..|s| - 1], x); }
  }

  lemma {:induction false} AtMostNone(s: seq<nat>, x: int)
    requires x < 0
    ensures AtMost(s, x) == 0
  {
    if s != [] { AtMostNone(s[..|s| - 1], x); }
  }

  // ------------------------------------------------------------ order statistics

  /** x is the sample of rank r, counting from 1 in increasing order. */
  predicate IsRank(s: seq<nat>, r: nat, x: nat) { AtMost(s, x - 1) < r <= AtMost(s, x) }

  lemma {:induction false} RankExists(s: seq<nat>, r: nat, bound: nat) returns (x: nat)
    requires 1 <= r <= AtMost(s, bound)
    ensures x <= bound && IsRank(s, r, x)
    decreases bound
  {
    if bound == 0 {
      AtMostNone(s, -1);
      x := 0;
    } else if r <= AtMost(s, bound - 1) {
      x := RankExists(s, r, bound - 1);
    } else {
      x := bound;
    }
  }

  /** Every rank has exactly one sample. */
  lemma RankIsUnique(s: seq<nat>, r: nat, x: nat, y: nat)
    requires IsRank(s, r, x) && IsRank(s, r, y)
    ensures x == y
  {
    if x < y { AtMostMonotone(s, x, y - 1); }
    if y < x { AtMostMonotone(s, y, x - 1); }
  }

  lemma RankIsWord(s: seq<nat>, r: nat, x: nat)
    requires Words(s) && IsRank(s, r, x)
    ensures Word(x) && x <= Largest(s)
  {
    if Largest(s) < x {
      forall k | 0 <= k < |s| ensures s[k] <= x - 1 { LargestBounds(s, k); }
      AtMostAll(s, x - 1);
      AtMostMonotone(s, x - 1, x);
    }
    LargestIsWord(s);
  }

  lemma {:induction false} LargestIsWord(s: seq<nat>)
    requires Words(s)
    ensures Word(Largest(s))
  {
    if s != [] { LargestIsWord(s[..|s| - 1]); }
  }

  /** The bucket where the counts first reach rank r is the bucket of the sample of rank r. */
  lemma RankBucket(s: seq<nat>, r: nat, x: nat, i: nat)
    requires Words(s) && IsRank(s, r, x) && i < BUCKETS && Below(s, i) < r <= Below(s, i + 1)
    ensures Index(x) == i
  {
    RankIsWord(s, r, x);
    BelowIsAtMost(s, i + 1);
    IndexUpper(x, i);
    if Upper(i) < x { AtMostMonotone(s, Upper(i), x - 1); }
    if i > 0 {
      BelowIsAtMost(s, i);
      IndexUpper(x, i - 1);
      if x <= Upper(i - 1) { AtMostMonotone(s, x, Upper(i - 1)); }
    }
  }

  // ------------------------------------------------------------ the histogram

  function Max(a: nat, b: nat): nat { if a >= b then a else b }

  function Min(a: nat, b: nat): nat { if a <= b then a else b }

  /** v is the sample of rank r rounded up to the edge of its bucket, and no more than the largest. */
  ghost predicate AtRank(s: seq<nat>, r: nat, v: nat) {
    exists x: nat :: IsRank(s, r, x) && x <= v && v == Min(Upper(Index(x)), Largest(s))
  }

  /** So what a quantile answers is never below the sample of its rank, exact below 32, and less than a sixteenth above it. */
  lemma QuantileError(s: seq<nat>, r: nat, v: nat, x: nat)
    requires Words(s) && AtRank(s, r, v) && IsRank(s, r, x)
    ensures x <= v && (x < 32 ==> v == x) && (x >= 32 ==> 16 * (v - x) < x)
  {
    var y: nat :| IsRank(s, r, y) && y <= v && v == Min(Upper(Index(y)), Largest(s));
    RankIsUnique(s, r, x, y);
    RankIsWord(s, r, x);
    UpperError(x);
  }

  /** v is the sample with number at (from 0, in increasing order), rounded up to the edge of its bucket and no more than the largest. */
  ghost predicate Picks(s: seq<nat>, at: real, v: nat) { exists x: nat :: PicksFrom(s, at, v, x) }

  predicate PicksFrom(s: seq<nat>, at: real, v: nat, x: nat) {
    && AtMost(s, x - 1) as real <= at < AtMost(s, x) as real
    && x <= v == Min(Upper(Index(x)), Largest(s))
  }

  lemma RankPicks(s: seq<nat>, at: real, v: nat)
    requires at >= 0.0 && AtRank(s, at.Floor + 1, v)
    ensures Picks(s, at, v)
  {
    var x: nat :| IsRank(s, at.Floor + 1, x) && x <= v && v == Min(Upper(Index(x)), Largest(s));
    assert PicksFrom(s, at, v, x);
  }

  function Smallest(s: seq<nat>): (x: nat)
    requires s != []
    ensures x in s && forall k | 0 <= k < |s| :: x <= s[k]
  {
    if |s| == 1 then s[0]
    else
      var x := Smallest(s[..|s| - 1]);
      assert forall k | 0 <= k < |s| - 1 :: s[k] == s[..|s| - 1][k];
      if s[|s| - 1] < x then s[|s| - 1] else x
  }

  lemma {:induction false} AtMostCounts(s: seq<nat>, x: int)
    ensures AtMost(s, x) == 0 <==> forall k | 0 <= k < |s| :: x < s[k]
    ensures AtMost(s, x) == |s| <==> forall k | 0 <= k < |s| :: s[k] <= x
    ensures AtMost(s, x) <= |s|
  {
    if s != [] {
      AtMostCounts(s[..|s| - 1], x);
      assert forall k | 0 <= k < |s| - 1 :: s[k] == s[..|s| - 1][k];
    }
  }

  /** Number 0 is the smallest sample. */
  lemma PicksSmallest(s: seq<nat>, v: nat)
    requires s != [] && Picks(s, 0.0, v)
    ensures v == Min(Upper(Index(Smallest(s))), Largest(s))
  {
    var x: nat :| PicksFrom(s, 0.0, v, x);
    AtMostCounts(s, x - 1);
    AtMostCounts(s, x);
    var k :| 0 <= k < |s| && s[k] == Smallest(s);
    assert x <= s[k];
    assert x == Smallest(s);
  }

  /** Number n - 1 is the largest, and the maximum caps its edge. */
  lemma PicksLargest(s: seq<nat>, at: real, v: nat)
    requires s != [] && at == |s| as real - 1.0 && Picks(s, at, v)
    ensures v == Largest(s)
  {
    var x: nat :| PicksFrom(s, at, v, x);
    AtMostCounts(s, x);
    LargestIsIn(s);
  }

  lemma {:induction false} LargestIsIn(s: seq<nat>)
    requires s != []
    ensures Largest(s) in s
  {
    if |s| > 1 { LargestIsIn(s[..|s| - 1]); }
  }

  lemma PickedIs(s: seq<nat>, at: real, i: nat, v: nat)
    requires Words(s) && s != [] && at >= 0.0 && i <= BUCKETS
    requires Below(s, i) < at.Floor + 1 && (i < BUCKETS ==> at.Floor + 1 <= Below(s, i + 1))
    requires v == if i < BUCKETS then Min(Upper(i), Largest(s)) else Largest(s)
    ensures at < |s| as real ==> Picks(s, at, v)
    ensures at >= |s| as real ==> v == Largest(s)
  {
    AllBelow(s);
    if i < BUCKETS {
      QuantileFound(s, at.Floor + 1, i);
      RankPicks(s, at, v);
    }
  }

  /** The q-quantile: the samples are numbered from 0 in increasing order, the one wanted is number q * (n - 1), and past the last it is the largest. */
  ghost predicate IsQuantile(s: seq<nat>, q: real, v: nat) {
    var n := |s| as real;
    && (q * (n - 1.0) < n ==> Picks(s, q * (n - 1.0), v))
    && (q * (n - 1.0) >= n ==> v == Largest(s))
  }

  lemma QuantileIs(s: seq<nat>, q: real, at: real, v: nat)
    requires s != [] && at == q * (|s| as real - 1.0)
    requires if at < |s| as real then Picks(s, at, v) else v == Largest(s)
    ensures IsQuantile(s, q, v)
    ensures q == 0.0 ==> v == Min(Upper(Index(Smallest(s))), Largest(s))
    ensures q == 1.0 ==> v == Largest(s)
  {
    hide Picks, Largest, Smallest, Min, Upper, Index;
    if q == 0.0 { PicksSmallest(s, v); }
    if q == 1.0 { PicksLargest(s, at, v); }
  }

  class Histogram {
    const counts: array<nat>
    var n: nat
    var max: nat
    ghost var samples: seq<nat>

    /** The state is a function of the samples recorded. */
    ghost predicate Valid()
      reads this, counts
    {
      && counts.Length == BUCKETS && Words(samples)
      && (forall i | 0 <= i < BUCKETS :: counts[i] == InBucket(samples, i))
      && n == |samples| && max == Largest(samples)
    }

    constructor ()
      ensures Valid() && fresh(counts) && samples == []
    {
      counts := new nat[BUCKETS](i => 0);
      n, max, samples := 0, 0, [];
    }

    method Record(v: nat)
      requires Valid() && Word(v)
      modifies this, counts
      ensures Valid() && samples == old(samples) + [v]
    {
      IndexInRange(v);
      counts[Index(v)] := counts[Index(v)] + 1;
      n := n + 1;
      max := Max(max, v);
      samples := samples + [v];
      assert samples[..|samples| - 1] == old(samples);
    }

    /** The other's samples, as if they had been recorded here. */
    method Merge(o: Histogram)
      requires Valid() && o.Valid() && (o == this || o.counts != counts)
      modifies this, counts
      ensures Valid() && samples == old(samples) + old(o.samples)
    {
      var i := 0;
      while i < BUCKETS
        modifies counts
        invariant 0 <= i <= BUCKETS
        invariant forall k | 0 <= k < i :: counts[k] == old(counts[k]) + old(o.counts[k])
        invariant forall k | i <= k < BUCKETS :: counts[k] == old(counts[k]) && o.counts[k] == old(o.counts[k])
      {
        counts[i] := counts[i] + o.counts[i];
        i := i + 1;
      }
      n := n + o.n;
      max := Max(max, o.max);
      ghost var a, b := old(samples), old(o.samples);
      samples := a + b;
      LargestAppend(a, b);
      forall k | 0 <= k < BUCKETS ensures counts[k] == InBucket(samples, k) { InBucketAppend(a, b, k); }
    }

    // The first bucket at which the counts so far reach the rank, if any.
    method Reach(rank: nat) returns (i: nat)
      requires Valid() && rank >= 1
      ensures i <= BUCKETS && Below(samples, i) < rank && (i < BUCKETS ==> rank <= Below(samples, i + 1))
    {
      var seen := 0;
      i := 0;
      while i < BUCKETS
        invariant 0 <= i <= BUCKETS && seen == Below(samples, i) < rank
      {
        seen := seen + counts[i];
        if seen >= rank { return; }
        i := i + 1;
      }
    }

    // The loop, for the number wanted.
    method AtNumber(at: real) returns (v: nat)
      requires Valid() && at >= 0.0 && n > 0
      ensures at < n as real ==> Picks(samples, at, v)
      ensures at >= n as real ==> v == Largest(samples)
    {
      var i := Reach(at.Floor + 1);
      v := if i < BUCKETS then Min(Upper(i), max) else max;
      PickedIs(samples, at, i, v);
    }

    /**
     * With the samples in increasing order and numbered from 0, picks the one
     * whose number is the whole part of q * (n - 1), and rounds it up to the edge
     * of its bucket, at most the largest; the largest if there is no such sample.
     */
    method Quantile(q: real) returns (v: nat)
      requires Valid() && q >= 0.0
      ensures n == 0 ==> v == 0
      ensures n > 0 ==> IsQuantile(samples, q, v)
      ensures n > 0 && q == 0.0 ==> v == Min(Upper(Index(Smallest(samples))), Largest(samples))
      ensures n > 0 && q == 1.0 ==> v == Largest(samples)
    {
      hide IsQuantile, Picks, Largest, Smallest, Min, Upper, Index, InBucket;
      if n == 0 { return 0; }
      var at := q * (n as real - 1.0);
      RankPositive(q, n as real - 1.0);
      v := AtNumber(at);
      QuantileIs(samples, q, at, v);
    }

    /** Samples strictly above v, to bucket resolution. */
    method CountAbove(v: nat) returns (above: nat)
      requires Valid() && Word(v)
      ensures above + AtMost(samples, Upper(Index(v))) == n
    {
      IndexInRange(v);
      above := 0;
      var i := Index(v) + 1;
      BelowIsAtMost(samples, i);
      while i < BUCKETS
        invariant Index(v) + 1 <= i <= BUCKETS
        invariant above + AtMost(samples, Upper(Index(v))) == Below(samples, i)
      {
        above := above + counts[i];
        i := i + 1;
      }
      AllBelow(samples);
    }
  }

  lemma AllBelow(s: seq<nat>)
    requires Words(s)
    ensures Below(s, BUCKETS) == |s|
  {
    BelowIsAtMost(s, BUCKETS);
    forall k | 0 <= k < |s| ensures s[k] <= Upper(BUCKETS - 1) {
      IndexInRange(s[k]);
      IndexUpper(s[k], BUCKETS - 1);
    }
    AtMostAll(s, Upper(BUCKETS - 1));
  }

  lemma RankPositive(q: real, m: real)
    requires q >= 0.0 && m >= 0.0
    ensures (q * m).Floor >= 0
  {
  }

  lemma QuantileFound(s: seq<nat>, r: nat, i: nat)
    requires Words(s) && i < BUCKETS && 1 <= r && Below(s, i) < r <= Below(s, i + 1)
    ensures r <= |s| && AtRank(s, r, Min(Upper(i), Largest(s)))
  {
    BelowIsAtMost(s, i + 1);
    var x := RankExists(s, r, Upper(i));
    RankBucket(s, r, x, i);
    RankIsWord(s, r, x);
    AtMostMonotone(s, Upper(i), Upper(i));
  }
}

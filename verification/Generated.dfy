/** The generated handler set: 100 handlers that meet what every arm asks of them. */
module Generated {
  import opened Dispatch
  import opened Scans
  import opened Tables
  import opened Compact
  import opened Powers
  import opened Words

  const HANDLERS := 100

  function ResidualOf(n: nat): bool { n % 10 == 7 }

  function KeyOf(n: nat): Key
    requires n < HANDLERS
  {
    if ResidualOf(n) then 900 + n % 3 else n
  }

  // payload[0], of the 24 there are.
  function First(p: Packet): Byte { if p.payload == [] then 0 else p.payload[0] }

  function Gen(n: nat): Handler
    requires n < HANDLERS
  {
    var key, residual := KeyOf(n), ResidualOf(n);
    Handler(n, key, residual,
            (p: Packet) => p.protocol == key && (!residual || And(First(p), 3) == And(n / 10, 3)))
  }

  /** The first n of the set, in registration order. */
  function Prefix(n: nat): seq<Handler>
    requires n <= HANDLERS
  {
    seq(n, (i: nat) requires i < n => Gen(i))
  }

  lemma GenIsHonest(n: nat)
    requires n < HANDLERS
    ensures Honest(Gen(n))
  {
  }

  lemma LowTwoBits(x: nat)
    ensures And(x, 3) == x % 4
  {
    assert Pow2(2) == 4;
    MaskIsMod(2, x);
  }

  // Residual handlers on one key ask for different bits: 3 and 4 have no common factor.
  lemma ResidualsDiffer(a: nat, b: nat)
    requires a < b < HANDLERS && ResidualOf(a) && ResidualOf(b) && a % 3 == b % 3
    ensures a / 10 % 4 != b / 10 % 4
  {
    var s, t := a / 10, b / 10;
    assert a == 10 * s + 7 && b == 10 * t + 7;
    assert a % 3 == (s + 1) % 3 && b % 3 == (t + 1) % 3;
  }

  /** No packet has two handlers in the set. */
  lemma GenDisjoint(a: nat, b: nat, p: Packet)
    requires a < b < HANDLERS
    ensures !(Gen(a).matches(p) && Gen(b).matches(p))
  {
    LowTwoBits(a / 10);
    LowTwoBits(b / 10);
    if KeyOf(a) == KeyOf(b) { ResidualsDiffer(a, b); }
  }

  /** So any prefix meets what every arm asks of its handlers. */
  lemma PrefixMeets(n: nat)
    requires n <= HANDLERS
    ensures AllHonest(Prefix(n)) && Disjoint(Prefix(n)) && Fits(Prefix(n)) && Injective(KeysOf(Prefix(n)))
  {
    PrefixHonest(n);
    PrefixDisjoint(n);
    PrefixFits(n);
    PrefixInjective(n);
    hide Prefix, AllHonest, Disjoint, Fits, Injective;
  }

  lemma PrefixHonest(n: nat)
    requires n <= HANDLERS
    ensures AllHonest(Prefix(n))
  {
    forall i | 0 <= i < n ensures Honest(Prefix(n)[i]) { GenIsHonest(i); }
    hide Gen;
  }

  lemma PrefixDisjoint(n: nat)
    requires n <= HANDLERS
    ensures Disjoint(Prefix(n))
  {
    var hs := Prefix(n);
    forall i, j, p: Packet | 0 <= i < j < |hs| ensures !(hs[i].matches(p) && hs[j].matches(p)) { GenDisjoint(i, j, p); }
    hide Gen;
  }

  lemma PrefixFits(n: nat)
    requires n <= HANDLERS
    ensures Fits(Prefix(n))
  {
    var hs := Prefix(n);
    forall i | 0 <= i < |hs| ensures |Candidates(hs, hs[i].key)| < 0x1_0000 { CandidatesAre(hs, hs[i].key); }
    hide Gen;
  }

  lemma PrefixInjective(n: nat)
    requires n <= HANDLERS
    ensures Injective(KeysOf(Prefix(n)))
  {
    var ks := KeysOf(Prefix(n));
    KeysAre(Prefix(n));
    forall i, j | 0 <= i < j < |ks| ensures Low(ks[i]) != Low(ks[j]) {
      PrefixKeyBelow(n, ks[i]);
      PrefixKeyBelow(n, ks[j]);
      SmallIsLow(ks[i]);
      SmallIsLow(ks[j]);
      hide Low, Prefix;
    }
    hide Prefix;
  }

  lemma SmallIsLow(k: Key)
    requires k < SIZE
    ensures Low(k) == k
  {
  }

  // Every declared key is its own low bits.
  lemma PrefixKeyBelow(n: nat, k: Key)
    requires n <= HANDLERS && k in KeysOf(Prefix(n))
    ensures k < SIZE
  {
    KeysAre(Prefix(n));
    CandidatesAre(Prefix(n), k);
    var i :| 0 <= i < |Prefix(n)| && Prefix(n)[i].key == k;
    assert Prefix(n)[i] == Gen(i);
  }

  /** Over any prefix of the set and any packets before, all five arms give every packet the same handler. */
  lemma ArmsAgree(n: nat, seen: seq<Packet>, ordered: seq<Handler>, direct: TableDirect16, compact: TableCompact, p: Packet)
    requires n <= HANDLERS && multiset(ordered) == multiset(Prefix(n))
    requires direct.Valid(Prefix(n)) && compact.Valid(Prefix(n))
    ensures var hs := Prefix(n);
      && FirstMatch(ordered, p) == FirstMatch(hs, p)
      && FirstMatch(After(hs, seen), p) == FirstMatch(hs, p)
      && direct.Answers(hs, p) == FirstMatch(hs, p)
      && compact.Answers(hs, p) == FirstMatch(hs, p)
  {
    var hs := Prefix(n);
    PrefixMeets(n);
    PermutationAgrees(hs, ordered, p);
    MoveToFrontAgrees(hs, seen, p);
    TableAnswers(direct.tbl[p.protocol], direct.cand, hs, p);
    compact.CompactAnswers(hs, p);
  }
}

/** The compact table: right exactly where no two declared keys share their low bits. */
module Compact {
  import opened Options
  import opened Dispatch
  import opened Tables
  import Powers
  import Words

  const SIZE := 1024
  const NO_KEY: Key := 0xFFFF

  // k & 0x3FF.
  function Low(k: Key): nat { k % SIZE }

  lemma LowIsMask(k: Key)
    ensures Words.And(k, 0x3FF) == Low(k)
  {
    assert Powers.Pow2(5) == 32;
    assert Powers.Pow2(10) == SIZE by { Powers.Pow2Sum(5, 5); }
    Words.MaskIsMod(10, k);
  }

  /** No two declared keys share their low bits. */
  ghost predicate Injective(ks: seq<Key>) { forall i, j | 0 <= i < j < |ks| :: Low(ks[i]) != Low(ks[j]) }

  // Which key slot x holds after the keys ks, NO_KEY for none.
  function Holder(ks: seq<Key>, x: nat): Key {
    if ks == [] then NO_KEY
    else
      var held := Holder(ks[..|ks| - 1], x);
      if Low(ks[|ks| - 1]) == x && (held == NO_KEY || held == ks[|ks| - 1]) then ks[|ks| - 1] else held
  }

  // What the constructor reports: no key found its slot taken.
  function Reported(ks: seq<Key>): bool {
    if ks == [] then true
    else
      var k := ks[|ks| - 1];
      var held := Holder(ks[..|ks| - 1], Low(k));
      Reported(ks[..|ks| - 1]) && !(held != NO_KEY && held != k)
  }

  // Key i holds slot x against the keys to come.
  predicate Takes(ks: seq<Key>, i: nat, x: nat) { i < |ks| && ks[i] != NO_KEY && Low(ks[i]) == x }

  lemma {:induction false} HolderIs(ks: seq<Key>, x: nat)
    ensures Holder(ks, x) != NO_KEY ==> Holder(ks, x) in ks && Low(Holder(ks, x)) == x
    ensures Holder(ks, x) != NO_KEY <==> exists i :: Takes(ks, i, x)
  {
    if ks != [] {
      var n := |ks| - 1;
      HolderIs(ks[..n], x);
      forall i: nat ensures i < n ==> (Takes(ks, i, x) <==> Takes(ks[..n], i, x)) {}
      if Holder(ks, x) != NO_KEY {
        if Holder(ks[..n], x) == NO_KEY { assert Takes(ks, n, x); }
        else {
          var i :| Takes(ks[..n], i, x);
          assert Takes(ks, i, x);
        }
      }
      if i: nat :| Takes(ks, i, x) {
        if i < n { assert Takes(ks[..n], i, x); }
      }
    }
  }

  // With one key a slot, each key holds its own.
  lemma {:induction false} InjectiveHolds(ks: seq<Key>, i: nat)
    requires Injective(ks) && i < |ks|
    ensures Holder(ks, Low(ks[i])) == ks[i]
  {
    var n := |ks| - 1;
    if i < n {
      assert Injective(ks[..n]) && ks[..n][i] == ks[i];
      InjectiveHolds(ks[..n], i);
      assert Low(ks[i]) != Low(ks[n]);
    } else {
      HolderIs(ks[..n], Low(ks[n]));
    }
  }

  // The keys other than 0xFFFF differ in their low bits.
  ghost predicate OthersDiffer(ks: seq<Key>) {
    forall i, j | 0 <= i < j < |ks| && ks[i] != NO_KEY && ks[j] != NO_KEY :: Low(ks[i]) != Low(ks[j])
  }

  // No key declared before 0xFFFF has its low bits.
  ghost predicate NoneBefore(ks: seq<Key>) {
    forall i, j | 0 <= i < j < |ks| && ks[j] == NO_KEY :: Low(ks[i]) != Low(NO_KEY)
  }

  // A key declared after 0xFFFF has its low bits.
  ghost predicate OneAfter(ks: seq<Key>) {
    exists i, j | 0 <= i < j < |ks| :: ks[i] == NO_KEY && Low(ks[j]) == Low(NO_KEY)
  }

  /** What the report says of any declared keys. */
  lemma {:induction false} ReportIs(ks: seq<Key>)
    requires Distinct(ks)
    ensures Reported(ks) <==> OthersDiffer(ks) && NoneBefore(ks)
  {
    if ks != [] {
      var n := |ks| - 1;
      var k, first := ks[n], ks[..n];
      ReportIs(first);
      HolderIs(first, Low(k));
      if Reported(ks) {
        forall i | 0 <= i < n && (ks[i] != NO_KEY || k == NO_KEY) ensures Low(ks[i]) != Low(k) { assert !Takes(first, i, Low(k)); }
        assert OthersDiffer(ks) && NoneBefore(ks);
      }
      if OthersDiffer(ks) && NoneBefore(ks) {
        assert OthersDiffer(first) && NoneBefore(first);
        forall i: nat | i < n && ks[i] != NO_KEY ensures Low(ks[i]) != Low(k) {}
        assert forall i: nat :: !Takes(first, i, Low(k));
      }
    }
  }

  /**
   * It is wrong about exactly the key sets whose only collision is with a 0xFFFF
   * declared first, and then it calls a colliding set injective.
   */
  lemma ReportIsWrongIff(ks: seq<Key>)
    requires Distinct(ks)
    ensures Injective(ks) ==> Reported(ks)
    ensures Reported(ks) && !Injective(ks) <==> OthersDiffer(ks) && NoneBefore(ks) && OneAfter(ks)
    ensures NO_KEY !in ks ==> (Reported(ks) <==> Injective(ks))
  {
    ReportIs(ks);
    if OneAfter(ks) {
      var i, j :| 0 <= i < j < |ks| && ks[i] == NO_KEY && Low(ks[j]) == Low(NO_KEY);
      assert Low(ks[i]) == Low(ks[j]);
    }
    if OthersDiffer(ks) && NoneBefore(ks) && !OneAfter(ks) {
      forall i, j | 0 <= i < j < |ks| ensures Low(ks[i]) != Low(ks[j]) {}
    }
  }

  // Of two keys on one slot, one does not hold it.
  lemma OneHolds(ks: seq<Key>, i: nat, j: nat)
    requires Distinct(ks) && i < j < |ks| && Low(ks[i]) == Low(ks[j])
    ensures Holder(ks, Low(ks[i])) != ks[i] || Holder(ks, Low(ks[j])) != ks[j]
  {
    assert ks[i] != ks[j];
  }

  datatype CSlot = CSlot(key: Key, s: Slot)

  function Lookup(cs: CSlot, cand: seq<Handler>, p: Packet): Option<Handler>
    requires InRange(cs.s, cand)
  {
    if cs.key != p.protocol then None else Answer(cs.s, cand, p)
  }

  class TableCompact {
    const tbl: array<CSlot>
    var cand: seq<Handler>
    var injective: bool

    // What the constructor's loop has done for the keys ks.
    ghost predicate Partial(hs: seq<Handler>, ks: seq<Key>)
      reads this, tbl
    {
      && tbl.Length == SIZE && |cand| <= Total(hs, ks) && injective == Reported(ks)
      && (forall x | 0 <= x < SIZE :: InRange(tbl[x].s, cand) && tbl[x].key == Holder(ks, x))
      && (forall x | 0 <= x < SIZE :: Untaken(ks, x) ==> tbl[x].s == EMPTY)
      && (Injective(ks) ==> forall i | 0 <= i < |ks| :: Filed(tbl[Low(ks[i])].s, cand, Candidates(hs, ks[i])))
    }

    /** The table of the handlers hs. */
    ghost predicate Valid(hs: seq<Handler>)
      reads this, tbl
    {
      Partial(hs, KeysOf(hs))
    }

    constructor (hs: seq<Handler>)
      ensures Valid(hs) && fresh(tbl)
    {
      tbl := new CSlot[SIZE](i => CSlot(NO_KEY, EMPTY));
      cand, injective := [], true;
      new;
      var b := new TableBuilder(hs);
      var ks := b.DistinctKeys(hs);
      KeysAre(hs);
      AddKeys(b, hs, ks);
    }

    // The constructor's loop.
    method AddKeys(b: TableBuilder, ghost hs: seq<Handler>, ks: seq<Key>)
      requires Partial(hs, []) && b.keyed == EntriesOf(hs) && Distinct(ks)
      modifies this`cand, this`injective, tbl
      ensures Partial(hs, ks)
    {
      hide Partial, EntriesOf;
      var j := 0;
      while j < |ks|
        invariant 0 <= j <= |ks| && Partial(hs, ks[..j])
      {
        AddKey(b, hs, ks[..j], ks[j]);
        assert ks[..j] + [ks[j]] == ks[..j + 1];
        j := j + 1;
      }
      assert ks[..|ks|] == ks;
    }

    // One round of the constructor's loop.
    method AddKey(b: TableBuilder, ghost hs: seq<Handler>, ghost ks: seq<Key>, k: Key)
      requires Partial(hs, ks) && b.keyed == EntriesOf(hs) && k !in ks
      modifies this`cand, this`injective, tbl
      ensures Partial(hs, ks + [k])
    {
      var x := Low(k);
      assert (ks + [k])[..|ks|] == ks;
      HolderIs(ks, x);
      hide Candidates, Filed;
      if tbl[x].key != NO_KEY && tbl[x].key != k {
        injective := false;
        Collides(ks, k);
      } else {
        File(b, hs, ks, k);
      }
    }

    // The key gets its slot and its candidates are filed there.
    method File(b: TableBuilder, ghost hs: seq<Handler>, ghost ks: seq<Key>, k: Key)
      requires Partial(hs, ks) && b.keyed == EntriesOf(hs) && k !in ks
      requires tbl[Low(k)].key == NO_KEY || tbl[Low(k)].key == k
      modifies this`cand, tbl
      ensures Partial(hs, ks + [k])
    {
      var x := Low(k);
      assert (ks + [k])[..|ks|] == ks;
      var cs, allPure := b.Gather(hs, k);
      BuiltInRange(tbl[x].s, cand, cs, allPure);
      BuiltIsFiled(cand, cs, allPure);
      if Injective(ks + [k]) { StillFiled(hs, ks, k, cs, allPure); }
      hide Candidates, Filed, EntriesOf;
      tbl[x] := CSlot(k, Built(tbl[x].s, cand, cs, allPure));
      cand := Grown(cand, cs, allPure);
    }

    lemma StillFiled(hs: seq<Handler>, ks: seq<Key>, k: Key, cs: seq<Handler>, allPure: bool)
      requires Partial(hs, ks) && Injective(ks + [k])
      ensures Injective(ks) && Untaken(ks, Low(k))
      ensures forall i | 0 <= i < |ks| :: Filed(tbl[Low(ks[i])].s, Grown(cand, cs, allPure), Candidates(hs, ks[i]))
    {
      forall i | 0 <= i < |ks| ensures Low(ks[i]) != Low(k) { assert Low((ks + [k])[i]) != Low((ks + [k])[|ks|]); }
      forall i, j | 0 <= i < j < |ks| ensures Low(ks[i]) != Low(ks[j]) { assert Low((ks + [k])[i]) != Low((ks + [k])[j]); }
      forall i | 0 <= i < |ks| ensures Filed(tbl[Low(ks[i])].s, Grown(cand, cs, allPure), Candidates(hs, ks[i])) {
        FiledStays(tbl[Low(ks[i])].s, cand, cs, Candidates(hs, ks[i]));
      }
    }

    /**
     * The scan's answer, for every honest handler list whose counts fit and whose
     * keys differ in their low bits.
     */
    method Dispatch(ghost hs: seq<Handler>, p: Packet) returns (r: Option<Handler>)
      requires Valid(hs)
      ensures r == Answers(hs, p)
      ensures AllHonest(hs) && Fits(hs) && Injective(KeysOf(hs)) ==> r == FirstMatch(hs, p)
    {
      var cs := tbl[Low(p.protocol)];
      if AllHonest(hs) && Fits(hs) && Injective(KeysOf(hs)) { CompactAnswers(hs, p); }
      if cs.key != p.protocol { return None; }
      r := Ask(cs.s, cand, p);
    }

    lemma CompactAnswers(hs: seq<Handler>, p: Packet)
      requires Valid(hs) && AllHonest(hs) && Fits(hs) && Injective(KeysOf(hs))
      ensures Answers(hs, p) == FirstMatch(hs, p)
    {
      var k := p.protocol;
      var ks := KeysOf(hs);
      var cs := tbl[Low(k)];
      KeysAre(hs);
      TotalBelow(hs, ks);
      CandidatesSuffice(hs, p);
      if Candidates(hs, k) != [] {
        var i :| 0 <= i < |ks| && ks[i] == k;
        InjectiveHolds(ks, i);
        TableAnswers(cs.s, cand, hs, p);
      } else if cs.key == k {
        Unclaimed(ks, k);
        TableAnswers(cs.s, cand, hs, p);
      }
    }

    /**
     * Where two declared keys share their low bits, some declared key has all its
     * packets refused: the condition is needed whenever every handler matches something.
     */
    lemma CollisionRefuses(hs: seq<Handler>, i: nat, j: nat) returns (k: Key)
      requires Valid(hs) && i < j < |KeysOf(hs)| && Low(KeysOf(hs)[i]) == Low(KeysOf(hs)[j])
      ensures Candidates(hs, k) != []
      ensures forall p: Packet | p.protocol == k :: Answers(hs, p) == None
    {
      KeysAre(hs);
      OneHolds(KeysOf(hs), i, j);
      k := if Holder(KeysOf(hs), Low(KeysOf(hs)[i])) != KeysOf(hs)[i] then KeysOf(hs)[i] else KeysOf(hs)[j];
      assert k in KeysOf(hs);
    }

    /**
     * Where the report is wrong, 0xFFFF is a declared key and all its packets are
     * refused, by a table that calls its keys injective.
     */
    lemma WrongReportRefuses(hs: seq<Handler>)
      requires Valid(hs) && injective && !Injective(KeysOf(hs))
      ensures Candidates(hs, NO_KEY) != []
      ensures forall p: Packet | p.protocol == NO_KEY :: Answers(hs, p) == None
    {
      var ks := KeysOf(hs);
      KeysAre(hs);
      ReportIsWrongIff(ks);
      var i, j :| 0 <= i < j < |ks| && ks[i] == NO_KEY && Low(ks[j]) == Low(NO_KEY);
      HolderIs(ks, Low(NO_KEY));
      assert ks[j] != ks[i] && Takes(ks, j, Low(NO_KEY));
    }

    /** What the table answers, once it is built. */
    ghost function Answers(hs: seq<Handler>, p: Packet): Option<Handler>
      requires Valid(hs)
      reads this, tbl
    {
      Lookup(tbl[Low(p.protocol)], cand, p)
    }

    /** So the table agrees with the scan on every packet exactly when the keys differ in their low bits. */
    lemma CompactAgreesIff(hs: seq<Handler>)
      requires Valid(hs) && AllHonest(hs) && Fits(hs)
      requires AllMatchable(hs)
      ensures (forall p: Packet :: Answers(hs, p) == FirstMatch(hs, p)) <==> Injective(KeysOf(hs))
    {
      hide AllHonest, Fits, Partial, Answers, FirstMatch, KeysOf;
      if Injective(KeysOf(hs)) {
        forall p: Packet ensures Answers(hs, p) == FirstMatch(hs, p) { CompactAnswers(hs, p); }
      } else {
        var p := Diverges(hs);
      }
    }

    lemma Diverges(hs: seq<Handler>) returns (p: Packet)
      requires Valid(hs) && AllHonest(hs) && !Injective(KeysOf(hs))
      requires AllMatchable(hs)
      ensures Answers(hs, p) != FirstMatch(hs, p)
    {
      var i, j :| 0 <= i < j < |KeysOf(hs)| && Low(KeysOf(hs)[i]) == Low(KeysOf(hs)[j]);
      var k := CollisionRefuses(hs, i, j);
      p := Accepted(hs, k);
    }
  }

  // No declared key's low bits are x.
  ghost predicate Untaken(ks: seq<Key>, x: nat) { forall i | 0 <= i < |ks| :: Low(ks[i]) != x }

  lemma Collides(ks: seq<Key>, k: Key)
    requires Holder(ks, Low(k)) in ks && Low(Holder(ks, Low(k))) == Low(k)
    ensures !Injective(ks + [k])
  {
    var i :| 0 <= i < |ks| && ks[i] == Holder(ks, Low(k));
    assert Low((ks + [k])[i]) == Low((ks + [k])[|ks|]);
  }

  // The slot whose key is that of a packet nobody declared is an empty one.
  lemma Unclaimed(ks: seq<Key>, k: Key)
    requires Injective(ks) && k !in ks && Holder(ks, Low(k)) == k
    ensures Untaken(ks, Low(k))
  {
    forall i | 0 <= i < |ks| ensures Low(ks[i]) != Low(k) {
      if Low(ks[i]) == Low(k) { InjectiveHolds(ks, i); }
    }
  }

  // Some packet is h's.
  ghost predicate Matchable(h: Handler) { exists p: Packet :: h.matches(p) }

  ghost predicate AllMatchable(hs: seq<Handler>) { forall i | 0 <= i < |hs| :: Matchable(hs[i]) }

  // A packet of key k that the scan accepts.
  lemma Accepted(hs: seq<Handler>, k: Key) returns (p: Packet)
    requires AllHonest(hs) && Candidates(hs, k) != [] && AllMatchable(hs)
    ensures p.protocol == k && FirstMatch(hs, p) != None
  {
    CandidatesAre(hs, k);
    var i :| 0 <= i < |hs| && hs[i].key == k;
    assert Matchable(hs[i]);
    p :| hs[i].matches(p);
    assert Honest(hs[i]);
    var at := FirstMatchIs(hs, p);
  }

  // ------------------------------------------------------------ a declared 0xFFFF

  function Marked(): seq<Handler> { [Pure(0, 0xFFFF), Pure(1, 0x03FF)] }

  /**
   * 0xFFFF declared before a key with its low bits: a table built from these two
   * calls their keys injective, and refuses packets that the scan accepts.
   */
  lemma EmptyMarkerCollides(table: TableCompact)
    requires table.Valid(Marked())
    ensures AllHonest(Marked()) && Fits(Marked()) && table.injective
    ensures forall p: Packet | p.protocol == 0xFFFF :: FirstMatch(Marked(), p) == Some(Marked()[0]) && table.Answers(Marked(), p) == None
  {
    var hs := Marked();
    var ks: seq<Key> := [0xFFFF, 0x03FF];
    TwoKeys(hs[0], hs[1]);
    assert hs == [hs[0], hs[1]] && KeysOf(hs) == ks;
    assert ks[..1] == [0xFFFF] && ks[..1][..0] == [];
    assert Holder([], 0x03FF) == NO_KEY;
    assert Holder(ks[..1], 0x03FF) == NO_KEY;
    assert Low(ks[0]) == Low(ks[1]);
    assert Reported(ks) && !Injective(ks);
    table.WrongReportRefuses(hs);
    forall i | 0 <= i < |hs| ensures |Candidates(hs, hs[i].key)| < 0x1_0000 { CandidatesAre(hs, hs[i].key); }
  }

  lemma TwoKeys(a: Handler, b: Handler)
    requires a.key != b.key
    ensures KeysOf([a, b]) == [a.key, b.key]
  {
    var hs := [a, b];
    assert hs[..1] == [a] && hs[..1][..0] == [];
    assert KeysOf(hs[..1][..0]) == [];
    assert KeysOf(hs[..1]) == [a.key];
  }
}

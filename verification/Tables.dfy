/** The table arms, built from what the handlers declare, against the scan. */
module Tables {
  import opened Options
  import opened Dispatch

  // ------------------------------------------------------------ TableBuilder

  datatype Entry = Entry(key: Key, residual: bool, h: Handler)

  function EntriesOf(hs: seq<Handler>): seq<Entry> {
    seq(|hs|, (i: nat) requires i < |hs| => Entry(hs[i].key, hs[i].residual, hs[i]))
  }

  /** The declared keys, each once, in the order of their first declaration. */
  function KeysOf(hs: seq<Handler>): seq<Key> {
    if hs == [] then []
    else
      var ks := KeysOf(hs[..|hs| - 1]);
      if hs[|hs| - 1].key in ks then ks else ks + [hs[|hs| - 1].key]
  }

  predicate Distinct(ks: seq<Key>) { forall i, j | 0 <= i < j < |ks| :: ks[i] != ks[j] }

  lemma {:induction false} KeysAre(hs: seq<Handler>)
    ensures Distinct(KeysOf(hs)) && |KeysOf(hs)| <= |hs|
    ensures forall k: Key :: k in KeysOf(hs) <==> Candidates(hs, k) != []
  {
    if hs != [] {
      var r := hs[..|hs| - 1];
      KeysAre(r);
      assert hs == r + [hs[|hs| - 1]];
      forall k: Key ensures k in KeysOf(hs) <==> Candidates(hs, k) != [] {
        CandidatesAppend(r, [hs[|hs| - 1]], k);
      }
    }
  }

  class TableBuilder {
    var keyed: seq<Entry>

    constructor (hs: seq<Handler>)
      ensures keyed == EntriesOf(hs)
    {
      keyed := [];
      new;
      var i := 0;
      while i < |hs|
        invariant 0 <= i <= |hs| && keyed == EntriesOf(hs)[..i]
      {
        keyed := keyed + [Entry(hs[i].key, hs[i].residual, hs[i])];
        i := i + 1;
      }
    }

    method DistinctKeys(ghost hs: seq<Handler>) returns (ks: seq<Key>)
      requires keyed == EntriesOf(hs)
      ensures ks == KeysOf(hs)
    {
      ks := [];
      var i := 0;
      while i < |keyed|
        invariant 0 <= i <= |keyed| && ks == KeysOf(hs[..i])
      {
        assert hs[..i + 1][..i] == hs[..i];
        if keyed[i].key !in ks { ks := ks + [keyed[i].key]; }
        i := i + 1;
      }
      assert hs[..|hs|] == hs;
    }

    // The candidates of one key, and whether all of them are pure.
    method Gather(ghost hs: seq<Handler>, k: Key) returns (cands: seq<Handler>, allPure: bool)
      requires keyed == EntriesOf(hs)
      ensures cands == Candidates(hs, k) && (allPure <==> forall i | 0 <= i < |cands| :: !cands[i].residual)
    {
      cands, allPure := [], true;
      var i := 0;
      while i < |keyed|
        invariant 0 <= i <= |keyed| && cands == Candidates(hs[..i], k)
        invariant allPure <==> forall j | 0 <= j < |cands| :: !cands[j].residual
      {
        CandidatesAppend(hs[..i], [hs[i]], k);
        assert hs[..i + 1] == hs[..i] + [hs[i]];
        assert [hs[i]][1..] == [];
        if keyed[i].key == k {
          ghost var was := cands;
          cands := cands + [keyed[i].h];
          assert cands[|was|] == hs[i] && forall j | 0 <= j < |was| :: cands[j] == was[j];
          if keyed[i].residual { allPure := false; }
        }
        i := i + 1;
      }
      assert hs[..|hs|] == hs;
    }
  }

  // ------------------------------------------------------------ a slot

  // only: the one pure handler of the key. Otherwise begin and count, cut to 32
  // and 16 bits, delimit the candidates.
  datatype Slot = Slot(only: Option<Handler>, begin: nat, count: nat)

  const EMPTY := Slot(None, 0, 0)

  predicate InRange(s: Slot, cand: seq<Handler>) { s.begin + s.count <= |cand| }

  // What a slot answers to a packet that has found it.
  function Answer(s: Slot, cand: seq<Handler>, p: Packet): Option<Handler>
    requires InRange(s, cand)
  {
    if s.only.Some? then s.only else FirstMatch(cand[s.begin..s.begin + s.count], p)
  }

  ghost predicate FiledAt(s: Slot, cand: seq<Handler>, cs: seq<Handler>, b: nat) {
    && s.only.None? && b + |cs| <= |cand| && cand[b..b + |cs|] == cs
    && s.begin == b % 0x1_0000_0000 && s.count == |cs| % 0x1_0000
  }

  predicate Alone(cs: seq<Handler>) { |cs| == 1 && !cs[0].residual }

  /** The slot stands for the candidates cs. */
  ghost predicate Filed(s: Slot, cand: seq<Handler>, cs: seq<Handler>) {
    if Alone(cs) then s.only == Some(cs[0]) else exists b: nat :: FiledAt(s, cand, cs, b)
  }

  lemma FiledStays(s: Slot, cand: seq<Handler>, more: seq<Handler>, cs: seq<Handler>)
    requires Filed(s, cand, cs)
    ensures Filed(s, cand + more, cs)
  {
    if !Alone(cs) {
      var b: nat :| FiledAt(s, cand, cs, b);
      assert (cand + more)[b..b + |cs|] == cand[b..b + |cs|];
      assert FiledAt(s, cand + more, cs, b);
    }
  }

  // What a constructor makes of slot s for one key's candidates, appended to the
  // others: it sets either only, or begin and count.
  function Built(s: Slot, cand: seq<Handler>, cs: seq<Handler>, allPure: bool): Slot {
    if |cs| == 1 && allPure then s.(only := Some(cs[0])) else s.(begin := |cand| % 0x1_0000_0000, count := |cs| % 0x1_0000)
  }

  function Grown(cand: seq<Handler>, cs: seq<Handler>, allPure: bool): seq<Handler> {
    if |cs| == 1 && allPure then cand else cand + cs
  }

  lemma BuiltInRange(s: Slot, cand: seq<Handler>, cs: seq<Handler>, allPure: bool)
    requires InRange(s, cand)
    ensures InRange(Built(s, cand, cs, allPure), Grown(cand, cs, allPure))
  {
  }

  lemma BuiltIsFiled(cand: seq<Handler>, cs: seq<Handler>, allPure: bool)
    requires allPure <==> forall i | 0 <= i < |cs| :: !cs[i].residual
    ensures Filed(Built(EMPTY, cand, cs, allPure), Grown(cand, cs, allPure), cs)
  {
    if Alone(cs) { assert forall i | 0 <= i < |cs| :: !cs[i].residual; }
    else {
      assert FiledAt(Built(EMPTY, cand, cs, allPure), cand + cs, cs, |cand|);
    }
  }

  /** What the counts must fit for the casts to keep them. */
  predicate Fits(hs: seq<Handler>) {
    |hs| < 0x1_0000_0000 && forall i | 0 <= i < |hs| :: |Candidates(hs, hs[i].key)| < 0x1_0000
  }

  // ------------------------------------------------------------ how many candidates are filed

  function Total(hs: seq<Handler>, ks: seq<Key>): nat {
    if ks == [] then 0 else Total(hs, ks[..|ks| - 1]) + |Candidates(hs, ks[|ks| - 1])|
  }

  lemma {:induction false} TotalStep(hs: seq<Handler>, h: Handler, ks: seq<Key>)
    requires Distinct(ks)
    ensures Total(hs + [h], ks) == Total(hs, ks) + (if h.key in ks then 1 else 0)
  {
    if ks != [] {
      var r, k := ks[..|ks| - 1], ks[|ks| - 1];
      TotalStep(hs, h, r);
      CandidatesAppend(hs, [h], k);
      assert [h][1..] == [];
      assert ks == r + [k];
    }
  }

  lemma {:induction false} TotalBelow(hs: seq<Handler>, ks: seq<Key>)
    requires Distinct(ks)
    ensures Total(hs, ks) <= |hs|
  {
    if hs == [] { TotalNone(ks); }
    else {
      var r := hs[..|hs| - 1];
      assert hs == r + [hs[|hs| - 1]];
      TotalStep(r, hs[|hs| - 1], ks);
      TotalBelow(r, ks);
    }
  }

  lemma {:induction false} TotalNone(ks: seq<Key>)
    ensures Total([], ks) == 0
  {
    if ks != [] { TotalNone(ks[..|ks| - 1]); }
  }

  // ------------------------------------------------------------ what a filed slot answers

  /** A filed slot answers as its candidates do, if both casts kept their values. */
  lemma FiledAnswers(s: Slot, cand: seq<Handler>, cs: seq<Handler>, p: Packet)
    requires InRange(s, cand) && Filed(s, cand, cs) && |cand| < 0x1_0000_0000 && |cs| < 0x1_0000
    requires forall i | 0 <= i < |cs| :: Honest(cs[i]) && cs[i].key == p.protocol
    ensures Answer(s, cand, p) == FirstMatch(cs, p)
  {
    if Alone(cs) { assert Honest(cs[0]); }
    else {
      var b: nat :| FiledAt(s, cand, cs, b);
      assert s.begin == b && s.count == |cs|;
      hide Filed, FiledAt, Honest;
    }
  }

  // And a table whose slots are all filed answers as the scan.
  lemma TableAnswers(s: Slot, cand: seq<Handler>, hs: seq<Handler>, p: Packet)
    requires AllHonest(hs) && Fits(hs) && |cand| <= |hs| && InRange(s, cand)
    requires if Candidates(hs, p.protocol) == [] then s == EMPTY else Filed(s, cand, Candidates(hs, p.protocol))
    ensures Answer(s, cand, p) == FirstMatch(hs, p)
  {
    var cs := Candidates(hs, p.protocol);
    CandidatesSuffice(hs, p);
    CandidatesAre(hs, p.protocol);
    if cs != [] {
      forall i | 0 <= i < |cs| ensures Honest(cs[i]) && cs[i].key == p.protocol {
        assert cs[i] in hs;
        var j :| 0 <= j < |hs| && hs[j] == cs[i];
        assert Honest(hs[j]);
      }
      var j :| 0 <= j < |hs| && hs[j].key == p.protocol;
      assert |Candidates(hs, hs[j].key)| < 0x1_0000;
      FiledAnswers(s, cand, cs, p);
    }
  }

  // ------------------------------------------------------------ TableDirect16

  class TableDirect16 {
    const tbl: array<Slot>
    var cand: seq<Handler>

    ghost predicate Valid(hs: seq<Handler>)
      reads this, tbl
    {
      && tbl.Length == 0x1_0000 && |cand| <= |hs|
      && (forall x | 0 <= x < tbl.Length :: InRange(tbl[x], cand))
      && forall k: Key :: if Candidates(hs, k) == [] then tbl[k] == EMPTY else Filed(tbl[k], cand, Candidates(hs, k))
    }

    // What the constructor's loop has done for the keys ks.
    ghost predicate Partial(hs: seq<Handler>, ks: seq<Key>)
      reads this, tbl
    {
      && tbl.Length == 0x1_0000 && |cand| <= Total(hs, ks)
      && (forall x | 0 <= x < tbl.Length :: InRange(tbl[x], cand))
      && (forall k: Key | k !in ks :: tbl[k] == EMPTY)
      && (forall i | 0 <= i < |ks| :: Filed(tbl[ks[i]], cand, Candidates(hs, ks[i])))
    }

    constructor (hs: seq<Handler>)
      ensures Valid(hs) && fresh(tbl)
    {
      tbl := new Slot[0x1_0000](i => EMPTY);
      cand := [];
      new;
      var b := new TableBuilder(hs);
      var ks := b.DistinctKeys(hs);
      KeysAre(hs);
      AddKeys(b, hs, ks);
      TotalBelow(hs, ks);
      KeysFiled(hs, ks);
    }

    // The constructor's loop.
    method AddKeys(b: TableBuilder, ghost hs: seq<Handler>, ks: seq<Key>)
      requires Partial(hs, []) && b.keyed == EntriesOf(hs) && Distinct(ks)
      modifies this`cand, tbl
      ensures Partial(hs, ks)
    {
      hide Partial, EntriesOf;
      var j := 0;
      while j < |ks|
        invariant 0 <= j <= |ks| && Partial(hs, ks[..j])
      {
        AddKey(b, hs, ks[..j], ks[j]);
        assert ks[..j] + [ks[j]] == ks[..j + 1];
        j := j + 1;
      }
      assert ks[..|ks|] == ks;
    }

    // One round of the constructor's loop.
    method AddKey(b: TableBuilder, ghost hs: seq<Handler>, ghost ks: seq<Key>, k: Key)
      requires Partial(hs, ks) && b.keyed == EntriesOf(hs) && k !in ks
      modifies this`cand, tbl
      ensures Partial(hs, ks + [k])
    {
      var cs, allPure := b.Gather(hs, k);
      assert (ks + [k])[..|ks|] == ks;
      BuiltInRange(tbl[k], cand, cs, allPure);
      BuiltIsFiled(cand, cs, allPure);
      forall i | 0 <= i < |ks| ensures Filed(tbl[ks[i]], Grown(cand, cs, allPure), Candidates(hs, ks[i])) {
        FiledStays(tbl[ks[i]], cand, cs, Candidates(hs, ks[i]));
      }
      tbl[k] := Built(tbl[k], cand, cs, allPure);
      cand := Grown(cand, cs, allPure);
    }

    lemma KeysFiled(hs: seq<Handler>, ks: seq<Key>)
      requires ks == KeysOf(hs) && Partial(hs, ks) && |cand| <= |hs|
      ensures Valid(hs)
    {
      KeysAre(hs);
      forall k: Key ensures if Candidates(hs, k) == [] then tbl[k] == EMPTY else Filed(tbl[k], cand, Candidates(hs, k)) {
        if Candidates(hs, k) != [] { var i :| 0 <= i < |ks| && ks[i] == k; }
      }
    }

    /** What the table answers, once it is built. */
    ghost function Answers(hs: seq<Handler>, p: Packet): Option<Handler>
      requires Valid(hs)
      reads this, tbl
    {
      Answer(tbl[p.protocol], cand, p)
    }

    /**
     * The table agrees with the scan on a packet exactly when its key has one pure
     * candidate, no candidate matches, or the first that does is before the cut of
     * the count to 16 bits.
     */
    lemma DirectAgreesIff(hs: seq<Handler>, p: Packet) returns (i: nat)
      requires Valid(hs) && AllHonest(hs) && |hs| < 0x1_0000_0000
      ensures FirstAt(Candidates(hs, p.protocol), p, i)
      ensures Answers(hs, p) == FirstMatch(hs, p) <==>
        var cs := Candidates(hs, p.protocol); Alone(cs) || i == |cs| || i < |cs| % 0x1_0000
    {
      var cs := Candidates(hs, p.protocol);
      CandidatesSuffice(hs, p);
      if cs == [] { i := 0; }
      else if Alone(cs) {
        CandidatesAre(hs, p.protocol);
        var j :| 0 <= j < |hs| && hs[j] == cs[0];
        assert Honest(hs[j]);
        i := 0;
        FirstMatchAt(cs, p, 0);
      } else { i := CutAgreesIff(tbl[p.protocol], cand, cs, p); }
    }

    /** The scan's answer, for every honest handler list whose counts fit. */
    method Dispatch(ghost hs: seq<Handler>, p: Packet) returns (r: Option<Handler>)
      requires Valid(hs)
      ensures r == Answers(hs, p)
      ensures AllHonest(hs) && Fits(hs) ==> r == FirstMatch(hs, p)
    {
      var s := tbl[p.protocol];
      if AllHonest(hs) && Fits(hs) { TableAnswers(s, cand, hs, p); }
      r := Ask(s, cand, p);
    }
  }

  // run, once the slot has been found.
  method Ask(s: Slot, cand: seq<Handler>, p: Packet) returns (r: Option<Handler>)
    requires InRange(s, cand)
    ensures r == Answer(s, cand, p)
  {
    if s.only.Some? { return s.only; }
    ghost var cs := cand[s.begin..s.begin + s.count];
    var i := 0;
    while i < s.count
      invariant 0 <= i <= s.count && forall k | 0 <= k < i :: !cs[k].matches(p)
    {
      if cand[s.begin + i].matches(p) {
        FirstMatchAt(cs, p, i);
        return Some(cand[s.begin + i]);
      }
      i := i + 1;
    }
    FirstMatchAt(cs, p, i);
    return None;
  }

  // ------------------------------------------------------------ the 16-bit count

  /**
   * A slot with a candidate list answers as the list does exactly when no candidate
   * matches, or the first that does is before the cut of the count to 16 bits.
   */
  lemma CutAgreesIff(s: Slot, cand: seq<Handler>, cs: seq<Handler>, p: Packet) returns (i: nat)
    requires InRange(s, cand) && Filed(s, cand, cs) && |cand| < 0x1_0000_0000 && !Alone(cs)
    ensures FirstAt(cs, p, i)
    ensures Answer(s, cand, p) == FirstMatch(cs, p) <==> i == |cs| || i < |cs| % 0x1_0000
  {
    i := FirstMatchIs(cs, p);
    CutIs(s, cand, cs);
    var cut := cs[..s.count];
    if i < s.count { FirstMatchAt(cut, p, i); } else { FirstMatchAt(cut, p, s.count); }
  }

  // The first of cs that matches p is at i; none does for i at the end.
  ghost predicate FirstAt(cs: seq<Handler>, p: Packet, i: nat) {
    i <= |cs| && (forall k | 0 <= k < i :: !cs[k].matches(p)) && (i < |cs| ==> cs[i].matches(p))
  }

  lemma CutIs(s: Slot, cand: seq<Handler>, cs: seq<Handler>)
    requires InRange(s, cand) && Filed(s, cand, cs) && |cand| < 0x1_0000_0000 && !Alone(cs)
    ensures s.only.None? && s.count == |cs| % 0x1_0000 <= |cs| && cand[s.begin..s.begin + s.count] == cs[..s.count]
  {
    var b: nat :| FiledAt(s, cand, cs, b);
  }

  /**
   * With 65536 handlers on one key the count wraps to nothing: the table built from
   * them refuses the packets that the scan gives to the first of them.
   */
  lemma CountWraps(table: TableDirect16, k: Key, p: Packet)
    requires table.Valid(Crowd(k)) && p.protocol == k
    ensures AllHonest(Crowd(k)) && table.Answers(Crowd(k), p) == None && FirstMatch(Crowd(k), p) == Some(Pure(0, k))
  {
    var hs := Crowd(k);
    AllOfKey(hs, k);
    FirstMatchAt(hs, p, 0);
    assert hs[0].matches(p);
    CutIs(table.tbl[k], table.cand, hs);
    assert table.cand[table.tbl[k].begin..table.tbl[k].begin + table.tbl[k].count] == [];
  }

  function Crowd(k: Key): seq<Handler> { seq(0x1_0000, (i: nat) => Pure(i, k)) }
}

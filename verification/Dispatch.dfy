/** Packet dispatch by handler scan: the reference that every other arm is compared with. */
module Dispatch {
  import opened Options

  type Key = k: int | 0 <= k < 0x1_0000
  type Byte = b: int | 0 <= b < 0x100

  datatype Packet = Packet(protocol: Key, length: nat, flags: nat, payload: seq<Byte>)

  /** A handler: its predicate, and what it declares of it. What process computes is its own. */
  datatype Handler = Handler(id: nat, key: Key, residual: bool, matches: Packet -> bool)

  // A pure handler: its predicate is the key test.
  function Pure(id: nat, k: Key): Handler { Handler(id, k, false, (p: Packet) => p.protocol == k) }

  /** The declaration is true: the predicate implies the key, and is the key test unless residual. */
  ghost predicate Honest(h: Handler) {
    forall p: Packet :: (h.matches(p) ==> p.protocol == h.key) && (!h.residual && p.protocol == h.key ==> h.matches(p))
  }

  ghost predicate AllHonest(hs: seq<Handler>) { forall i | 0 <= i < |hs| :: Honest(hs[i]) }

  /** The brief's loop: the first handler that matches, or none (unsupported). */
  function FirstMatch(hs: seq<Handler>, p: Packet): Option<Handler> {
    if hs == [] then None else if hs[0].matches(p) then Some(hs[0]) else FirstMatch(hs[1..], p)
  }

  /** No two of them match the same packet. */
  ghost predicate Disjoint(hs: seq<Handler>) {
    forall i, j, p: Packet | 0 <= i < j < |hs| :: !(hs[i].matches(p) && hs[j].matches(p))
  }

  // ------------------------------------------------------------ what first match means

  lemma {:induction false} FirstMatchIs(hs: seq<Handler>, p: Packet) returns (i: nat)
    ensures i <= |hs| && (forall k | 0 <= k < i :: !hs[k].matches(p))
    ensures i < |hs| ==> hs[i].matches(p) && FirstMatch(hs, p) == Some(hs[i])
    ensures i == |hs| ==> FirstMatch(hs, p) == None
  {
    if hs == [] || hs[0].matches(p) {
      i := 0;
    } else {
      var k := FirstMatchIs(hs[1..], p);
      i := k + 1;
      forall j | 0 <= j < i ensures !hs[j].matches(p) {
        if j > 0 { assert hs[j] == hs[1..][j - 1]; }
      }
    }
  }

  lemma {:induction false} FirstMatchAt(hs: seq<Handler>, p: Packet, i: nat)
    requires i <= |hs| && (forall k | 0 <= k < i :: !hs[k].matches(p))
    ensures i < |hs| && hs[i].matches(p) ==> FirstMatch(hs, p) == Some(hs[i])
    ensures i == |hs| ==> FirstMatch(hs, p) == None
  {
    if i > 0 {
      forall k | 0 <= k < i - 1 ensures !hs[1..][k].matches(p) { assert hs[1..][k] == hs[k + 1]; }
      FirstMatchAt(hs[1..], p, i - 1);
    }
  }

  /** The order of disjoint handlers does not matter. */
  lemma PermutationAgrees(a: seq<Handler>, b: seq<Handler>, p: Packet)
    requires multiset(a) == multiset(b) && Disjoint(a)
    ensures FirstMatch(a, p) == FirstMatch(b, p)
  {
    var i := FirstMatchIs(a, p);
    if i == |a| {
      forall k | 0 <= k < |b| ensures !b[k].matches(p) { assert b[k] in multiset(a); }
      FirstMatchAt(b, p, |b|);
    } else {
      assert a[i] in multiset(b);
      var k :| 0 <= k < |b| && b[k] == a[i];
      var j := FirstMatchIs(b, p);
      assert b[j] in multiset(a);
      var l :| 0 <= l < |a| && a[l] == b[j];
    }
  }

  // ------------------------------------------------------------ candidates

  /** The handlers of one key, in registration order. */
  function Candidates(hs: seq<Handler>, k: Key): seq<Handler> {
    if hs == [] then [] else (if hs[0].key == k then [hs[0]] else []) + Candidates(hs[1..], k)
  }

  /** Honest declarations: only a packet's own key's handlers can match it, and the first of those is the first of all. */
  lemma {:induction false} CandidatesSuffice(hs: seq<Handler>, p: Packet)
    requires AllHonest(hs)
    ensures FirstMatch(Candidates(hs, p.protocol), p) == FirstMatch(hs, p)
  {
    if hs != [] {
      assert Honest(hs[0]);
      assert AllHonest(hs[1..]);
      CandidatesSuffice(hs[1..], p);
      var cs := Candidates(hs[1..], p.protocol);
      if hs[0].key == p.protocol { assert ([hs[0]] + cs)[1..] == cs; } else { assert [] + cs == cs; }
    }
  }

  lemma {:induction false} CandidatesAppend(a: seq<Handler>, b: seq<Handler>, k: Key)
    ensures Candidates(a + b, k) == Candidates(a, k) + Candidates(b, k)
  {
    if a == [] {
      assert a + b == b;
    } else {
      CandidatesAppend(a[1..], b, k);
      var first := if a[0].key == k then [a[0]] else [];
      assert Candidates(a + b, k) == first + Candidates(a[1..] + b, k) by { assert (a + b)[1..] == a[1..] + b && (a + b)[0] == a[0]; }
      assert first + (Candidates(a[1..], k) + Candidates(b, k)) == first + Candidates(a[1..], k) + Candidates(b, k);
    }
  }

  lemma {:induction false} CandidatesAre(hs: seq<Handler>, k: Key)
    ensures |Candidates(hs, k)| <= |hs|
    ensures forall i | 0 <= i < |Candidates(hs, k)| :: Candidates(hs, k)[i].key == k && Candidates(hs, k)[i] in hs
    ensures (exists i | 0 <= i < |hs| :: hs[i].key == k) <==> Candidates(hs, k) != []
  {
    if hs != [] {
      CandidatesAre(hs[1..], k);
      if exists i | 0 <= i < |hs| :: hs[i].key == k {
        var i :| 0 <= i < |hs| && hs[i].key == k;
        if i > 0 { assert hs[1..][i - 1].key == k; }
      }
    }
  }

  // Handlers of one key are all candidates.
  lemma {:induction false} AllOfKey(hs: seq<Handler>, k: Key)
    requires forall i | 0 <= i < |hs| :: hs[i].key == k
    ensures Candidates(hs, k) == hs
  {
    if hs != [] {
      AllOfKey(hs[1..], k);
      assert hs == [hs[0]] + hs[1..];
    }
  }
}

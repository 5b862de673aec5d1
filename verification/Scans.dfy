/** The scan arms: as registered, sorted by frequency, and self-organizing. */
module Scans {
  import opened Options
  import opened Dispatch

  // How many handlers a scan asks before it stops.
  function Probes(hs: seq<Handler>, p: Packet): nat {
    if hs == [] then 0 else if hs[0].matches(p) then 1 else 1 + Probes(hs[1..], p)
  }

  class ScanUnordered {
    var handlers: seq<Handler>
    var probes: nat

    constructor (hs: seq<Handler>)
      ensures handlers == hs && probes == 0
    {
      handlers, probes := hs, 0;
    }

    // counted: the separate, untimed pass.
    method Dispatch(p: Packet, counted: bool) returns (r: Option<Handler>)
      modifies this`probes
      ensures r == FirstMatch(handlers, p)
      ensures probes == old(probes) + if counted then Probes(handlers, p) else 0
    {
      var i := 0;
      while i < |handlers|
        invariant 0 <= i <= |handlers|
        invariant FirstMatch(handlers, p) == FirstMatch(handlers[i..], p)
        invariant probes == old(probes) + if counted then i else 0
        invariant Probes(handlers, p) == i + Probes(handlers[i..], p)
      {
        if counted { probes := probes + 1; }
        if handlers[i].matches(p) { return Some(handlers[i]); }
        assert handlers[i..][1..] == handlers[i + 1..];
        i := i + 1;
      }
      return None;
    }
  }

  // ------------------------------------------------------------ sorted by frequency

  /** Each handler's frequency times the probes it costs, summed. */
  function Cost(fs: seq<nat>): nat { if fs == [] then 0 else Cost(fs[..|fs| - 1]) + |fs| * fs[|fs| - 1] }

  predicate Descending(fs: seq<nat>) { forall i, j | 0 <= i < j < |fs| :: fs[i] >= fs[j] }

  // Moving a least element to the end never costs.
  lemma {:induction false} LeastLast(fs: seq<nat>, i: nat)
    requires i < |fs| && forall k | 0 <= k < |fs| :: fs[k] >= fs[i]
    ensures Cost(fs) >= Cost(fs[..i] + fs[i + 1..]) + |fs| * fs[i]
  {
    var n := |fs| - 1;
    var rest := fs[..i] + fs[i + 1..];
    if i == n {
      assert rest == fs[..n];
    } else {
      LeastLast(fs[..n], i);
      assert rest[..n - 1] == fs[..n][..i] + fs[..n][i + 1..] && rest[n - 1] == fs[n];
      Swapped(n, fs[n], fs[i], Cost(fs[..n]), Cost(rest[..n - 1]));
    }
  }

  lemma Swapped(n: nat, x: nat, m: nat, cost: int, rest: int)
    requires x >= m && cost >= rest + n * m
    ensures cost + (n + 1) * x >= rest + n * x + (n + 1) * m
  {
    assert (n + 1) * x == n * x + x && (n + 1) * m == n * m + m;
  }

  lemma RemoveAt<T>(s: seq<T>, i: nat)
    requires i < |s|
    ensures multiset(s[..i] + s[i + 1..]) == multiset(s) - multiset{s[i]}
  {
    assert s == s[..i] + [s[i]] + s[i + 1..];
  }

  /** Descending order of frequency costs the fewest probes of all orders. */
  lemma {:induction false} DescendingIsBest(best: seq<nat>, any: seq<nat>)
    requires Descending(best) && multiset(best) == multiset(any)
    ensures Cost(best) <= Cost(any)
    decreases |best|
  {
    SameLength(best, any);
    if best != [] {
      var i := LeastIn(best, any);
      LeastLast(any, i);
      LeastOut(best, any, i);
      DescendingIsBest(best[..|best| - 1], any[..i] + any[i + 1..]);
    }
  }

  // Without a least element they are still orders of the same frequencies.
  lemma LeastOut(best: seq<nat>, any: seq<nat>, i: nat)
    requires best != [] && multiset(best) == multiset(any) && i < |any| && any[i] == best[|best| - 1]
    ensures multiset(best[..|best| - 1]) == multiset(any[..i] + any[i + 1..])
  {
    var n := |best| - 1;
    RemoveAt(any, i);
    RemoveAt(best, n);
    assert best[..n] + best[n + 1..] == best[..n];
  }

  lemma LeastIn(best: seq<nat>, any: seq<nat>) returns (i: nat)
    requires best != [] && Descending(best) && multiset(best) == multiset(any)
    ensures i < |any| && any[i] == best[|best| - 1] && forall k | 0 <= k < |any| :: any[k] >= any[i]
  {
    assert best[|best| - 1] in multiset(any);
    i :| 0 <= i < |any| && any[i] == best[|best| - 1];
    forall k | 0 <= k < |any| ensures any[k] >= any[i] {
      assert any[k] in multiset(best);
      var j :| 0 <= j < |best| && best[j] == any[k];
    }
  }

  lemma SameLength<T>(a: seq<T>, b: seq<T>)
    requires multiset(a) == multiset(b)
    ensures |a| == |b|
  {
    assert |multiset(a)| == |a| && |multiset(b)| == |b|;
  }

  /** The elements that the indices name, in their order. */
  function Picked<T>(src: seq<T>, idx: seq<nat>): (r: seq<T>)
    requires forall i | 0 <= i < |idx| :: idx[i] < |src|
  {
    seq(|idx|, (i: nat) requires i < |idx| => src[idx[i]])
  }

  lemma {:induction false} PickedSame<T>(src: seq<T>, a: seq<nat>, b: seq<nat>)
    requires multiset(a) == multiset(b)
    requires (forall i | 0 <= i < |a| :: a[i] < |src|) && (forall i | 0 <= i < |b| :: b[i] < |src|)
    ensures multiset(Picked(src, a)) == multiset(Picked(src, b))
    decreases |a|
  {
    SameLength(a, b);
    if a != [] {
      var i := FirstIn(a, b);
      PickedRest(src, a, 0);
      PickedRest(src, b, i);
      assert a[..0] + a[0 + 1..] == a[1..];
      hide Picked;
      PickedSame(src, a[1..], b[..i] + b[i + 1..]);
    }
  }

  lemma FirstIn(a: seq<nat>, b: seq<nat>) returns (i: nat)
    requires a != [] && multiset(a) == multiset(b)
    ensures i < |b| && b[i] == a[0] && multiset(a[1..]) == multiset(b[..i] + b[i + 1..])
  {
    assert a[0] in multiset(b);
    i :| 0 <= i < |b| && b[i] == a[0];
    RemoveAt(b, i);
    RemoveAt(a, 0);
    assert a[..0] + a[0 + 1..] == a[1..];
  }

  lemma PickedRest<T>(src: seq<T>, b: seq<nat>, i: nat)
    requires i < |b| && forall k | 0 <= k < |b| :: b[k] < |src|
    ensures multiset(Picked(src, b)) == multiset(Picked(src, b[..i] + b[i + 1..])) + multiset{src[b[i]]}
  {
    var all, rest := Picked(src, b), Picked(src, b[..i] + b[i + 1..]);
    assert rest == all[..i] + all[i + 1..];
    RemoveAt(all, i);
    assert all[i] in multiset(all);
  }

  // 0, 1, .., n - 1.
  function Iota(n: nat): seq<nat> { seq(n, (i: nat) => i) }

  // Sorted, and among equals in the order of the indices.
  predicate StablySorted(idx: seq<nat>, freq: seq<nat>) {
    && (forall i | 0 <= i < |idx| :: idx[i] < |freq|)
    && (forall i, j | 0 <= i < j < |idx| :: freq[idx[i]] > freq[idx[j]] || (freq[idx[i]] == freq[idx[j]] && idx[i] < idx[j]))
  }

  // idx is the stable order of the first k indices.
  ghost predicate SortedUpTo(idx: seq<nat>, freq: seq<nat>, k: nat) {
    && StablySorted(idx, freq) && multiset(idx) == multiset(Iota(k))
    && forall i | 0 <= i < |idx| :: idx[i] < k
  }

  // std::stable_sort by decreasing frequency, as an insertion sort.
  method StableSort(n: nat, freq: seq<nat>) returns (idx: seq<nat>)
    requires n <= |freq|
    ensures SortedUpTo(idx, freq, n)
  {
    idx := [];
    var k := 0;
    while k < n
      invariant 0 <= k <= n && SortedUpTo(idx, freq, k)
    {
      var at := Place(idx, freq, k);
      InsertedIsSorted(idx, freq, k, at);
      idx := idx[..at] + [k] + idx[at..];
      k := k + 1;
    }
  }

  lemma InsertedIsSorted(idx: seq<nat>, freq: seq<nat>, k: nat, at: nat)
    requires SortedUpTo(idx, freq, k) && k < |freq| && at <= |idx|
    requires (forall j | at <= j < |idx| :: freq[idx[j]] < freq[k]) && (at > 0 ==> freq[idx[at - 1]] >= freq[k])
    ensures SortedUpTo(idx[..at] + [k] + idx[at..], freq, k + 1)
  {
    Inserted(idx, freq, k, at);
    InsertedPermutes(idx, k, at);
    hide StablySorted, Iota;
  }

  // Behind everything at least as frequent.
  method Place(idx: seq<nat>, freq: seq<nat>, k: nat) returns (at: nat)
    requires k < |freq| && StablySorted(idx, freq)
    ensures at <= |idx| && (forall j | at <= j < |idx| :: freq[idx[j]] < freq[k]) && (at > 0 ==> freq[idx[at - 1]] >= freq[k])
  {
    at := |idx|;
    while at > 0 && freq[idx[at - 1]] < freq[k]
      invariant 0 <= at <= |idx|
      invariant forall j | at <= j < |idx| :: freq[idx[j]] < freq[k]
    {
      at := at - 1;
    }
  }

  lemma InsertedPermutes(idx: seq<nat>, k: nat, at: nat)
    requires at <= |idx| && multiset(idx) == multiset(Iota(k))
    ensures multiset(idx[..at] + [k] + idx[at..]) == multiset(Iota(k + 1))
  {
    assert Iota(k + 1) == Iota(k) + [k];
    assert idx == idx[..at] + idx[at..];
  }

  lemma Inserted(idx: seq<nat>, freq: seq<nat>, k: nat, at: nat)
    requires StablySorted(idx, freq) && k < |freq| && at <= |idx| && (forall i | 0 <= i < |idx| :: idx[i] < k)
    requires (forall j | at <= j < |idx| :: freq[idx[j]] < freq[k]) && (at > 0 ==> freq[idx[at - 1]] >= freq[k])
    ensures StablySorted(idx[..at] + [k] + idx[at..], freq)
    ensures forall i | 0 <= i < |idx| + 1 :: (idx[..at] + [k] + idx[at..])[i] < k + 1
  {
    var r := idx[..at] + [k] + idx[at..];
    forall i, j | 0 <= i < j < |r|
      ensures r[i] < |freq| && r[j] < |freq| && (freq[r[i]] > freq[r[j]] || (freq[r[i]] == freq[r[j]] && r[i] < r[j]))
    {
      if i < at && j == at && i < at - 1 { assert freq[idx[i]] >= freq[idx[at - 1]]; }
    }
  }

  /** The sorted order's cost is the least of any order of the same handlers. */
  lemma SortedCostsLeast(idx: seq<nat>, other: seq<nat>, freq: seq<nat>)
    requires StablySorted(idx, freq) && multiset(idx) == multiset(other)
    ensures forall i | 0 <= i < |other| :: other[i] < |freq|
    ensures Cost(Picked(freq, idx)) <= Cost(Picked(freq, other))
  {
    forall i | 0 <= i < |other| ensures other[i] < |freq| { assert other[i] in multiset(idx); }
    PickedSame(freq, idx, other);
    DescendingIsBest(Picked(freq, idx), Picked(freq, other));
  }

  // ------------------------------------------------------------ what a stream of packets costs

  /** The probes of a whole stream. */
  function TotalProbes(hs: seq<Handler>, ps: seq<Packet>): nat {
    if ps == [] then 0 else TotalProbes(hs, ps[..|ps| - 1]) + Probes(hs, ps[|ps| - 1])
  }

  // How many of the packets are h's: its frequency.
  function Hits(h: Handler, ps: seq<Packet>): nat {
    if ps == [] then 0 else Hits(h, ps[..|ps| - 1]) + if h.matches(ps[|ps| - 1]) then 1 else 0
  }

  function HitsOf(hs: seq<Handler>, ps: seq<Packet>): seq<nat> {
    seq(|hs|, (i: nat) requires i < |hs| => Hits(hs[i], ps))
  }

  // How many are nobody's.
  function Misses(hs: seq<Handler>, ps: seq<Packet>): nat {
    if ps == [] then 0 else Misses(hs, ps[..|ps| - 1]) + if FirstMatch(hs, ps[|ps| - 1]).None? then 1 else 0
  }

  lemma {:induction false} ProbesAt(hs: seq<Handler>, p: Packet, i: nat)
    requires i <= |hs| && (forall k | 0 <= k < i :: !hs[k].matches(p)) && (i < |hs| ==> hs[i].matches(p))
    ensures Probes(hs, p) == if i < |hs| then i + 1 else |hs|
  {
    if i > 0 {
      forall k | 0 <= k < i - 1 ensures !hs[1..][k].matches(p) { assert hs[1..][k] == hs[k + 1]; }
      ProbesAt(hs[1..], p, i - 1);
    }
  }

  lemma {:induction false} CostBump(fs: seq<nat>, i: nat)
    requires i < |fs|
    ensures Cost(fs[i := fs[i] + 1]) == Cost(fs) + i + 1
  {
    var n := |fs| - 1;
    var more := fs[i := fs[i] + 1];
    if i == n {
      assert more[..n] == fs[..n];
      assert (n + 1) * (fs[n] + 1) == (n + 1) * fs[n] + (n + 1);
    } else {
      assert more[..n] == fs[..n][i := fs[i] + 1];
      CostBump(fs[..n], i);
    }
  }

  lemma {:induction false} CostZero(fs: seq<nat>)
    requires forall i | 0 <= i < |fs| :: fs[i] == 0
    ensures Cost(fs) == 0
  {
    if fs != [] { CostZero(fs[..|fs| - 1]); }
  }

  // What the last packet adds.
  lemma LastCosts(hs: seq<Handler>, ps: seq<Packet>)
    requires Disjoint(hs) && ps != []
    ensures var before := ps[..|ps| - 1];
      Cost(HitsOf(hs, ps)) + |hs| * Misses(hs, ps) == Cost(HitsOf(hs, before)) + |hs| * Misses(hs, before) + Probes(hs, ps[|ps| - 1])
  {
    var before, p := ps[..|ps| - 1], ps[|ps| - 1];
    var fs := HitsOf(hs, before);
    var i := FirstMatchIs(hs, p);
    ProbesAt(hs, p, i);
    if i < |hs| {
      forall j | 0 <= j < |hs| && j != i ensures !hs[j].matches(p) { assert !(hs[i].matches(p) && hs[j].matches(p)); }
      assert HitsOf(hs, ps) == fs[i := fs[i] + 1];
      CostBump(fs, i);
    } else {
      assert HitsOf(hs, ps) == fs;
      assert |hs| * (Misses(hs, before) + 1) == |hs| * Misses(hs, before) + |hs|;
    }
  }

  /**
   * Over any stream, disjoint handlers cost as many probes as their frequencies
   * times their ranks come to, and the whole list for each packet that is nobody's.
   */
  lemma {:induction false} ProbesAreCost(hs: seq<Handler>, ps: seq<Packet>)
    requires Disjoint(hs)
    ensures TotalProbes(hs, ps) == Cost(HitsOf(hs, ps)) + |hs| * Misses(hs, ps)
    decreases |ps|
  {
    if ps == [] { CostZero(HitsOf(hs, ps)); }
    else {
      ProbesAreCost(hs, ps[..|ps| - 1]);
      LastCosts(hs, ps);
    }
  }

  lemma {:induction false} MissesSame(a: seq<Handler>, b: seq<Handler>, ps: seq<Packet>)
    requires multiset(a) == multiset(b) && Disjoint(a)
    ensures Misses(a, ps) == Misses(b, ps)
    decreases |ps|
  {
    if ps != [] {
      PermutationAgrees(a, b, ps[|ps| - 1]);
      MissesSame(a, b, ps[..|ps| - 1]);
    }
  }

  // A list picked once each from disjoint handlers is disjoint.
  lemma PickedDisjoint(hs: seq<Handler>, idx: seq<nat>)
    requires Disjoint(hs) && multiset(idx) == multiset(Iota(|hs|)) && forall i | 0 <= i < |idx| :: idx[i] < |hs|
    ensures Disjoint(Picked(hs, idx))
  {
    var r := Picked(hs, idx);
    forall i, j, p: Packet | 0 <= i < j < |r| ensures !(r[i].matches(p) && r[j].matches(p)) {
      PickedOnce(idx, |hs|, i, j);
      if idx[i] < idx[j] { assert !(hs[idx[i]].matches(p) && hs[idx[j]].matches(p)); }
      else { assert !(hs[idx[j]].matches(p) && hs[idx[i]].matches(p)); }
    }
  }

  lemma PickedOnce(idx: seq<nat>, n: nat, i: nat, j: nat)
    requires multiset(idx) == multiset(Iota(n)) && i < j < |idx|
    ensures idx[i] != idx[j]
  {
    if idx[i] == idx[j] {
      TwiceCounts(idx, i, j);
      IotaOnce(n, idx[i]);
    }
  }

  lemma TwiceCounts(idx: seq<nat>, i: nat, j: nat)
    requires i < j < |idx| && idx[i] == idx[j]
    ensures multiset(idx)[idx[i]] >= 2
  {
    assert idx == idx[..i] + [idx[i]] + idx[i + 1..j] + [idx[j]] + idx[j + 1..];
  }

  lemma {:induction false} IotaOnce(n: nat, x: nat)
    ensures multiset(Iota(n))[x] == if x < n then 1 else 0
  {
    if n > 0 {
      assert Iota(n) == Iota(n - 1) + [n - 1];
      IotaOnce(n - 1, x);
    }
  }

  /**
   * Sorted by the frequencies of a stream, disjoint handlers cost the fewest probes
   * over it of all orders.
   */
  lemma SortedProbesLeast(hs: seq<Handler>, ps: seq<Packet>, idx: seq<nat>, other: seq<nat>)
    requires Disjoint(hs) && StablySorted(idx, HitsOf(hs, ps))
    requires multiset(idx) == multiset(Iota(|hs|)) && multiset(other) == multiset(Iota(|hs|))
    ensures (forall i | 0 <= i < |idx| :: idx[i] < |hs|) && (forall i | 0 <= i < |other| :: other[i] < |hs|)
    ensures TotalProbes(Picked(hs, idx), ps) <= TotalProbes(Picked(hs, other), ps)
  {
    var freq := HitsOf(hs, ps);
    SortedCostsLeast(idx, other, freq);
    PickedPermutes(hs, idx);
    PickedPermutes(hs, other);
    OrderCosts(hs, ps, idx);
    OrderCosts(hs, ps, other);
    SameLength(idx, other);
  }

  lemma OrderCosts(hs: seq<Handler>, ps: seq<Packet>, idx: seq<nat>)
    requires Disjoint(hs) && multiset(idx) == multiset(Iota(|hs|)) && forall i | 0 <= i < |idx| :: idx[i] < |hs|
    ensures TotalProbes(Picked(hs, idx), ps) == Cost(Picked(HitsOf(hs, ps), idx)) + |idx| * Misses(hs, ps)
  {
    var r := Picked(hs, idx);
    PickedDisjoint(hs, idx);
    PickedPermutes(hs, idx);
    ProbesAreCost(r, ps);
    MissesSame(hs, r, ps);
    assert HitsOf(r, ps) == Picked(HitsOf(hs, ps), idx);
  }

  /** Picking each once is a reordering. */
  lemma PickedPermutes(hs: seq<Handler>, idx: seq<nat>)
    requires multiset(idx) == multiset(Iota(|hs|))
    ensures forall i | 0 <= i < |idx| :: idx[i] < |hs|
    ensures multiset(Picked(hs, idx)) == multiset(hs)
  {
    forall i | 0 <= i < |idx| ensures idx[i] < |hs| { assert idx[i] in multiset(Iota(|hs|)); }
    PickedSame(hs, idx, Iota(|hs|));
    assert Picked(hs, Iota(|hs|)) == hs;
  }

  /** ScanOrdered's constructor; its dispatch is ScanUnordered's. */
  method Ordered(hs: seq<Handler>, freq: seq<nat>) returns (handlers: seq<Handler>, ghost idx: seq<nat>)
    requires |hs| <= |freq|
    ensures multiset(handlers) == multiset(hs)
    ensures StablySorted(idx, freq) && multiset(idx) == multiset(Iota(|hs|))
    ensures (forall i | 0 <= i < |idx| :: idx[i] < |hs|) && handlers == Picked(hs, idx)
  {
    var order := StableSort(|hs|, freq);
    PickedPermutes(hs, order);
    idx := order;
    handlers := [];
    var i := 0;
    while i < |order|
      invariant 0 <= i <= |order| && |handlers| == i
      invariant forall k | 0 <= k < i :: handlers[k] == hs[order[k]]
    {
      handlers := handlers + [hs[order[i]]];
      i := i + 1;
    }
    assert handlers == Picked(hs, order);
  }

  // ------------------------------------------------------------ self-organizing

  // One dispatch: the answer, and the list after the promotion.
  function Promoted(hs: seq<Handler>, p: Packet): seq<Handler> {
    var i := MatchIndex(hs, p);
    if 0 < i < |hs| then hs[i := hs[i - 1]][i - 1 := hs[i]] else hs
  }

  function MatchIndex(hs: seq<Handler>, p: Packet): (i: nat)
    ensures i <= |hs| && (i < |hs| ==> hs[i].matches(p)) && forall k | 0 <= k < i :: !hs[k].matches(p)
  {
    if hs == [] || hs[0].matches(p) then 0 else MatchIndex(hs[1..], p) + 1
  }

  // Handler i is the first that matches.
  predicate IsFirst(hs: seq<Handler>, p: Packet, i: nat) {
    i < |hs| && hs[i].matches(p) && forall k | 0 <= k < i :: !hs[k].matches(p)
  }

  // Places i - 1 and i have changed over, and no other place has changed.
  ghost predicate SwappedDown(hs: seq<Handler>, hs': seq<Handler>, i: nat)
    requires 0 < i < |hs|
  {
    && |hs'| == |hs| && hs'[i - 1] == hs[i] && hs'[i] == hs[i - 1]
    && forall k | 0 <= k < |hs| && k != i && k != i - 1 :: hs'[k] == hs[k]
  }

  lemma PromotedPermutes(hs: seq<Handler>, p: Packet)
    ensures multiset(Promoted(hs, p)) == multiset(hs)
  {
    var i := MatchIndex(hs, p);
    if 0 < i < |hs| { SwapPermutes(hs, i - 1, hs[i - 1], hs[i]); }
  }

  lemma SwapPermutes(hs: seq<Handler>, i: nat, a: Handler, b: Handler)
    requires i + 1 < |hs| && hs[i] == a && hs[i + 1] == b
    ensures multiset(hs[i + 1 := a][i := b]) == multiset(hs)
  {
  }

  lemma PromotedDisjoint(hs: seq<Handler>, p: Packet)
    requires Disjoint(hs)
    ensures Disjoint(Promoted(hs, p))
  {
    var at := MatchIndex(hs, p);
    var r := Promoted(hs, p);
    forall i, j, q: Packet | 0 <= i < j < |r| ensures !(r[i].matches(q) && r[j].matches(q)) {
      var i' := if i == at then at - 1 else if i == at - 1 then at else i;
      var j' := if j == at then at - 1 else if j == at - 1 then at else j;
      if 0 < at < |hs| {
        assert r[i] == hs[i'] && r[j] == hs[j'];
        assert !(hs[i'].matches(q) && hs[j'].matches(q));
      }
    }
  }

  class ScanMoveToFront {
    var handlers: seq<Handler>

    constructor (hs: seq<Handler>)
      ensures handlers == hs
    {
      handlers := hs;
    }

    /** Its list stays a permutation, and while the handlers are disjoint it answers as the fixed scan. */
    method Dispatch(p: Packet) returns (r: Option<Handler>)
      modifies this
      ensures r == FirstMatch(old(handlers), p)
      ensures handlers == Promoted(old(handlers), p) && multiset(handlers) == multiset(old(handlers))
      ensures forall i | 0 < i < |old(handlers)| && IsFirst(old(handlers), p, i) :: SwappedDown(old(handlers), handlers, i)
      ensures IsFirst(old(handlers), p, 0) || (forall i | 0 <= i < |old(handlers)| :: !old(handlers)[i].matches(p)) ==> handlers == old(handlers)
    {
      PromotedPermutes(handlers, p);
      var i := 0;
      while i < |handlers|
        invariant 0 <= i <= |handlers| && handlers == old(handlers)
        invariant forall k | 0 <= k < i :: !handlers[k].matches(p)
      {
        if handlers[i].matches(p) {
          FirstMatchAt(handlers, p, i);
          r := Some(handlers[i]);
          if i > 0 { handlers := handlers[i := handlers[i - 1]][i - 1 := handlers[i]]; }
          return;
        }
        i := i + 1;
      }
      FirstMatchAt(handlers, p, i);
      return None;
    }
  }

  // The list after a stream of packets.
  function After(hs: seq<Handler>, ps: seq<Packet>): seq<Handler>
    decreases |ps|
  {
    if ps == [] then hs else After(Promoted(hs, ps[0]), ps[1..])
  }

  /** Over any stream, the self-organizing scan of disjoint handlers gives the fixed scan's answer to the next packet. */
  lemma {:induction false} MoveToFrontAgrees(hs: seq<Handler>, ps: seq<Packet>, p: Packet)
    requires Disjoint(hs)
    ensures multiset(After(hs, ps)) == multiset(hs) && FirstMatch(After(hs, ps), p) == FirstMatch(hs, p)
    decreases |ps|
  {
    if ps != [] {
      PromotedPermutes(hs, ps[0]);
      PromotedDisjoint(hs, ps[0]);
      MoveToFrontAgrees(Promoted(hs, ps[0]), ps[1..], p);
      PermutationAgrees(hs, Promoted(hs, ps[0]), p);
    }
  }
}

/** What a run of positions reads through a ring of slots. */
module Windows {
  import opened Slots

  /** The values at positions h .. h + len, each in its slot. */
  function Window<T>(s: seq<T>, h: nat, len: nat): (r: seq<T>)
    requires |s| > 0
  {
    seq(len, (i: nat) => s[Slot(|s|, h + i)])
  }

  lemma WindowAt<T>(s: seq<T>, h: nat, len: nat, i: nat)
    requires |s| > 0 && i < len
    ensures Window(s, h, len)[i] == s[Slot(|s|, h + i)]
  {
  }

  /** A write at the position after the window adds to it, if the window leaves a slot free. */
  lemma WindowPush<T>(s: seq<T>, h: nat, len: nat, v: T)
    requires len < |s|
    ensures Window(s[Slot(|s|, h + len) := v], h, len + 1) == Window(s, h, len) + [v]
  {
    var s' := s[Slot(|s|, h + len) := v];
    forall i | 0 <= i < len ensures Window(s', h, len + 1)[i] == Window(s, h, len)[i] {
      if Slot(|s|, h + i) == Slot(|s|, h + len) { SameSlot(|s|, h + i, h + len); }
    }
  }

  lemma WindowPop<T>(s: seq<T>, h: nat, len: nat, n: nat)
    requires |s| > 0 && n <= len
    ensures Window(s, h, len)[..n] == Window(s, h, n)
    ensures Window(s, h, len)[n..] == Window(s, h + n, len - n)
  {
    forall i | 0 <= i < len - n ensures Window(s, h, len)[n..][i] == Window(s, h + n, len - n)[i] {
      assert h + n + i == h + (n + i);
    }
  }

  // Positions up to the end of the ring are consecutive slots.
  lemma {:induction false} Straight(n: nat, h: nat, i: nat)
    requires n > 0 && Slot(n, h) + i < n
    ensures Slot(n, h + i) == Slot(n, h) + i
    decreases h
  {
    if h >= n {
      Straight(n, h - n, i);
      assert h + i - n == h - n + i;
    }
  }

  // And the next one is slot 0.
  lemma {:induction false} Wraps(n: nat, h: nat)
    requires n > 0
    ensures Slot(n, h + (n - Slot(n, h))) == 0
    decreases h
  {
    if h >= n {
      Wraps(n, h - n);
      assert h + (n - Slot(n, h)) - n == h - n + (n - Slot(n, h - n));
    }
  }

  /** A window that does not wrap is a slice. */
  lemma WindowIsSlice<T>(s: seq<T>, h: nat, len: nat)
    requires |s| > 0 && Slot(|s|, h) + len <= |s|
    ensures Window(s, h, len) == s[Slot(|s|, h)..Slot(|s|, h) + len]
  {
    forall i | 0 <= i < len ensures Window(s, h, len)[i] == s[Slot(|s|, h)..Slot(|s|, h) + len][i] {
      Straight(|s|, h, i);
    }
  }

  /** One that wraps once is two. */
  lemma WindowIsTwoSlices<T>(s: seq<T>, h: nat, len: nat)
    requires |s| > 0 && len <= |s| < Slot(|s|, h) + len
    ensures var run := |s| - Slot(|s|, h);
      Window(s, h, len) == s[Slot(|s|, h)..] + s[..len - run]
  {
    hide Slot;
    var run := |s| - Slot(|s|, h);
    WindowPop(s, h, len, run);
    WindowIsSlice(s, h, run);
    Wraps(|s|, h);
    WindowIsSlice(s, h + run, len - run);
    assert Window(s, h, len) == Window(s, h, len)[..run] + Window(s, h, len)[run..];
  }
}

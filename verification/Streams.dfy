/** Several streams merged into one, and what the merged stream holds of each. */
module Streams {

  datatype Tagged<T> = Tagged(from: nat, item: T)

  function Tag<T>(i: nat, es: seq<T>): seq<Tagged<T>> { seq(|es|, (k: nat) requires k < |es| => Tagged(i, es[k])) }

  /** What the merged stream holds of stream i. */
  function Proj<T>(out: seq<Tagged<T>>, i: nat): seq<T> {
    if out == [] then [] else Proj(out[..|out| - 1], i) + (if out[|out| - 1].from == i then [out[|out| - 1].item] else [])
  }

  lemma {:induction false} ProjAppend<T>(a: seq<Tagged<T>>, b: seq<Tagged<T>>, i: nat)
    ensures Proj(a + b, i) == Proj(a, i) + Proj(b, i)
  {
    if b == [] {
      assert a + b == a;
    } else {
      assert (a + b)[..|a + b| - 1] == a + b[..|b| - 1];
      ProjAppend(a, b[..|b| - 1], i);
    }
  }

  lemma {:induction false} ProjTag<T>(j: nat, es: seq<T>, i: nat)
    ensures Proj(Tag(j, es), i) == if i == j then es else []
  {
    if es != [] {
      var es' := es[..|es| - 1];
      assert Tag(j, es)[..|es| - 1] == Tag(j, es');
      ProjTag(j, es', i);
      assert es == es' + [es[|es| - 1]];
    }
  }
}

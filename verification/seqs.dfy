/** Concatenating per-element sequences: the shape of a nested loop that
    appends to one output list. */
module Seqs {

  function FlatMap<A, B>(f: A -> seq<B>, s: seq<A>): seq<B>
    decreases |s|
  {
    if |s| == 0 then [] else f(s[0]) + FlatMap(f, s[1..])
  }

  lemma {:induction false} FlatMapAppend<A, B>(f: A -> seq<B>, a: seq<A>, b: seq<A>)
    ensures FlatMap(f, a + b) == FlatMap(f, a) + FlatMap(f, b)
    decreases |a|
  {
    if |a| == 0 {
      assert a + b == b;
    } else {
      assert (a + b)[1..] == a[1..] + b;
      FlatMapAppend(f, a[1..], b);
    }
  }

  /** Processing one more element appends that element's output. */
  lemma FlatMapSnoc<A, B>(f: A -> seq<B>, a: seq<A>, x: A)
    ensures FlatMap(f, a + [x]) == FlatMap(f, a) + f(x)
  {
    FlatMapAppend(f, a, [x]);
    assert FlatMap(f, [x]) == f(x) + FlatMap(f, []);
  }

  /** The `j`-th output of the `i`-th element sits after the outputs of all
      earlier elements. */
  lemma FlatMapIndex<A, B>(f: A -> seq<B>, s: seq<A>, i: int, j: int)
    requires 0 <= i < |s| && 0 <= j < |f(s[i])|
    ensures |FlatMap(f, s[..i])| + j < |FlatMap(f, s)|
    ensures FlatMap(f, s)[|FlatMap(f, s[..i])| + j] == f(s[i])[j]
  {
    assert s == s[..i] + [s[i]] + s[i + 1..];
    FlatMapAppend(f, s[..i] + [s[i]], s[i + 1..]);
    FlatMapSnoc(f, s[..i], s[i]);
  }
}

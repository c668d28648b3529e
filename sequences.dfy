/** Order facts about the lists the filters of the model return. */
module Sequences {

  /** `xs` is `ys` with some elements left out and the rest kept in order. */
  predicate Subsequence<X(==)>(xs: seq<X>, ys: seq<X>)
    decreases |ys|
  {
    if |xs| == 0 then true
    else if |ys| == 0 then false
    else
      Subsequence(xs, ys[..|ys| - 1])
      || (xs[|xs| - 1] == ys[|ys| - 1] && Subsequence(xs[..|xs| - 1], ys[..|ys| - 1]))
  }

  /** No element occurs twice. */
  predicate Distinct<X(==)>(xs: seq<X>) {
    forall i, j :: 0 <= i < j < |xs| ==> xs[i] != xs[j]
  }

  /** Dropping the last element of `ys` keeps a subsequence of its prefix a subsequence. */
  lemma SubsequenceSkip<X>(xs: seq<X>, ys: seq<X>)
    requires |ys| > 0 && Subsequence(xs, ys[..|ys| - 1])
    ensures Subsequence(xs, ys)
  {
  }

  /** Keeping the last element of `ys` extends a subsequence of its prefix. */
  lemma SubsequenceKeep<X>(xs: seq<X>, ys: seq<X>)
    requires |ys| > 0 && Subsequence(xs, ys[..|ys| - 1])
    ensures Subsequence(xs + [ys[|ys| - 1]], ys)
  {
    assert (xs + [ys[|ys| - 1]])[..|xs|] == xs;
  }

  /** Every element of a subsequence is an element of the sequence. */
  lemma {:induction false} SubsequenceElements<X>(xs: seq<X>, ys: seq<X>)
    requires Subsequence(xs, ys)
    ensures forall x :: x in xs ==> x in ys
    decreases |ys|
  {
    if |xs| > 0 {
      var n := |ys| - 1;
      if Subsequence(xs, ys[..n]) {
        SubsequenceElements(xs, ys[..n]);
      } else {
        SubsequenceElements(xs[..|xs| - 1], ys[..n]);
        assert xs == xs[..|xs| - 1] + [ys[n]];
      }
    }
  }
}

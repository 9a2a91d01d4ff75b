/** Order-keeping selections from a sequence, shared by the filters of the
    recommendation and security modules. */
module Sequences {

  /** `xs` is `ys` with some entries left out, the rest in their order. */
  predicate Subsequence<T(==)>(xs: seq<T>, ys: seq<T>)
    decreases |ys|
  {
    xs == [] || (ys != [] && ((xs[0] == ys[0] && Subsequence(xs[1..], ys[1..])) || Subsequence(xs, ys[1..])))
  }

  /** Appending an entry to the whole keeps a subsequence one, whether or not
      the entry is also appended to the part. */
  lemma {:induction false} SubsequenceSnoc<T>(xs: seq<T>, ys: seq<T>, x: T, keep: bool)
    requires Subsequence(xs, ys)
    ensures Subsequence(xs + (if keep then [x] else []), ys + [x])
    decreases |ys|
  {
    var tail := if keep then [x] else [];
    if xs == [] {
      if keep && ys != [] {
        SubsequenceSnoc([], ys[1..], x, keep);
        assert (ys + [x])[1..] == ys[1..] + [x];
      }
    } else if xs[0] == ys[0] && Subsequence(xs[1..], ys[1..]) {
      SubsequenceSnoc(xs[1..], ys[1..], x, keep);
      assert (xs + tail)[1..] == xs[1..] + tail;
      assert (ys + [x])[1..] == ys[1..] + [x];
    } else {
      SubsequenceSnoc(xs, ys[1..], x, keep);
      assert (ys + [x])[1..] == ys[1..] + [x];
    }
  }
}

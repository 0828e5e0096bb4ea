/** Order-preserving selection: `xs` is obtained from `ys` by deleting elements. */
module Subsequences {

  /** True iff `xs` can be obtained from `ys` by deleting some of its elements,
      keeping the rest in their original order. */
  predicate IsSubsequence<T(==)>(xs: seq<T>, ys: seq<T>)
    decreases |ys|
  {
    if ys == [] then xs == []
    else
      (xs != [] && xs[0] == ys[0] && IsSubsequence(xs[1..], ys[1..]))
      || IsSubsequence(xs, ys[1..])
  }

  /** A subsequence is never longer than the sequence it is taken from. */
  lemma {:induction false} SubsequenceLength<T>(xs: seq<T>, ys: seq<T>)
    requires IsSubsequence(xs, ys)
    ensures |xs| <= |ys|
    decreases |ys|
  {
    if ys != [] {
      if xs != [] && xs[0] == ys[0] && IsSubsequence(xs[1..], ys[1..]) {
        SubsequenceLength(xs[1..], ys[1..]);
      } else {
        SubsequenceLength(xs, ys[1..]);
      }
    }
  }

  /** Every element of a subsequence occurs in the sequence it is taken from. */
  lemma {:induction false} SubsequenceMembers<T>(xs: seq<T>, ys: seq<T>, x: T)
    requires IsSubsequence(xs, ys)
    requires x in xs
    ensures x in ys
    decreases |ys|
  {
    if ys != [] {
      if xs != [] && xs[0] == ys[0] && IsSubsequence(xs[1..], ys[1..]) {
        if x != xs[0] {
          assert x in xs[1..] by {
            var k :| 0 <= k < |xs| && xs[k] == x;
            assert xs[1..][k - 1] == x;
          }
          SubsequenceMembers(xs[1..], ys[1..], x);
        }
      } else {
        SubsequenceMembers(xs, ys[1..], x);
      }
    }
  }

  /** Selecting from a selection is a selection from the original. */
  lemma {:induction false} SubsequenceTransitive<T>(xs: seq<T>, ys: seq<T>, zs: seq<T>)
    requires IsSubsequence(xs, ys) && IsSubsequence(ys, zs)
    ensures IsSubsequence(xs, zs)
    decreases |zs|
  {
    if zs == [] {
      assert ys == [] && xs == [];
    } else if ys != [] && ys[0] == zs[0] && IsSubsequence(ys[1..], zs[1..]) {
      if xs != [] && xs[0] == ys[0] && IsSubsequence(xs[1..], ys[1..]) {
        SubsequenceTransitive(xs[1..], ys[1..], zs[1..]);
      } else {
        assert ys != [] && IsSubsequence(xs, ys[1..]);
        SubsequenceTransitive(xs, ys[1..], zs[1..]);
      }
    } else {
      SubsequenceTransitive(xs, ys, zs[1..]);
    }
  }
}

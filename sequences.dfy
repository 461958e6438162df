/**
 * Order-preserving subsequences: what remains of a sequence after some of
 * its elements are deleted.
 */
module Sequences {

  /** a can be obtained from b by deleting elements: b's order is kept. */
  predicate IsSubsequence<T(==)>(a: seq<T>, b: seq<T>)
    decreases |b|
  {
    |a| == 0 ||
    (|b| > 0 &&
     ((a[|a| - 1] == b[|b| - 1] && IsSubsequence(a[..|a| - 1], b[..|b| - 1]))
      || IsSubsequence(a, b[..|b| - 1])))
  }

  /** Appending the same element to both sides, and keeping it or not, keeps a subsequence. */
  lemma SubsequenceExtend<T>(a: seq<T>, b: seq<T>, z: T, keep: bool)
    requires IsSubsequence(a, b)
    ensures IsSubsequence(a + (if keep then [z] else []), b + [z])
  {
    var a', b' := a + (if keep then [z] else []), b + [z];
    assert b'[..|b'| - 1] == b;
    if keep {
      assert a'[..|a'| - 1] == a;
    } else {
      assert a' == a;
    }
  }
}

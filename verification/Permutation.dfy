/** Removing one occurrence from each of two permuted sequences. */
module Permutation {
  lemma PositionOf<T>(init: seq<T>, x: T, b: seq<T>) returns (j: nat)
    requires multiset(init + [x]) == multiset(b)
    ensures j < |b| && b == b[..j] + [x] + b[j + 1..]
    ensures multiset(init) == multiset(b[..j] + b[j + 1..])
  {
    assert multiset(init + [x]) == multiset(init) + multiset{x};
    assert x in multiset(b);
    j :| 0 <= j < |b| && b[j] == x;
    var left, right := b[..j], b[j + 1..];
    assert b == left + [x] + right;
    assert multiset(left + [x] + right) == multiset(left + right) + multiset{x};
    assert multiset(init) == multiset(b) - multiset{x};
  }
}

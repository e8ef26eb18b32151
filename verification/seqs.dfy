/** Sequence helpers shared by the tables and the panels. */
module Seqs {

  /** The position of the first occurrence of `x` in `xs`. */
  function IndexOf<T(==)>(xs: seq<T>, x: T): (i: nat)
    requires x in xs
    ensures i < |xs| && xs[i] == x
    ensures forall j :: 0 <= j < i ==> xs[j] != x
  {
    if xs[0] == x then 0
    else
      assert x in xs[1..] by {
        var k :| 0 <= k < |xs| && xs[k] == x;
        assert xs[1..][k - 1] == x;
      }
      1 + IndexOf(xs[1..], x)
  }

  /** A value already present in a prefix is first found inside it. */
  lemma IndexOfInPrefix<T>(xs: seq<T>, x: T, n: nat)
    requires n <= |xs| && x in xs[..n]
    ensures IndexOf(xs, x) == IndexOf(xs[..n], x)
  {
    var i, k := IndexOf(xs, x), IndexOf(xs[..n], x);
    assert xs[..n][k] == xs[k];
    assert xs[i] == x;
    if i < n {
      assert xs[..n][i] == xs[i];
    }
  }
}

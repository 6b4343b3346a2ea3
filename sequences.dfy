/** Facts about sequences that hold the same elements, each as often: the
    shape in which "the order does not matter" is stated. */
module Sequences {

  /** The last element of `x` sits somewhere in a rearrangement `y`; taking it
      out of both leaves rearrangements of each other. */
  lemma RemoveMatching<T>(x: seq<T>, y: seq<T>) returns (j: nat)
    requires x != [] && multiset(x) == multiset(y)
    ensures j < |y| && y[j] == x[|x| - 1]
    ensures multiset(x[..|x| - 1]) == multiset(y[..j] + y[j + 1..])
  {
    var e := x[|x| - 1];
    assert x == x[..|x| - 1] + [e];
    assert multiset(x) == multiset(x[..|x| - 1]) + multiset{e};
    assert e in multiset(y);
    j :| 0 <= j < |y| && y[j] == e;
    assert y == y[..j] + [e] + y[j + 1..];
    assert multiset(y) == multiset(y[..j]) + multiset{e} + multiset(y[j + 1..]);
    assert multiset(y[..j] + y[j + 1..]) == multiset(y[..j]) + multiset(y[j + 1..]);
    assert multiset(x[..|x| - 1]) == multiset(x) - multiset{e};
    assert multiset(y[..j] + y[j + 1..]) == multiset(y) - multiset{e};
  }

  /** Regrouping a concatenation of three sequences. */
  lemma AppendRegroup<T>(a: seq<T>, b: seq<T>, c: seq<T>)
    ensures (a + b) + c == a + (b + c)
  {
  }
}

/** Mapping a function over the first n elements of a sequence, the shape of a loop that appends one result per element. */
module Sequences {
  function MapPrefix<A, B>(f: A -> B, xs: seq<A>, n: nat): (r: seq<B>)
    requires n <= |xs|
    ensures |r| == n
  {
    if n == 0 then [] else MapPrefix(f, xs, n - 1) + [f(xs[n - 1])]
  }

  /** Element i of the result is f applied to element i: nothing is dropped, reordered or repeated. */
  lemma {:induction false} MapPrefixIndex<A, B>(f: A -> B, xs: seq<A>, n: nat, i: nat)
    requires i < n <= |xs|
    ensures MapPrefix(f, xs, n)[i] == f(xs[i])
    decreases n
  {
    if i < n - 1 {
      MapPrefixIndex(f, xs, n - 1, i);
    }
  }

  lemma AppendAssoc<T>(a: seq<T>, b: seq<T>, c: seq<T>)
    ensures a + b + c == a + (b + c)
  {
  }

  lemma MultisetOfSnoc<T>(xs: seq<T>)
    requires |xs| > 0
    ensures multiset(xs) == multiset(xs[..|xs| - 1]) + multiset{xs[|xs| - 1]}
  {
    assert xs == xs[..|xs| - 1] + [xs[|xs| - 1]];
  }
}

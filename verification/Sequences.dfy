// Sequences of sequences, and mapping.

module Sequences {

  function Concat<T>(parts: seq<seq<T>>): seq<T> {
    if parts == [] then [] else Concat(parts[..|parts| - 1]) + parts[|parts| - 1]
  }

  lemma ConcatOfMore<T>(parts: seq<seq<T>>, part: seq<T>)
    ensures Concat(parts + [part]) == Concat(parts) + part
  {
    assert (parts + [part])[..|parts|] == parts;
  }

  function Map<T, U>(f: T -> U, xs: seq<T>): (ys: seq<U>)
    ensures |ys| == |xs|
    ensures forall i :: 0 <= i < |xs| ==> ys[i] == f(xs[i])
  {
    seq(|xs|, i requires 0 <= i < |xs| => f(xs[i]))
  }

  function Without<T>(xs: seq<T>, i: nat): seq<T>
    requires i < |xs|
  {
    xs[..i] + xs[i + 1..]
  }

  lemma MultisetWithout<T>(xs: seq<T>, i: nat)
    requires i < |xs|
    ensures multiset(Without(xs, i)) == multiset(xs) - multiset{xs[i]}
    ensures multiset(xs) == multiset(Without(xs, i)) + multiset{xs[i]}
  {
    assert xs == xs[..i] + ([xs[i]] + xs[i + 1..]);
  }

  lemma MapWithout<T, U>(f: T -> U, xs: seq<T>, i: nat)
    requires i < |xs|
    ensures multiset(Map(f, xs)) == multiset(Map(f, Without(xs, i))) + multiset{f(xs[i])}
  {
    assert Without(Map(f, xs), i) == Map(f, Without(xs, i));
    MultisetWithout(Map(f, xs), i);
  }

  // Mapping a permutation gives a permutation.
  lemma {:induction false} MapOfPermutation<T, U>(f: T -> U, xs: seq<T>, ys: seq<T>)
    requires multiset(xs) == multiset(ys)
    ensures multiset(Map(f, xs)) == multiset(Map(f, ys))
    decreases |xs|
  {
    if xs == [] {
      assert |multiset(ys)| == 0;
    } else {
      assert xs[0] in multiset(xs);
      var i :| 0 <= i < |ys| && ys[i] == xs[0];
      MultisetWithout(xs, 0);
      MultisetWithout(ys, i);
      MapOfPermutation(f, Without(xs, 0), Without(ys, i));
      MapWithout(f, xs, 0);
      MapWithout(f, ys, i);
    }
  }

  ghost predicate AscendingReals(xs: seq<real>) {
    forall i, j :: 0 <= i < j < |xs| ==> xs[i] <= xs[j]
  }

  lemma LeastComesFirst(xs: seq<real>, ys: seq<real>)
    requires xs != [] && multiset(xs) == multiset(ys) && AscendingReals(ys)
    ensures ys != [] && ys[0] <= xs[0]
  {
    assert xs[0] in multiset(ys);
    var i :| 0 <= i < |ys| && ys[i] == xs[0];
  }

  lemma Tail(xs: seq<real>)
    requires xs != []
    ensures xs == [xs[0]] + xs[1..]
    ensures multiset(xs[1..]) == multiset(xs) - multiset{xs[0]}
    ensures AscendingReals(xs) ==> AscendingReals(xs[1..])
  {
    MultisetWithout(xs, 0);
    assert Without(xs, 0) == xs[1..];
  }

  // A multiset of numbers has one ascending listing.
  lemma {:induction false} AscendingIsUnique(xs: seq<real>, ys: seq<real>)
    requires multiset(xs) == multiset(ys) && AscendingReals(xs) && AscendingReals(ys)
    ensures xs == ys
    decreases |xs|
  {
    if xs == [] {
      assert |multiset(ys)| == 0;
    } else {
      LeastComesFirst(xs, ys);
      LeastComesFirst(ys, xs);
      Tail(xs);
      Tail(ys);
      AscendingIsUnique(xs[1..], ys[1..]);
    }
  }
}

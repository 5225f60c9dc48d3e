// Array.prototype.sort by a numeric key (stable), and sums over sequences.

module Sorting {

  ghost predicate SortedBy<T>(xs: seq<T>, key: T -> real) {
    forall i, j :: 0 <= i < j < |xs| ==> key(xs[i]) <= key(xs[j])
  }

  ghost predicate StrictlySortedBy<T>(xs: seq<T>, key: T -> real) {
    forall i, j :: 0 <= i < j < |xs| ==> key(xs[i]) < key(xs[j])
  }

  // `x` behind every element whose key is not greater.
  function InsertBy<T>(xs: seq<T>, x: T, key: T -> real): seq<T> {
    if xs == [] || key(xs[|xs| - 1]) <= key(x) then xs + [x]
    else InsertBy(xs[..|xs| - 1], x, key) + [xs[|xs| - 1]]
  }

  lemma {:induction false} InsertKeepsElements<T>(xs: seq<T>, x: T, key: T -> real)
    ensures multiset(InsertBy(xs, x, key)) == multiset(xs) + multiset{x}
    ensures |InsertBy(xs, x, key)| == |xs| + 1
  {
    if xs != [] && key(x) < key(xs[|xs| - 1]) {
      InsertKeepsElements(xs[..|xs| - 1], x, key);
      assert xs == xs[..|xs| - 1] + [xs[|xs| - 1]];
    }
  }

  lemma {:induction false} InsertKeepsOrder<T>(xs: seq<T>, x: T, key: T -> real)
    requires SortedBy(xs, key)
    ensures SortedBy(InsertBy(xs, x, key), key)
  {
    if xs != [] && key(x) < key(xs[|xs| - 1]) {
      var front, last := xs[..|xs| - 1], xs[|xs| - 1];
      var r := InsertBy(front, x, key);
      InsertKeepsOrder(front, x, key);
      InsertKeepsElements(front, x, key);
      forall i | 0 <= i < |r|
        ensures key(r[i]) <= key(last)
      {
        assert r[i] in multiset(r);
        assert r[i] == x || r[i] in front;
      }
    }
  }

  function SortBy<T>(xs: seq<T>, key: T -> real): (r: seq<T>)
    ensures multiset(r) == multiset(xs)
    ensures |r| == |xs|
    ensures SortedBy(r, key)
  {
    if xs == [] then []
    else
      var front := SortBy(xs[..|xs| - 1], key);
      InsertKeepsElements(front, xs[|xs| - 1], key);
      InsertKeepsOrder(front, xs[|xs| - 1], key);
      assert xs == xs[..|xs| - 1] + [xs[|xs| - 1]];
      InsertBy(front, xs[|xs| - 1], key)
  }

  lemma {:induction false} SortedIsFixed<T>(xs: seq<T>, key: T -> real)
    requires SortedBy(xs, key)
    ensures SortBy(xs, key) == xs
  {
    if xs != [] {
      var n := |xs| - 1;
      var front := xs[..n];
      SortedIsFixed(front, key);
      assert front != [] ==> key(front[n - 1]) <= key(xs[n]);
      assert xs == front + [xs[n]];
    }
  }

  // Distinct keys survive sorting.
  lemma DistinctSortsStrictly<T>(xs: seq<T>, key: T -> real)
    requires forall i, j :: 0 <= i < j < |xs| ==> key(xs[i]) != key(xs[j])
    ensures StrictlySortedBy(SortBy(xs, key), key)
  {
    var r := SortBy(xs, key);
    forall i, j | 0 <= i < j < |r|
      ensures key(r[i]) < key(r[j])
    {
      assert key(r[i]) <= key(r[j]);
      DistinctStayDistinct(xs, r, key, i, j);
    }
  }

  lemma DistinctStayDistinct<T>(xs: seq<T>, r: seq<T>, key: T -> real, i: nat, j: nat)
    requires forall a, b :: 0 <= a < b < |xs| ==> key(xs[a]) != key(xs[b])
    requires multiset(r) == multiset(xs) && i < j < |r|
    ensures key(r[i]) != key(r[j])
  {
    assert r[i] in multiset(r) && r[j] in multiset(r);
    var a :| 0 <= a < |xs| && xs[a] == r[i];
    var b :| 0 <= b < |xs| && xs[b] == r[j];
    if a == b {
      TwiceInMultiset(r, i, j);
      OnceInMultiset(xs, r[i], key);
    }
  }

  lemma TwiceInMultiset<T>(r: seq<T>, i: nat, j: nat)
    requires i < j < |r| && r[i] == r[j]
    ensures multiset(r)[r[i]] >= 2
  {
    assert r == r[..j] + r[j..];
    assert r[i] in r[..j] by { assert r[..j][i] == r[i]; }
    assert r[j] in r[j..] by { assert r[j..][0] == r[j]; }
    assert multiset(r) == multiset(r[..j]) + multiset(r[j..]);
  }

  lemma {:induction false} OnceInMultiset<T>(xs: seq<T>, x: T, key: T -> real)
    requires forall i, j :: 0 <= i < j < |xs| ==> key(xs[i]) != key(xs[j])
    ensures multiset(xs)[x] <= 1
  {
    if xs != [] {
      var front := xs[..|xs| - 1];
      assert xs == front + [xs[|xs| - 1]];
      OnceInMultiset(front, x, key);
      assert forall i :: 0 <= i < |front| ==> front[i] == xs[i];
    }
  }

  // ----- Sums -----------------------------------------------------------------------

  function SumBy<T>(xs: seq<T>, f: T -> real): real {
    if xs == [] then 0.0 else SumBy(xs[..|xs| - 1], f) + f(xs[|xs| - 1])
  }

  lemma SumOfOne<T>(x: T, f: T -> real)
    ensures SumBy([x], f) == f(x)
  {
    assert [x][..0] == [];
    assert SumBy([x], f) == SumBy([x][..0], f) + f([x][0]);
  }

  lemma {:induction false} SumOfConcat<T>(xs: seq<T>, ys: seq<T>, f: T -> real)
    ensures SumBy(xs + ys, f) == SumBy(xs, f) + SumBy(ys, f)
  {
    if ys == [] {
      assert xs + ys == xs;
    } else {
      assert (xs + ys)[..|xs + ys| - 1] == xs + ys[..|ys| - 1];
      SumOfConcat(xs, ys[..|ys| - 1], f);
    }
  }

  lemma SumAfterUpdate<T>(xs: seq<T>, i: nat, x: T, f: T -> real)
    requires i < |xs|
    ensures SumBy(xs[i := x], f) == SumBy(xs, f) - f(xs[i]) + f(x)
  {
    assert xs == xs[..i] + ([xs[i]] + xs[i + 1..]);
    assert xs[i := x] == xs[..i] + ([x] + xs[i + 1..]);
    SumOfConcat(xs[..i], [xs[i]] + xs[i + 1..], f);
    SumOfConcat(xs[..i], [x] + xs[i + 1..], f);
    SumOfConcat([xs[i]], xs[i + 1..], f);
    SumOfConcat([x], xs[i + 1..], f);
    SumOfOne(xs[i], f);
    SumOfOne(x, f);
  }

  // Sums do not depend on the order of their terms.
  lemma {:induction false} SumOfPermutation<T>(xs: seq<T>, ys: seq<T>, f: T -> real)
    requires multiset(xs) == multiset(ys)
    ensures SumBy(xs, f) == SumBy(ys, f)
    decreases |xs|
  {
    if xs == [] {
      assert |multiset(ys)| == 0;
    } else {
      var x := xs[|xs| - 1];
      var front := xs[..|xs| - 1];
      assert xs == front + [x];
      assert x in multiset(ys);
      var i :| 0 <= i < |ys| && ys[i] == x;
      var rest := ys[..i] + ys[i + 1..];
      assert ys == ys[..i] + ([x] + ys[i + 1..]);
      assert multiset(ys) == multiset(ys[..i]) + (multiset{x} + multiset(ys[i + 1..]));
      assert multiset(rest) == multiset(ys) - multiset{x};
      assert multiset(xs) == multiset(front) + multiset{x};
      SumOfPermutation(front, rest, f);
      SumOfConcat(ys[..i], [x] + ys[i + 1..], f);
      SumOfConcat([x], ys[i + 1..], f);
      SumOfConcat(ys[..i], ys[i + 1..], f);
    }
  }
}

/**
 Sorting by a comparator, with the contract that sort.Slice gives, and what that contract says
 when the comparator is a strict weak order.
 */
module Sorting {

  /** The contract of sort.Slice: no later element is less than an earlier one. */
  predicate SortedBy<T>(less: (T, T) -> bool, xs: seq<T>) {
    forall i, j | 0 <= i < j < |xs| :: !less(xs[j], xs[i])
  }

  /** Before the first element that does not come before x, so that ties keep their order. */
  function InsertBy<T(==)>(less: (T, T) -> bool, x: T, xs: seq<T>): (r: seq<T>)
    ensures multiset(r) == multiset{x} + multiset(xs)
  {
    if xs == [] then [x]
    else if !less(xs[0], x) then [x] + xs
    else
      assert xs == [xs[0]] + xs[1..];
      [xs[0]] + InsertBy(less, x, xs[1..])
  }

  function SortBy<T(==)>(less: (T, T) -> bool, xs: seq<T>): (r: seq<T>)
    ensures multiset(r) == multiset(xs) && |r| == |xs|
  {
    if xs == [] then []
    else
      assert xs == [xs[0]] + xs[1..];
      var r := InsertBy(less, xs[0], SortBy(less, xs[1..]));
      assert |multiset(r)| == |r| && |multiset(xs)| == |xs|;
      r
  }

  /** y does not come before x. */
  predicate NotAfter<T>(less: (T, T) -> bool, x: T, y: T) {
    !less(y, x)
  }

  /** On the elements of `all`, the comparator is a strict weak order: it is asymmetric, and what does
      not come before is transitive. */
  ghost predicate WeakOrder<T(!new)>(less: (T, T) -> bool, all: seq<T>) {
    && (forall x, y | x in all && y in all :: NotAfter(less, x, y) || NotAfter(less, y, x))
    && (forall x, y, z | x in all && y in all && z in all && NotAfter(less, x, y) && NotAfter(less, y, z) ::
          NotAfter(less, x, z))
  }

  lemma {:induction false} InsertBySorted<T(!new)>(less: (T, T) -> bool, all: seq<T>, x: T, xs: seq<T>)
    requires WeakOrder(less, all) && x in all && (forall y | y in xs :: y in all) && SortedBy(less, xs)
    ensures SortedBy(less, InsertBy(less, x, xs))
  {
    if xs == [] {
    } else if !less(xs[0], x) {
      forall j | 0 <= j < |xs| ensures !less(xs[j], x) {
        assert NotAfter(less, x, xs[0]) && NotAfter(less, xs[0], xs[j]);
        assert NotAfter(less, x, xs[j]);
      }
    } else {
      var rest := xs[1..];
      assert NotAfter(less, xs[0], x);
      InsertBySorted(less, all, x, rest);
      var tail := InsertBy(less, x, rest);
      forall j | 0 <= j < |tail| ensures !less(tail[j], xs[0]) {
        assert tail[j] in multiset(tail);
        assert tail[j] == x || tail[j] in rest;
      }
    }
  }

  lemma {:induction false} SortBySorted<T(!new)>(less: (T, T) -> bool, all: seq<T>, xs: seq<T>)
    requires WeakOrder(less, all) && forall y | y in xs :: y in all
    ensures SortedBy(less, SortBy(less, xs))
  {
    if xs != [] {
      SortBySorted(less, all, xs[1..]);
      var rest := SortBy(less, xs[1..]);
      forall y | y in rest ensures y in all {
        assert y in multiset(rest);
      }
      InsertBySorted(less, all, xs[0], rest);
    }
  }

  /** A result that the contract of the sort allows. */
  predicate SortOf<T(==)>(less: (T, T) -> bool, xs: seq<T>, sorted: seq<T>) {
    |sorted| == |xs| && multiset(sorted) == multiset(xs) && SortedBy(less, sorted)
  }

  lemma SameElements<T>(xs: seq<T>, ys: seq<T>)
    requires multiset(xs) == multiset(ys)
    ensures forall x :: x in xs <==> x in ys
  {
    forall x ensures x in xs <==> x in ys {
      assert x in multiset(xs) <==> x in multiset(ys);
    }
  }

  /** Whatever the contract allows, nothing comes before its first element or after its last. */
  lemma SortedEnds<T(!new)>(less: (T, T) -> bool, xs: seq<T>, sorted: seq<T>, x: T)
    requires SortOf(less, xs, sorted) && x in xs && WeakOrder(less, xs)
    ensures sorted[0] in xs && !less(x, sorted[0])
    ensures sorted[|sorted| - 1] in xs && !less(sorted[|sorted| - 1], x)
  {
    SameElements(xs, sorted);
    var k :| 0 <= k < |sorted| && sorted[k] == x;
    assert NotAfter(less, x, x);
  }

  /** An element that nothing comes before can be sorted first, one that nothing comes after last. */
  lemma SortWithEnd<T(!new)>(less: (T, T) -> bool, xs: seq<T>, x: T, first: bool) returns (sorted: seq<T>)
    requires WeakOrder(less, xs) && x in xs
    requires forall y | y in xs :: if first then !less(y, x) else !less(x, y)
    ensures SortOf(less, xs, sorted) && sorted != [] && sorted[if first then 0 else |sorted| - 1] == x
  {
    var others := Without(xs, x);
    SortBySorted(less, xs, others);
    var rest := SortBy(less, others);
    SameElements(rest, others);
    sorted := if first then [x] + rest else rest + [x];
    SortedAtEnd(less, rest, x, first);
  }

  lemma Without<T>(xs: seq<T>, x: T) returns (others: seq<T>)
    requires x in xs
    ensures multiset(xs) == multiset(others) + multiset{x} && |xs| == |others| + 1
    ensures forall y | y in others :: y in xs
  {
    var i :| 0 <= i < |xs| && xs[i] == x;
    others := xs[..i] + xs[i + 1..];
    assert xs == xs[..i] + [x] + xs[i + 1..];
  }

  lemma SortedAtEnd<T>(less: (T, T) -> bool, rest: seq<T>, x: T, first: bool)
    requires SortedBy(less, rest) && forall y | y in rest :: if first then !less(y, x) else !less(x, y)
    ensures SortedBy(less, if first then [x] + rest else rest + [x])
  {
  }
}

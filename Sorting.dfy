/**
 * Swift's `sorted(by:)`. On fewer than 64 elements the standard library runs an
 * insertion sort over the whole list: each element in turn, from left to right, moves left past
 * every element it must come before and stops at the first one it need not.
 * The argument `before` plays the role of `areInIncreasingOrder`. The result
 * is always a permutation of the input; it is sorted when `before` is a strict
 * weak order on the elements, and need not be otherwise.
 */
module Sorting {

  /** Irreflexive and transitive (hence also asymmetric). */
  ghost predicate StrictOrder<T(!new)>(before: (T, T) -> bool) {
    && (forall x :: !before(x, x))
    && (forall x, y, z :: before(x, y) && before(y, z) ==> before(x, z))
  }

  /** A strict weak order on the elements of `dom`: asymmetric, and whenever `x`
   *  goes before `z`, every `y` goes after `x` or before `z`. */
  ghost predicate StrictWeakOn<T>(dom: seq<T>, before: (T, T) -> bool) {
    && (forall x, y :: x in dom && y in dom && before(x, y) ==> !before(y, x))
    && (forall x, y, z :: x in dom && y in dom && z in dom && before(x, z) ==> before(x, y) || before(y, z))
  }

  /** A strict weak order on every value of the type. */
  ghost predicate StrictWeakOrder<T(!new)>(before: (T, T) -> bool) {
    && (forall x, y :: before(x, y) ==> !before(y, x))
    && (forall x, y, z :: before(x, z) ==> before(x, y) || before(y, z))
  }

  /** No element is required to come before one that precedes it. */
  ghost predicate SortedBy<T>(s: seq<T>, before: (T, T) -> bool) {
    forall i, j :: 0 <= i < j < |s| ==> !before(s[j], s[i])
  }

  /** One step of the insertion sort: `x` arrives after `s` and moves left while
   *  it must come before its left neighbour. */
  function InsertLast<T>(s: seq<T>, x: T, before: (T, T) -> bool): (r: seq<T>)
    ensures |r| == |s| + 1
    ensures multiset(r) == multiset(s) + multiset{x}
  {
    if s == [] || !before(x, s[|s| - 1]) then s + [x]
    else
      assert s == s[..|s| - 1] + [s[|s| - 1]];
      InsertLast(s[..|s| - 1], x, before) + [s[|s| - 1]]
  }

  /** `sorted(by: before)`: the elements inserted one by one, from left to right. */
  function Sort<T>(s: seq<T>, before: (T, T) -> bool): (r: seq<T>)
    ensures |r| == |s|
    ensures multiset(r) == multiset(s)
  {
    if s == [] then []
    else
      assert s == s[..|s| - 1] + [s[|s| - 1]];
      InsertLast(Sort(s[..|s| - 1], before), s[|s| - 1], before)
  }

  /** Inserting into a sorted list keeps it sorted when the order is strict weak
   *  on a list holding all the elements involved. */
  lemma {:induction false} InsertLastSorted<T>(s: seq<T>, x: T, before: (T, T) -> bool, dom: seq<T>)
    requires StrictWeakOn(dom, before)
    requires x in dom && forall y :: y in s ==> y in dom
    requires SortedBy(s, before)
    ensures SortedBy(InsertLast(s, x, before), before)
  {
    if s == [] {
    } else if !before(x, s[|s| - 1]) {
      var last := s[|s| - 1];
      forall i | 0 <= i < |s| - 1 ensures !before(x, s[i]) {
        assert !before(last, s[i]);
      }
    } else {
      var init, last := s[..|s| - 1], s[|s| - 1];
      assert s == init + [last];
      InsertLastSorted(init, x, before, dom);
      var r := InsertLast(init, x, before) + [last];
      forall i | 0 <= i < |r| - 1 ensures !before(last, r[i]) {
        assert r[i] in multiset(init) + multiset{x};
        if r[i] != x {
          var k :| 0 <= k < |init| && init[k] == r[i];
        }
      }
    }
  }

  lemma {:induction false} SortSortedIn<T>(s: seq<T>, before: (T, T) -> bool, dom: seq<T>)
    requires StrictWeakOn(dom, before)
    requires forall y :: y in s ==> y in dom
    ensures SortedBy(Sort(s, before), before)
  {
    if s != [] {
      var init, last := s[..|s| - 1], s[|s| - 1];
      assert s == init + [last];
      SortSortedIn(init, before, dom);
      var sorted := Sort(init, before);
      forall y | y in sorted ensures y in dom {
        assert y in multiset(sorted);
      }
      InsertLastSorted(sorted, last, before, dom);
    }
  }

  /** The result is sorted when `before` is a strict weak order on the input. */
  lemma SortSorted<T>(s: seq<T>, before: (T, T) -> bool)
    requires StrictWeakOn(s, before)
    ensures SortedBy(Sort(s, before), before)
  {
    SortSortedIn(s, before, s);
  }

  lemma SortOne<T>(a: T, before: (T, T) -> bool)
    ensures Sort([a], before) == [a]
  {
    assert [a][..0] == [];
  }

  lemma SortTwoInOrder<T>(a: T, b: T, before: (T, T) -> bool)
    requires !before(b, a)
    ensures Sort([a, b], before) == [a, b]
  {
    assert [a, b][..1] == [a];
    SortOne(a, before);
  }

  /** Three elements none of which must come before its left neighbour stay
   *  where they are, whatever the first and the last. */
  lemma SortThreeInOrder<T>(a: T, b: T, c: T, before: (T, T) -> bool)
    requires !before(b, a) && !before(c, b)
    ensures Sort([a, b, c], before) == [a, b, c]
  {
    assert [a, b, c][..2] == [a, b];
    SortTwoInOrder(a, b, before);
  }

  /** An order that is strict weak everywhere is strict weak on any list. */
  lemma StrictWeakEverywhere<T(!new)>(s: seq<T>, before: (T, T) -> bool)
    requires StrictWeakOrder(before)
    ensures StrictWeakOn(s, before)
  {
  }
}

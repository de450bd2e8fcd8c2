/** Generic helpers on sequences: searching, duplicate-free lists, filtering. */
module Lists {

  /** The position of the first `x` in `s` (`firstIndex(of:)`), or `|s|` if none. */
  function IndexOf<T(==)>(s: seq<T>, x: T): (k: nat)
    ensures k <= |s|
    ensures k < |s| ==> s[k] == x
    ensures forall i :: 0 <= i < k ==> s[i] != x
  {
    if s == [] then 0 else if s[0] == x then 0 else 1 + IndexOf(s[1..], x)
  }

  predicate NoDuplicates<T(==)>(s: seq<T>) {
    forall i, j :: 0 <= i < j < |s| ==> s[i] != s[j]
  }

  /** Appends, in order, each element of `xs` that is not yet present: the loop
   *  `for x in xs { if !list.contains(x) { list.append(x) } }`. */
  function AppendMissing<T(==)>(list: seq<T>, xs: seq<T>): (r: seq<T>)
    ensures |list| <= |r| && r[..|list|] == list
  {
    if xs == [] then list
    else
      var grown := AppendMissing(list, xs[..|xs| - 1]);
      var x := xs[|xs| - 1];
      if x in grown then grown else grown + [x]
  }

  /** A duplicate-free list stays duplicate-free. */
  lemma {:induction false} AppendMissingNoDuplicates<T>(list: seq<T>, xs: seq<T>)
    requires NoDuplicates(list)
    ensures NoDuplicates(AppendMissing(list, xs))
  {
    if xs != [] {
      AppendMissingNoDuplicates(list, xs[..|xs| - 1]);
    }
  }

  /** Afterwards every element of `xs` is listed, and nothing else was added. */
  lemma {:induction false} AppendMissingContents<T>(list: seq<T>, xs: seq<T>)
    ensures forall x :: x in AppendMissing(list, xs) <==> x in list || x in xs
  {
    if xs != [] {
      AppendMissingContents(list, xs[..|xs| - 1]);
      assert xs == xs[..|xs| - 1] + [xs[|xs| - 1]];
    }
  }

  /** The added elements are new, and they come in the order in which they first
   *  occur in `xs`. */
  predicate AddedInOrder<T(==)>(list: seq<T>, xs: seq<T>, r: seq<T>) {
    && (forall i :: |list| <= i < |r| ==> r[i] !in list && r[i] in xs)
    && (forall i, j :: |list| <= i < j < |r| ==> IndexOf(xs, r[i]) < IndexOf(xs, r[j]))
  }

  lemma {:induction false} AppendMissingOrder<T>(list: seq<T>, xs: seq<T>)
    ensures AddedInOrder(list, xs, AppendMissing(list, xs))
  {
    if xs != [] {
      var init, x := xs[..|xs| - 1], xs[|xs| - 1];
      AppendMissingOrder(list, init);
      AppendMissingContents(list, init);
      var grown := AppendMissing(list, init);
      assert xs == init + [x];
      forall i | |list| <= i < |grown|
        ensures grown[i] in init && IndexOf(xs, grown[i]) == IndexOf(init, grown[i]) < |init|
      {
        assert grown[i] in init;
        PrefixIndexOf(init, [x], grown[i]);
        MemberIndexOf(init, grown[i]);
      }
      if x !in grown {
        AbsentIndexOf(init, x);
        assert x !in list by {
          assert grown[..|list|] == list;
        }
        var r := grown + [x];
        assert forall i :: 0 <= i < |grown| ==> r[i] == grown[i];
      }
    }
  }

  lemma {:induction false} MemberIndexOf<T>(s: seq<T>, x: T)
    requires x in s
    ensures IndexOf(s, x) < |s|
  {
    if s[0] != x {
      MemberIndexOf(s[1..], x);
    }
  }

  lemma {:induction false} AbsentIndexOf<T>(s: seq<T>, x: T)
    requires x !in s
    ensures IndexOf(s + [x], x) == |s|
  {
    if s != [] {
      assert (s + [x])[1..] == s[1..] + [x];
      AbsentIndexOf(s[1..], x);
    }
  }

  lemma {:induction false} PrefixIndexOf<T>(a: seq<T>, b: seq<T>, x: T)
    requires x in a
    ensures IndexOf(a + b, x) == IndexOf(a, x)
  {
    if a[0] != x {
      assert (a + b)[1..] == a[1..] + b;
      PrefixIndexOf(a[1..], b, x);
    }
  }

  /** The elements of `s` that satisfy `keep`, in their original order (`filter`). */
  function Filter<T>(s: seq<T>, keep: T -> bool): (r: seq<T>)
    ensures |r| <= |s|
    ensures forall i :: 0 <= i < |r| ==> keep(r[i])
    ensures forall x :: x in r ==> x in s
  {
    if s == [] then []
    else if keep(s[0]) then [s[0]] + Filter(s[1..], keep) else Filter(s[1..], keep)
  }

  lemma {:induction false} FilterContents<T>(s: seq<T>, keep: T -> bool)
    ensures forall x :: x in Filter(s, keep) <==> x in s && keep(x)
  {
    if s != [] {
      FilterContents(s[1..], keep);
    }
  }

  lemma {:induction false} FilterAppend<T>(a: seq<T>, b: seq<T>, keep: T -> bool)
    ensures Filter(a + b, keep) == Filter(a, keep) + Filter(b, keep)
  {
    if a != [] {
      assert (a + b)[1..] == a[1..] + b;
      FilterAppend(a[1..], b, keep);
    } else {
      assert a + b == b;
    }
  }

  /** When `s[g]` is the only element `keep` rejects, filtering removes just it. */
  lemma {:induction false} FilterOneOut<T>(s: seq<T>, keep: T -> bool, g: nat)
    requires g < |s| && !keep(s[g])
    requires forall i :: 0 <= i < |s| && i != g ==> keep(s[i])
    ensures Filter(s, keep) == s[..g] + s[g + 1..]
  {
    if g == 0 {
      FilterAll(s[1..], keep);
    } else {
      FilterOneOut(s[1..], keep, g - 1);
      assert s[1..][..g - 1] == s[1..g];
      assert s[1..][g..] == s[g + 1..];
      assert s[..g] == [s[0]] + s[1..g];
    }
  }

  /** `r` is `s` with some elements left out, the others in their original order. */
  predicate IsSubsequence<T(==)>(r: seq<T>, s: seq<T>) {
    if r == [] then true
    else if s == [] then false
    else if r[0] == s[0] then IsSubsequence(r[1..], s[1..])
    else IsSubsequence(r, s[1..])
  }

  lemma {:induction false} FilterIsSubsequence<T>(s: seq<T>, keep: T -> bool)
    ensures IsSubsequence(Filter(s, keep), s)
  {
    if s != [] {
      FilterIsSubsequence(s[1..], keep);
    }
  }

  /** Filtering with a test that keeps everything changes nothing. */
  lemma {:induction false} FilterAll<T>(s: seq<T>, keep: T -> bool)
    requires forall i :: 0 <= i < |s| ==> keep(s[i])
    ensures Filter(s, keep) == s
  {
    if s != [] {
      FilterAll(s[1..], keep);
    }
  }
}

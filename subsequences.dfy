/** Order-preserving subsequences, the shape of every `filter` in the core. */
module Subsequences {

  /**
   * `a` can be obtained from `b` by deleting elements: the last element of
   * `a` is matched with the last occurrence in `b` that leaves room for the
   * rest.
   */
  ghost predicate IsSubsequence<T>(a: seq<T>, b: seq<T>)
    decreases |b|
  {
    if a == [] then true
    else if b == [] then false
    else if a[|a| - 1] == b[|b| - 1] then IsSubsequence(a[..|a| - 1], b[..|b| - 1])
    else IsSubsequence(a, b[..|b| - 1])
  }

  /** Every sequence is a subsequence of itself. */
  lemma {:induction false} SubsequenceReflexive<T>(a: seq<T>)
    ensures IsSubsequence(a, a)
    decreases |a|
  {
    if a != [] {
      SubsequenceReflexive(a[..|a| - 1]);
    }
  }

  /** Dropping the last element keeps a subsequence a subsequence. */
  lemma {:induction false} SubsequenceDropLast<T>(a: seq<T>, b: seq<T>)
    requires a != [] && IsSubsequence(a, b)
    ensures IsSubsequence(a[..|a| - 1], b)
    decreases 2 * |b|
  {
    var a' := a[..|a| - 1];
    if a' == [] {
    } else if a[|a| - 1] == b[|b| - 1] {
      SubsequenceExtend(a', b[..|b| - 1], b[|b| - 1]);
      assert b[..|b| - 1] + [b[|b| - 1]] == b;
    } else {
      SubsequenceDropLast(a, b[..|b| - 1]);
      SubsequenceExtend(a', b[..|b| - 1], b[|b| - 1]);
      assert b[..|b| - 1] + [b[|b| - 1]] == b;
    }
  }

  /** A subsequence stays one when the larger sequence grows at the end. */
  lemma {:induction false} SubsequenceExtend<T>(a: seq<T>, b: seq<T>, x: T)
    requires IsSubsequence(a, b)
    ensures IsSubsequence(a, b + [x])
    decreases 2 * |b| + 1
  {
    assert (b + [x])[..|b|] == b;
    if a != [] && a[|a| - 1] == x {
      SubsequenceDropLast(a, b);
    }
  }

  /** Appending the same element to both sides keeps a subsequence. */
  lemma SubsequenceAppendBoth<T>(a: seq<T>, b: seq<T>, x: T)
    requires IsSubsequence(a, b)
    ensures IsSubsequence(a + [x], b + [x])
  {
    assert (a + [x])[..|a|] == a;
    assert (b + [x])[..|b|] == b;
  }

  /** Every element of a subsequence is an element of the sequence. */
  lemma {:induction false} SubsequenceElements<T>(a: seq<T>, b: seq<T>)
    requires IsSubsequence(a, b)
    ensures forall x :: x in a ==> x in b
    decreases |b|
  {
    if a != [] {
      if a[|a| - 1] == b[|b| - 1] {
        SubsequenceElements(a[..|a| - 1], b[..|b| - 1]);
        assert a == a[..|a| - 1] + [a[|a| - 1]];
        assert b == b[..|b| - 1] + [b[|b| - 1]];
      } else {
        SubsequenceElements(a, b[..|b| - 1]);
        assert b == b[..|b| - 1] + [b[|b| - 1]];
      }
    }
  }

  /** A subsequence is never longer than the sequence. */
  lemma {:induction false} SubsequenceLength<T>(a: seq<T>, b: seq<T>)
    requires IsSubsequence(a, b)
    ensures |a| <= |b|
    decreases |b|
  {
    if a != [] {
      if a[|a| - 1] == b[|b| - 1] {
        SubsequenceLength(a[..|a| - 1], b[..|b| - 1]);
      } else {
        SubsequenceLength(a, b[..|b| - 1]);
      }
    }
  }

  // ---------------------------------------------------------------------------
  // `filter`
  // ---------------------------------------------------------------------------

  /** Kotlin's `filter`: the elements satisfying `p`, in list order. */
  function Filter<T>(xs: seq<T>, p: T -> bool): seq<T>
    decreases |xs|
  {
    if xs == [] then []
    else
      var x := xs[|xs| - 1];
      Filter(xs[..|xs| - 1], p) + (if p(x) then [x] else [])
  }

  /**
   * `filter` keeps list order and keeps exactly the elements satisfying
   * `p`, each as many times as it occurs in the list.
   */
  lemma {:induction false} FilterSpec<T>(xs: seq<T>, p: T -> bool)
    ensures IsSubsequence(Filter(xs, p), xs)
    ensures forall x :: x in Filter(xs, p) <==> x in xs && p(x)
    ensures forall x :: multiset(Filter(xs, p))[x] == if p(x) then multiset(xs)[x] else 0
    decreases |xs|
  {
    FilterCounts(xs, p);
    if xs != [] {
      var init := xs[..|xs| - 1];
      var x := xs[|xs| - 1];
      FilterSpec(init, p);
      assert init + [x] == xs;
      if p(x) {
        SubsequenceAppendBoth(Filter(init, p), init, x);
      } else {
        assert Filter(xs, p) == Filter(init, p);
        SubsequenceExtend(Filter(init, p), init, x);
      }
    }
  }

  /** An element passing `p` is kept as often as it occurs; any other is dropped. */
  lemma {:induction false} FilterCounts<T>(xs: seq<T>, p: T -> bool)
    ensures forall x :: multiset(Filter(xs, p))[x] == if p(x) then multiset(xs)[x] else 0
    decreases |xs|
  {
    if xs != [] {
      var init := xs[..|xs| - 1];
      var x := xs[|xs| - 1];
      FilterCounts(init, p);
      assert init + [x] == xs;
      assert multiset(xs) == multiset(init) + multiset{x};
      assert multiset(Filter(xs, p)) == multiset(Filter(init, p)) + multiset(if p(x) then [x] else []);
    }
  }

  /** A stronger test keeps a subsequence of what a weaker one keeps. */
  lemma {:induction false} FilterNarrower<T>(xs: seq<T>, p: T -> bool, q: T -> bool)
    requires forall x :: p(x) ==> q(x)
    ensures IsSubsequence(Filter(xs, p), Filter(xs, q))
    decreases |xs|
  {
    if xs != [] {
      var init := xs[..|xs| - 1];
      var x := xs[|xs| - 1];
      var a := Filter(init, p);
      var b := Filter(init, q);
      FilterNarrower(init, p, q);
      if p(x) {
        SubsequenceAppendBoth(a, b, x);
      } else if q(x) {
        assert Filter(xs, p) == a;
        SubsequenceExtend(a, b, x);
      } else {
        assert Filter(xs, p) == a;
        assert Filter(xs, q) == b;
      }
    }
  }

  /** A test every element passes keeps the whole list. */
  lemma {:induction false} FilterKeepsAll<T>(xs: seq<T>, p: T -> bool)
    requires forall i :: 0 <= i < |xs| ==> p(xs[i])
    ensures Filter(xs, p) == xs
    decreases |xs|
  {
    if xs != [] {
      FilterKeepsAll(xs[..|xs| - 1], p);
    }
  }

  /** A test no element passes keeps nothing. */
  lemma {:induction false} FilterKeepsNone<T>(xs: seq<T>, p: T -> bool)
    requires forall i :: 0 <= i < |xs| ==> !p(xs[i])
    ensures Filter(xs, p) == []
    decreases |xs|
  {
    if xs != [] {
      FilterKeepsNone(xs[..|xs| - 1], p);
    }
  }

  /** Filtering an extended list extends the filtered list by the new element when it passes. */
  lemma FilterSnoc<T>(xs: seq<T>, x: T, p: T -> bool)
    ensures Filter(xs + [x], p) == Filter(xs, p) + (if p(x) then [x] else [])
  {
    assert (xs + [x])[..|xs|] == xs;
  }
}

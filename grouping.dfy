/**
 * Grouping expenses by a key, as Kotlin's `groupBy` (keys in order of first
 * appearance, each group in list order) and as the chart's
 * `mapNotNull { key } .filter { it == k } .sumOf` do it. A key function
 * returns `None` for an expense that belongs to no group.
 */
module Grouping {
  import opened Wrappers
  import opened ExpenseModel
  import opened Subsequences

  function KeyIs<K(==)>(key: Expense -> Option<K>, k: K): Expense -> bool {
    e => key(e) == Some(k)
  }

  function KeyIn<K(==)>(key: Expense -> Option<K>, ks: seq<K>): Expense -> bool {
    e => key(e).Some? && key(e).value in ks
  }

  /** The expenses whose key is `k`, in list order. */
  function WithKey<K(==)>(xs: seq<Expense>, key: Expense -> Option<K>, k: K): seq<Expense> {
    Filter(xs, KeyIs(key, k))
  }

  /** The expenses whose key is one of `ks`, in list order. */
  function WithKeyIn<K(==)>(xs: seq<Expense>, key: Expense -> Option<K>, ks: seq<K>): seq<Expense> {
    Filter(xs, KeyIn(key, ks))
  }

  /** The total amount of the group with key `k`. */
  function KeySum<K(==)>(xs: seq<Expense>, key: Expense -> Option<K>, k: K): real {
    SumAmounts(WithKey(xs, key, k))
  }

  /** `ks.map { k -> KeySum(k) }`. */
  function KeySums<K(==)>(xs: seq<Expense>, key: Expense -> Option<K>, ks: seq<K>): (r: seq<real>)
    ensures |r| == |ks|
    ensures forall i :: 0 <= i < |ks| ==> r[i] == KeySum(xs, key, ks[i])
  {
    if ks == [] then [] else [KeySum(xs, key, ks[0])] + KeySums(xs, key, ks[1..])
  }

  function SumReals(rs: seq<real>): real {
    if rs == [] then 0.0 else rs[0] + SumReals(rs[1..])
  }

  predicate Distinct<K(==)>(ks: seq<K>) {
    forall i, j :: 0 <= i < j < |ks| ==> ks[i] != ks[j]
  }

  /** The keys of the groups, each once, in order of first appearance (`groupBy`'s `keys`). */
  function GroupKeys<K(==)>(xs: seq<Expense>, key: Expense -> Option<K>): (ks: seq<K>)
    decreases |xs|
  {
    if xs == [] then []
    else
      var ks := GroupKeys(xs[..|xs| - 1], key);
      match key(xs[|xs| - 1])
      case None => ks
      case Some(k) => if k in ks then ks else ks + [k]
  }

  predicate HasKey<K(==)>(xs: seq<Expense>, key: Expense -> Option<K>, j: int, k: K) {
    0 <= j < |xs| && key(xs[j]) == Some(k)
  }

  /**
   * The group keys are distinct and are exactly the keys that occur.
   */
  lemma {:induction false} GroupKeysSpec<K>(xs: seq<Expense>, key: Expense -> Option<K>)
    ensures Distinct(GroupKeys(xs, key))
    ensures forall k :: k in GroupKeys(xs, key) <==> exists j :: HasKey(xs, key, j, k)
    decreases |xs|
  {
    if xs != [] {
      var init := xs[..|xs| - 1];
      var e := xs[|xs| - 1];
      GroupKeysSpec(init, key);
      var ks0 := GroupKeys(init, key);
      var ks := GroupKeys(xs, key);
      forall j, k | HasKey(init, key, j, k) ensures HasKey(xs, key, j, k) {
        assert xs[j] == init[j];
      }
      forall k | k in ks ensures exists j :: HasKey(xs, key, j, k) {
        if k in ks0 {
          var j :| HasKey(init, key, j, k);
        } else {
          assert HasKey(xs, key, |xs| - 1, k);
        }
      }
      forall k | (exists j :: HasKey(xs, key, j, k)) ensures k in ks {
        var j :| HasKey(xs, key, j, k);
        if j < |init| {
          assert HasKey(init, key, j, k);
        }
      }
    }
  }

  /**
   * First-appearance order: the keys of any prefix of the list are a prefix
   * of the keys of the whole list, so a key whose first occurrence comes
   * later is listed later.
   */
  lemma {:induction false} GroupKeysPrefix<K>(xs: seq<Expense>, key: Expense -> Option<K>, n: nat)
    requires n <= |xs|
    ensures GroupKeys(xs[..n], key) <= GroupKeys(xs, key)
    decreases |xs| - n
  {
    if n < |xs| {
      var init := xs[..|xs| - 1];
      GroupKeysPrefix(init, key, n);
      assert init[..n] == xs[..n];
    } else {
      assert xs[..n] == xs;
    }
  }

  /** Adding one expense adds its amount to its own group and to no other. */
  lemma KeySumSnoc<K>(xs: seq<Expense>, key: Expense -> Option<K>, e: Expense, k: K)
    ensures KeySum(xs + [e], key, k) == KeySum(xs, key, k) + (if key(e) == Some(k) then e.amount else 0.0)
  {
    FilterSnoc(xs, e, KeyIs(key, k));
    SumAmountsAppend(WithKey(xs, key, k), if key(e) == Some(k) then [e] else []);
  }

  /** Among distinct keys, one expense is counted at most once. */
  lemma {:induction false} KeySumsSnoc<K>(xs: seq<Expense>, key: Expense -> Option<K>, e: Expense, ks: seq<K>)
    requires Distinct(ks)
    ensures SumReals(KeySums(xs + [e], key, ks)) ==
      SumReals(KeySums(xs, key, ks)) + (if key(e).Some? && key(e).value in ks then e.amount else 0.0)
    decreases |ks|
  {
    if ks != [] {
      KeySumSnoc(xs, key, e, ks[0]);
      KeySumsSnoc(xs, key, e, ks[1..]);
      assert KeySums(xs + [e], key, ks)[1..] == KeySums(xs + [e], key, ks[1..]);
      assert KeySums(xs, key, ks)[1..] == KeySums(xs, key, ks[1..]);
      if key(e).Some? && key(e).value == ks[0] {
        assert key(e).value !in ks[1..];
      }
      assert key(e).Some? && key(e).value in ks <==>
        key(e) == Some(ks[0]) || (key(e).Some? && key(e).value in ks[1..]);
    }
  }

  /** The group totals of distinct keys add up to the total of the expenses with one of those keys. */
  lemma {:induction false} SumOfKeySums<K>(xs: seq<Expense>, key: Expense -> Option<K>, ks: seq<K>)
    requires Distinct(ks)
    ensures SumReals(KeySums(xs, key, ks)) == SumAmounts(WithKeyIn(xs, key, ks))
    decreases |xs|
  {
    if xs == [] {
      ZeroKeySums(key, ks);
    } else {
      var init := xs[..|xs| - 1];
      var e := xs[|xs| - 1];
      SumOfKeySums(init, key, ks);
      assert init + [e] == xs;
      KeySumsSnoc(init, key, e, ks);
      FilterSnoc(init, e, KeyIn(key, ks));
      SumAmountsAppend(WithKeyIn(init, key, ks), if key(e).Some? && key(e).value in ks then [e] else []);
    }
  }

  lemma {:induction false} ZeroKeySums<K>(key: Expense -> Option<K>, ks: seq<K>)
    ensures SumReals(KeySums([], key, ks)) == 0.0
    decreases |ks|
  {
    if ks != [] {
      ZeroKeySums(key, ks[1..]);
      assert KeySums([], key, ks)[1..] == KeySums([], key, ks[1..]);
    }
  }

  /** When every expense has a key among `ks`, none is dropped. */
  lemma WithKeyInAll<K>(xs: seq<Expense>, key: Expense -> Option<K>, ks: seq<K>)
    requires forall j :: 0 <= j < |xs| ==> key(xs[j]).Some? && key(xs[j]).value in ks
    ensures WithKeyIn(xs, key, ks) == xs
  {
    FilterKeepsAll(xs, KeyIn(key, ks));
  }

  /**
   * A group is an order-preserving subsequence of the list and holds
   * exactly the expenses with its key, each as many times as it occurs.
   */
  lemma WithKeySpec<K>(xs: seq<Expense>, key: Expense -> Option<K>, k: K)
    ensures IsSubsequence(WithKey(xs, key, k), xs)
    ensures forall e :: e in WithKey(xs, key, k) <==> e in xs && key(e) == Some(k)
    ensures forall e :: multiset(WithKey(xs, key, k))[e] == if key(e) == Some(k) then multiset(xs)[e] else 0
  {
    FilterSpec(xs, KeyIs(key, k));
  }

  /** With non-negative amounts, a filtered list never sums to more than the whole list. */
  lemma {:induction false} SubsequenceSumBound(a: seq<Expense>, b: seq<Expense>)
    requires IsSubsequence(a, b) && NonNegativeAmounts(b)
    ensures 0.0 <= SumAmounts(a) <= SumAmounts(b)
    decreases |b|
  {
    if a == [] {
      NonNegativeSum(b);
    } else {
      var b' := b[..|b| - 1];
      assert NonNegativeAmounts(b');
      if a[|a| - 1] == b[|b| - 1] {
        SubsequenceSumBound(a[..|a| - 1], b');
      } else {
        SubsequenceSumBound(a, b');
      }
    }
  }

  lemma {:induction false} NonNegativeSum(xs: seq<Expense>)
    requires NonNegativeAmounts(xs)
    ensures SumAmounts(xs) >= 0.0
    decreases |xs|
  {
    if xs != [] {
      assert NonNegativeAmounts(xs[..|xs| - 1]);
      NonNegativeSum(xs[..|xs| - 1]);
    }
  }
}

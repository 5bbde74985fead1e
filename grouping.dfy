/**
 * Kotlin's groupBy: the groups of a list by a key, in the order in which each
 * key first occurs (groupBy builds a LinkedHashMap), each group keeping the
 * original order of its elements.
 */
module Grouping {
  import opened Seqs

  ghost predicate Distinct<K>(ks: seq<K>)
  {
    forall i, j :: 0 <= i < j < |ks| ==> ks[i] != ks[j]
  }

  /** The distinct keys of `s`, in order of first occurrence. */
  function Keys<T, K(==)>(key: T -> K, s: seq<T>): (ks: seq<K>)
    ensures Distinct(ks)
    ensures forall i :: 0 <= i < |s| ==> key(s[i]) in ks
    ensures forall j :: 0 <= j < |ks| ==> exists i :: 0 <= i < |s| && key(s[i]) == ks[j]
    decreases |s|
  {
    if s == [] then []
    else
      var rest := Keys(key, s[..|s| - 1]);
      assert forall i :: 0 <= i < |s| - 1 ==> s[..|s| - 1][i] == s[i];
      if key(s[|s| - 1]) in rest then rest else rest + [key(s[|s| - 1])]
  }

  /** The group of key `k`: the elements with that key, in their original order. */
  function Group<T, K(==)>(key: T -> K, s: seq<T>, k: K): seq<T>
  {
    Filter((t: T) => key(t) == k, s)
  }

  /** The groups of `ks`, one after the other. */
  function Concat<T, K(==)>(key: T -> K, s: seq<T>, ks: seq<K>): seq<T>
  {
    if ks == [] then [] else Group(key, s, ks[0]) + Concat(key, s, ks[1..])
  }

  lemma {:induction false} ConcatCount<T, K>(key: T -> K, s: seq<T>, ks: seq<K>, x: T)
    requires Distinct(ks)
    ensures multiset(Concat(key, s, ks))[x] == if key(x) in ks then multiset(s)[x] else 0
  {
    if ks != [] {
      ConcatCount(key, s, ks[1..], x);
      FilterCount((t: T) => key(t) == ks[0], s, x);
      assert key(x) in ks <==> key(x) == ks[0] || key(x) in ks[1..];
      if key(x) == ks[0] {
        assert forall j :: 0 <= j < |ks[1..]| ==> ks[1..][j] == ks[j + 1] != ks[0];
      }
    }
  }

  /**
   * Splitting a list into the groups of its distinct keys and putting the
   * groups one after the other loses and duplicates nothing.
   */
  lemma {:induction false} GroupsPartition<T, K>(key: T -> K, s: seq<T>)
    ensures multiset(Concat(key, s, Keys(key, s))) == multiset(s)
  {
    var ks := Keys(key, s);
    CoveringKeysPartition(key, s, ks);
  }

  lemma {:induction false} CoveringKeysPartition<T, K>(key: T -> K, s: seq<T>, ks: seq<K>)
    requires Distinct(ks)
    requires forall i :: 0 <= i < |s| ==> key(s[i]) in ks
    ensures multiset(Concat(key, s, ks)) == multiset(s)
  {
    var c := Concat(key, s, ks);
    forall x
      ensures multiset(c)[x] == multiset(s)[x]
    {
      CoveredCount(key, s, ks, x);
    }
    MultisetExt(c, s);
  }

  lemma MultisetExt<T>(a: seq<T>, b: seq<T>)
    requires forall x :: multiset(a)[x] == multiset(b)[x]
    ensures multiset(a) == multiset(b)
  {
  }

  lemma {:induction false} CoveredCount<T, K>(key: T -> K, s: seq<T>, ks: seq<K>, x: T)
    requires Distinct(ks)
    requires forall i :: 0 <= i < |s| ==> key(s[i]) in ks
    ensures multiset(Concat(key, s, ks))[x] == multiset(s)[x]
  {
    ConcatCount(key, s, ks, x);
    if x in s {
      var i :| 0 <= i < |s| && s[i] == x;
      assert key(s[i]) in ks;
    }
  }

  /** The sum over the whole list is the sum of the groups' sums. */
  lemma {:induction false} GroupSumsAddUp<T, K>(key: T -> K, w: T -> real, s: seq<T>)
    ensures SumBy(w, Concat(key, s, Keys(key, s))) == SumBy(w, s)
  {
    GroupsPartition(key, s);
    SumByPermutation(w, Concat(key, s, Keys(key, s)), s);
  }

  /** Each value occurs at most once in a list without repetitions. */
  lemma {:induction false} DistinctCount<K>(ks: seq<K>, x: K)
    requires Distinct(ks)
    ensures multiset(ks)[x] <= 1
  {
    if ks != [] {
      DistinctCount(ks[1..], x);
      assert ks == [ks[0]] + ks[1..];
      if ks[0] == x {
        assert x !in ks[1..];
      }
    }
  }

  /** A list with the same elements as a list without repetitions has none either. */
  lemma {:induction false} DistinctPermutation<K>(a: seq<K>, b: seq<K>)
    requires Distinct(a) && multiset(a) == multiset(b)
    ensures Distinct(b)
  {
    forall i, j | 0 <= i < j < |b|
      ensures b[i] != b[j]
    {
      if b[i] == b[j] {
        var x := b[i];
        assert b == b[..j] + b[j..];
        assert x in b[..j] && x in b[j..];
        assert multiset(b)[x] == multiset(b[..j])[x] + multiset(b[j..])[x];
        DistinctCount(a, x);
        assert false;
      }
    }
  }

  /** Each key of `ks` with the sum of `w` over its group. */
  function GroupTotals<T, K(==)>(key: T -> K, w: T -> real, s: seq<T>, ks: seq<K>): (r: seq<(K, real)>)
    ensures |r| == |ks|
    ensures forall i :: 0 <= i < |ks| ==> r[i] == (ks[i], SumBy(w, Group(key, s, ks[i])))
  {
    if ks == [] then [] else [(ks[0], SumBy(w, Group(key, s, ks[0])))] + GroupTotals(key, w, s, ks[1..])
  }

  function Second<K>(p: (K, real)): real { p.1 }

  /** The group totals add up to the sum over the groups. */
  lemma {:induction false} GroupTotalsAddUp<T, K>(key: T -> K, w: T -> real, s: seq<T>, ks: seq<K>)
    ensures SumBy(Second, GroupTotals(key, w, s, ks)) == SumBy(w, Concat(key, s, ks))
  {
    if ks != [] {
      GroupTotalsAddUp(key, w, s, ks[1..]);
      SumByAppend(w, Group(key, s, ks[0]), Concat(key, s, ks[1..]));
    }
  }

  /** Whether `k` is the key of some entry. */
  ghost predicate HasKey<K>(r: seq<(K, real)>, k: K)
  {
    exists j :: 0 <= j < |r| && r[j].0 == k
  }

  /** Over distinct keys every group total carries its own key, and every element's key has a total. */
  lemma GroupTotalsKeyed<T, K>(key: T -> K, w: T -> real, s: seq<T>)
    ensures var r := GroupTotals(key, w, s, Keys(key, s));
      && (forall i, j :: 0 <= i < j < |r| ==> r[i].0 != r[j].0)
      && (forall x :: x in s ==> HasKey(r, key(x)))
  {
    var ks := Keys(key, s);
    var r := GroupTotals(key, w, s, ks);
    forall x | x in s ensures HasKey(r, key(x)) {
      var i :| 0 <= i < |s| && s[i] == x;
      assert key(s[i]) in ks;
      var m :| 0 <= m < |ks| && ks[m] == key(x);
      assert r[m].0 == key(x);
    }
  }

  /** Reordering entries with distinct keys keeps the keys distinct and keeps every key. */
  lemma {:induction false} KeyedPermutation<K>(a: seq<(K, real)>, b: seq<(K, real)>)
    requires forall i, j :: 0 <= i < j < |a| ==> a[i].0 != a[j].0
    requires multiset(a) == multiset(b)
    ensures forall i, j :: 0 <= i < j < |b| ==> b[i].0 != b[j].0
    ensures forall k :: HasKey(a, k) ==> HasKey(b, k)
  {
    assert Distinct(a);
    DistinctPermutation(a, b);
    forall i, j | 0 <= i < j < |b|
      ensures b[i].0 != b[j].0
    {
      assert b[i] in multiset(a) && b[j] in multiset(a);
      var p :| 0 <= p < |a| && a[p] == b[i];
      var q :| 0 <= q < |a| && a[q] == b[j];
      assert p != q;
    }
    forall k | HasKey(a, k)
      ensures HasKey(b, k)
    {
      var j :| 0 <= j < |a| && a[j].0 == k;
      assert a[j] in multiset(b);
      var m :| 0 <= m < |b| && b[m] == a[j];
    }
  }
}

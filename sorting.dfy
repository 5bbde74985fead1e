/**
 * Kotlin's sortedWith / sortedBy / sortedByDescending: a stable sort by a
 * total preorder. It is written as an insertion sort that places each element
 * before the first later element it does not exceed, which keeps equal
 * elements in their original order.
 */
module Sorting {
  import opened Seqs

  /** `le` compares every pair and is transitive: what a Comparator must be. */
  ghost predicate TotalPreorder<T(!new)>(le: (T, T) -> bool)
  {
    && (forall a, b :: le(a, b) || le(b, a))
    && (forall a, b, c :: le(a, b) && le(b, c) ==> le(a, c))
  }

  /** Every element is `le` every later one. */
  ghost predicate SortedBy<T>(le: (T, T) -> bool, s: seq<T>)
  {
    forall i, j :: 0 <= i < j < |s| ==> le(s[i], s[j])
  }

  /** Filtering a sorted list leaves it sorted. */
  lemma {:induction false} FilterKeepsSorted<T>(le: (T, T) -> bool, p: T -> bool, s: seq<T>)
    requires SortedBy(le, s)
    ensures SortedBy(le, Filter(p, s))
  {
    if s != [] {
      var rest := Filter(p, s[1..]);
      FilterKeepsSorted(le, p, s[1..]);
      if p(s[0]) {
        forall j | 0 <= j < |rest|
          ensures le(s[0], rest[j])
        {
          var k :| 0 <= k < |s[1..]| && s[1..][k] == rest[j];
          assert s[k + 1] == rest[j];
        }
        var r := [s[0]] + rest;
        forall i, j | 0 <= i < j < |r|
          ensures le(r[i], r[j])
        {
          if i == 0 {
            assert r[j] == rest[j - 1];
          } else {
            assert r[i] == rest[i - 1] && r[j] == rest[j - 1];
          }
        }
      }
    }
  }

  function Insert<T>(le: (T, T) -> bool, x: T, s: seq<T>): seq<T>
  {
    if s == [] then [x]
    else if le(x, s[0]) then [x] + s
    else [s[0]] + Insert(le, x, s[1..])
  }

  /** The list sorted by `le`; equal elements keep their order. */
  function Sort<T>(le: (T, T) -> bool, s: seq<T>): seq<T>
  {
    if s == [] then [] else Insert(le, s[0], Sort(le, s[1..]))
  }

  lemma {:induction false} InsertPermutes<T>(le: (T, T) -> bool, x: T, s: seq<T>)
    ensures multiset(Insert(le, x, s)) == multiset(s) + multiset{x}
    ensures |Insert(le, x, s)| == |s| + 1
  {
    if s != [] && !le(x, s[0]) {
      InsertPermutes(le, x, s[1..]);
      assert s == [s[0]] + s[1..];
    }
  }

  lemma {:induction false} InsertSorted<T(!new)>(le: (T, T) -> bool, x: T, s: seq<T>)
    requires TotalPreorder(le) && SortedBy(le, s)
    ensures SortedBy(le, Insert(le, x, s))
  {
    if s == [] {
    } else if le(x, s[0]) {
      var r := [x] + s;
      forall i, j | 0 <= i < j < |r| ensures le(r[i], r[j]) {
        if i == 0 && j > 1 {
          assert le(s[0], s[j - 1]);
        }
      }
    } else {
      var t := Insert(le, x, s[1..]);
      InsertSorted(le, x, s[1..]);
      InsertPermutes(le, x, s[1..]);
      forall k | 0 <= k < |t| ensures le(s[0], t[k]) {
        assert t[k] in multiset(t);
        if t[k] != x {
          assert t[k] in multiset(s[1..]);
          var m :| 0 <= m < |s[1..]| && s[1..][m] == t[k];
          assert s[m + 1] == t[k];
        }
      }
      var r := [s[0]] + t;
      forall i, j | 0 <= i < j < |r| ensures le(r[i], r[j]) {
        if i > 0 {
          assert r[i] == t[i - 1] && r[j] == t[j - 1];
        }
      }
    }
  }

  /** Sorting returns a permutation of its input. */
  lemma {:induction false} SortPermutes<T>(le: (T, T) -> bool, s: seq<T>)
    ensures multiset(Sort(le, s)) == multiset(s)
    ensures |Sort(le, s)| == |s|
  {
    if s != [] {
      SortPermutes(le, s[1..]);
      InsertPermutes(le, s[0], Sort(le, s[1..]));
      assert s == [s[0]] + s[1..];
    }
  }

  /** Sorting by a total preorder returns a sorted list. */
  lemma {:induction false} SortSorts<T(!new)>(le: (T, T) -> bool, s: seq<T>)
    requires TotalPreorder(le)
    ensures SortedBy(le, Sort(le, s))
  {
    if s != [] {
      SortSorts(le, s[1..]);
      InsertSorted(le, s[0], Sort(le, s[1..]));
    }
  }

  /** The elements `le` ranks level with `e`: at most and at least `e`. */
  function LevelWith<T>(le: (T, T) -> bool, e: T): T -> bool
  {
    (y: T) => le(y, e) && le(e, y)
  }

  /** An element is placed before every element level with it, so among those it comes first. */
  lemma {:induction false} InsertStable<T(!new)>(le: (T, T) -> bool, x: T, s: seq<T>, e: T)
    requires TotalPreorder(le)
    ensures Filter(LevelWith(le, e), Insert(le, x, s)) ==
      (if LevelWith(le, e)(x) then [x] else []) + Filter(LevelWith(le, e), s)
  {
    var p := LevelWith(le, e);
    if s != [] && !le(x, s[0]) {
      InsertStable(le, x, s[1..], e);
      assert Insert(le, x, s) == [s[0]] + Insert(le, x, s[1..]);
      assert p(x) ==> !p(s[0]);
    } else if s != [] {
      assert Insert(le, x, s) == [x] + s;
      assert ([x] + s)[1..] == s;
    }
  }

  /**
   * The sort is stable: the elements level with any `e` appear in the output
   * in the same order as in the input.
   */
  lemma {:induction false} SortIsStable<T(!new)>(le: (T, T) -> bool, s: seq<T>, e: T)
    requires TotalPreorder(le)
    ensures Filter(LevelWith(le, e), Sort(le, s)) == Filter(LevelWith(le, e), s)
  {
    if s != [] {
      SortIsStable(le, s[1..], e);
      InsertStable(le, s[0], Sort(le, s[1..]), e);
    }
  }

  /** Sorting keeps every sum over the list. */
  lemma SortKeepsSum<T>(le: (T, T) -> bool, w: T -> real, s: seq<T>)
    ensures SumBy(w, Sort(le, s)) == SumBy(w, s)
  {
    SortPermutes(le, s);
    SumByPermutation(w, Sort(le, s), s);
  }

  /** The order used by sortedByDescending on an Int or Long key. */
  function DescendingInt<T>(key: T -> int): (le: (T, T) -> bool)
  {
    (a: T, b: T) => key(a) >= key(b)
  }

  lemma DescendingIntIsPreorder<T(!new)>(key: T -> int)
    ensures TotalPreorder(DescendingInt(key))
  {
  }

  /** The order used by sortedByDescending on a Double key. */
  function DescendingReal<T>(key: T -> real): (le: (T, T) -> bool)
  {
    (a: T, b: T) => key(a) >= key(b)
  }

  lemma DescendingRealIsPreorder<T(!new)>(key: T -> real)
    ensures TotalPreorder(DescendingReal(key))
  {
  }
}

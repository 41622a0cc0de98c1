/** A stable comparison sort, standing for `Array.prototype.sort` with a
    comparator: `before(a, b)` holds when the comparator does not place `b`
    strictly ahead of `a` (it returns a value <= 0). */
module Sorting {

  ghost predicate Total<T(!new)>(before: (T, T) -> bool) {
    forall a, b :: before(a, b) || before(b, a)
  }

  ghost predicate Transitive<T(!new)>(before: (T, T) -> bool) {
    forall a, b, c :: before(a, b) && before(b, c) ==> before(a, c)
  }

  /** A total preorder: the relation a consistent comparator induces. */
  ghost predicate TotalPreorder<T(!new)>(before: (T, T) -> bool) {
    Total(before) && Transitive(before)
  }

  predicate SortedBy<T>(s: seq<T>, before: (T, T) -> bool) {
    forall i, j :: 0 <= i < j < |s| ==> before(s[i], s[j])
  }

  /** Places `x` ahead of the first element it may precede. */
  function Insert<T>(x: T, s: seq<T>, before: (T, T) -> bool): (r: seq<T>)
    ensures |r| == |s| + 1
    ensures multiset(r) == multiset(s) + multiset{x}
  {
    if s == [] then [x]
    else if before(x, s[0]) then [x] + s
    else
      assert s == [s[0]] + s[1..];
      [s[0]] + Insert(x, s[1..], before)
  }

  /** Insertion sort from the back: the input order is kept among elements
      the comparator calls equal. */
  function SortBy<T>(s: seq<T>, before: (T, T) -> bool): (r: seq<T>)
    ensures |r| == |s|
    ensures multiset(r) == multiset(s)
  {
    if s == [] then []
    else
      assert s == [s[0]] + s[1..];
      Insert(s[0], SortBy(s[1..], before), before)
  }

  /** Putting `y` ahead of a sorted list that it may precede everywhere keeps it sorted. */
  lemma PrependSorted<T>(y: T, s: seq<T>, before: (T, T) -> bool)
    requires SortedBy(s, before)
    requires forall k :: 0 <= k < |s| ==> before(y, s[k])
    ensures SortedBy([y] + s, before)
  {
    var r := [y] + s;
    forall i, j | 0 <= i < j < |r| ensures before(r[i], r[j]) {
      if i == 0 {
        assert r[j] == s[j - 1];
      } else {
        assert r[i] == s[i - 1] && r[j] == s[j - 1];
      }
    }
  }

  /** What `y` may precede it may still precede once `x` is inserted, if it may precede `x`. */
  lemma InsertKeepsLowerBound<T>(y: T, x: T, s: seq<T>, before: (T, T) -> bool)
    requires before(y, x)
    requires forall k :: 0 <= k < |s| ==> before(y, s[k])
    ensures forall k :: 0 <= k < |Insert(x, s, before)| ==> before(y, Insert(x, s, before)[k])
  {
    var r := Insert(x, s, before);
    forall k | 0 <= k < |r| ensures before(y, r[k]) {
      assert r[k] in multiset(r);
      if r[k] != x {
        assert r[k] in multiset(s);
        var m :| 0 <= m < |s| && s[m] == r[k];
      }
    }
  }

  lemma {:induction false} InsertSorted<T(!new)>(x: T, s: seq<T>, before: (T, T) -> bool)
    requires TotalPreorder(before)
    requires SortedBy(s, before)
    ensures SortedBy(Insert(x, s, before), before)
  {
    if s == [] {
    } else if before(x, s[0]) {
      forall k | 0 <= k < |s| ensures before(x, s[k]) {
        if k > 0 { assert before(s[0], s[k]); }
      }
      PrependSorted(x, s, before);
    } else {
      var t := s[1..];
      assert SortedBy(t, before) by {
        forall i, j | 0 <= i < j < |t| ensures before(t[i], t[j]) {
          assert t[i] == s[i + 1] && t[j] == s[j + 1];
        }
      }
      InsertSorted(x, t, before);
      assert before(s[0], x);
      forall k | 0 <= k < |t| ensures before(s[0], t[k]) {
        assert t[k] == s[k + 1];
      }
      InsertKeepsLowerBound(s[0], x, t, before);
      PrependSorted(s[0], Insert(x, t, before), before);
    }
  }

  /** For a consistent comparator the sort returns an ordered permutation. */
  lemma {:induction false} SortBySorted<T(!new)>(s: seq<T>, before: (T, T) -> bool)
    requires TotalPreorder(before)
    ensures SortedBy(SortBy(s, before), before)
    ensures multiset(SortBy(s, before)) == multiset(s)
  {
    if s != [] {
      SortBySorted(s[1..], before);
      InsertSorted(s[0], SortBy(s[1..], before), before);
    }
  }
}

/**
 * Stable sorting, as Rust's `slice::sort_by` and `sort_by_key` do it: the
 * result is ordered, is a permutation of the input, and elements the
 * order considers equal keep their original relative order. Two callers
 * use it: the skin builder orders parts by `z`, and the file picker orders
 * its entries directories first, then by lowercase name.
 */
module Sorting {

  /** `le` is total and transitive, as a comparator's `Less`/`Equal` must be. */
  ghost predicate TotalPreorder<T(!new)>(le: (T, T) -> bool) {
    (forall a, b :: le(a, b) || le(b, a)) &&
    (forall a, b, c :: le(a, b) && le(b, c) ==> le(a, c))
  }

  /** Each element is `le` every later one. */
  ghost predicate Sorted<T>(le: (T, T) -> bool, s: seq<T>) {
    forall i, j :: 0 <= i < j < |s| ==> le(s[i], s[j])
  }

  /** The order considers `a` and `b` equal. */
  predicate Same<T>(le: (T, T) -> bool, a: T, b: T) {
    le(a, b) && le(b, a)
  }

  /** The elements of `s` the order considers equal to `x`, in their order in `s`. */
  function SameAs<T>(le: (T, T) -> bool, s: seq<T>, x: T): (r: seq<T>)
    ensures |r| <= |s|
  {
    if s == [] then []
    else (if Same(le, s[0], x) then [s[0]] else []) + SameAs(le, s[1..], x)
  }

  /** `x` placed after every element of `t` that is `le` it: stable insertion. */
  function Insert<T>(le: (T, T) -> bool, t: seq<T>, x: T): (r: seq<T>)
    ensures multiset(r) == multiset(t) + multiset{x}
    ensures |r| == |t| + 1
  {
    if t == [] then [x]
    else if le(t[0], x) then
      assert t == [t[0]] + t[1..];
      [t[0]] + Insert(le, t[1..], x)
    else [x] + t
  }

  /** Stable insertion sort: the last element is inserted into the sorted rest. */
  function SortBy<T>(le: (T, T) -> bool, s: seq<T>): (r: seq<T>)
    ensures multiset(r) == multiset(s)
    ensures |r| == |s|
  {
    if s == [] then []
    else
      assert s == s[..|s| - 1] + [s[|s| - 1]];
      Insert(le, SortBy(le, s[..|s| - 1]), s[|s| - 1])
  }

  /** Inserting into a sorted sequence keeps it sorted. */
  lemma {:induction false} InsertSorted<T(!new)>(le: (T, T) -> bool, t: seq<T>, x: T)
    requires TotalPreorder(le) && Sorted(le, t)
    ensures Sorted(le, Insert(le, t, x))
    decreases |t|
  {
    if t != [] && le(t[0], x) {
      InsertSorted(le, t[1..], x);
      var r := Insert(le, t[1..], x);
      assert multiset(r) == multiset(t[1..]) + multiset{x};
      forall j | 0 <= j < |r|
        ensures le(t[0], r[j])
      {
        assert r[j] in multiset(r);
        if r[j] != x {
          assert r[j] in multiset(t[1..]);
          var k :| 0 <= k < |t[1..]| && t[1..][k] == r[j];
          assert t[k + 1] == r[j];
        }
      }
    } else if t != [] {
      forall j | 0 <= j < |t|
        ensures le(x, t[j])
      {
        assert le(t[0], t[j]) || j == 0;
      }
    }
  }

  /** The result of `SortBy` is ordered. */
  lemma {:induction false} SortBySorted<T(!new)>(le: (T, T) -> bool, s: seq<T>)
    requires TotalPreorder(le)
    ensures Sorted(le, SortBy(le, s))
    decreases |s|
  {
    if s != [] {
      SortBySorted(le, s[..|s| - 1]);
      InsertSorted(le, SortBy(le, s[..|s| - 1]), s[|s| - 1]);
    }
  }

  lemma {:induction false} SameAsAppend<T>(le: (T, T) -> bool, a: seq<T>, b: seq<T>, x: T)
    ensures SameAs(le, a + b, x) == SameAs(le, a, x) + SameAs(le, b, x)
    decreases |a|
  {
    if a != [] {
      assert (a + b)[1..] == a[1..] + b;
      SameAsAppend(le, a[1..], b, x);
    } else {
      assert a + b == b;
    }
  }

  /** In a sorted `t`, nothing after an element strictly above `x` is equal to `x`. */
  lemma {:induction false} NoneSameAbove<T(!new)>(le: (T, T) -> bool, t: seq<T>, x: T, y: T)
    requires TotalPreorder(le) && Sorted(le, t) && t != [] && !le(t[0], x) && Same(le, x, y)
    ensures SameAs(le, t, y) == []
    decreases |t|
  {
    assert !Same(le, t[0], y);
    if |t| > 1 {
      assert le(t[0], t[1]);
      assert !le(t[1], x);
      assert Sorted(le, t[1..]) by {
        forall i, j | 0 <= i < j < |t[1..]|
          ensures le(t[1..][i], t[1..][j])
        {
          assert t[1..][i] == t[i + 1] && t[1..][j] == t[j + 1];
        }
      }
      NoneSameAbove(le, t[1..], x, y);
    }
  }

  /** Dropping the head of a sorted sequence leaves it sorted. */
  lemma {:induction false} SortedTail<T>(le: (T, T) -> bool, t: seq<T>)
    requires Sorted(le, t) && t != []
    ensures Sorted(le, t[1..])
  {
    forall i, j | 0 <= i < j < |t[1..]|
      ensures le(t[1..][i], t[1..][j])
    {
      assert t[1..][i] == t[i + 1] && t[1..][j] == t[j + 1];
    }
  }

  /** Insertion past the head: the head's contribution comes first. */
  lemma {:induction false} InsertStableCons<T>(le: (T, T) -> bool, t: seq<T>, x: T, y: T)
    requires t != [] && le(t[0], x)
    requires SameAs(le, Insert(le, t[1..], x), y) == SameAs(le, t[1..], y) + (if Same(le, x, y) then [x] else [])
    ensures SameAs(le, Insert(le, t, x), y) == SameAs(le, t, y) + (if Same(le, x, y) then [x] else [])
  {
    assert Insert(le, t, x) == [t[0]] + Insert(le, t[1..], x);
    assert [t[0]] + t[1..] == t;
    ConsSame(le, t[0], Insert(le, t[1..], x), t[1..], y, if Same(le, x, y) then [x] else []);
  }

  /** Putting the same element in front of two sequences keeps a relation between their classes. */
  lemma {:induction false} ConsSame<T>(le: (T, T) -> bool, h: T, a: seq<T>, b: seq<T>, y: T, extra: seq<T>)
    requires SameAs(le, a, y) == SameAs(le, b, y) + extra
    ensures SameAs(le, [h] + a, y) == SameAs(le, [h] + b, y) + extra
  {
    SameAsAppend(le, [h], a, y);
    SameAsAppend(le, [h], b, y);
  }

  /** Insertion at the front, when nothing in `t` is equal to `x`'s class member `y` or `x` is not. */
  lemma {:induction false} InsertStableFront<T>(le: (T, T) -> bool, t: seq<T>, x: T, y: T)
    requires t != [] && !le(t[0], x)
    requires Same(le, x, y) ==> SameAs(le, t, y) == []
    ensures SameAs(le, Insert(le, t, x), y) == SameAs(le, t, y) + (if Same(le, x, y) then [x] else [])
  {
    assert Insert(le, t, x) == [x] + t;
    SameAsAppend(le, [x], t, y);
  }

  /** Inserting `x` adds it after every element equal to it: their order is kept. */
  lemma {:induction false} InsertStable<T(!new)>(le: (T, T) -> bool, t: seq<T>, x: T, y: T)
    requires TotalPreorder(le) && Sorted(le, t)
    ensures SameAs(le, Insert(le, t, x), y) == SameAs(le, t, y) + (if Same(le, x, y) then [x] else [])
    decreases |t|
  {
    if t == [] {
    } else if le(t[0], x) {
      SortedTail(le, t);
      InsertStable(le, t[1..], x, y);
      InsertStableCons(le, t, x, y);
    } else {
      if Same(le, x, y) {
        NoneSameAbove(le, t, x, y);
      }
      InsertStableFront(le, t, x, y);
    }
  }

  /** Elements the order considers equal appear in the result in their original order. */
  lemma {:induction false} SortByStable<T(!new)>(le: (T, T) -> bool, s: seq<T>, y: T)
    requires TotalPreorder(le)
    ensures SameAs(le, SortBy(le, s), y) == SameAs(le, s, y)
    decreases |s|
  {
    if s != [] {
      var init := s[..|s| - 1];
      var last := s[|s| - 1];
      var sortedInit := SortBy(le, init);
      assert SortBy(le, s) == Insert(le, sortedInit, last);
      SortByStable(le, init, y);
      SortBySorted(le, init);
      InsertStable(le, sortedInit, last, y);
      SameAsLast(le, s, y);
    }
  }

  lemma {:induction false} SameAsLast<T>(le: (T, T) -> bool, s: seq<T>, y: T)
    requires s != []
    ensures SameAs(le, s, y) == SameAs(le, s[..|s| - 1], y) + SameAs(le, [s[|s| - 1]], y)
  {
    assert s[..|s| - 1] + [s[|s| - 1]] == s;
    SameAsAppend(le, s[..|s| - 1], [s[|s| - 1]], y);
  }
}

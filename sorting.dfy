/**
 * `Array.prototype.sort` with a comparator. The language requires the sort
 * to be stable (ECMAScript 2019 onwards); when the comparator is a
 * consistent comparison (its sign antisymmetric and its order transitive)
 * every stable sort yields the same order. The sort is modelled as a stable
 * insertion sort: each element is placed after every earlier element it
 * does not compare below. The lemmas here assume only the sign condition
 * `Consistent` and prove the result sorted and a permutation; they do not
 * claim that it is the only such order.
 */
module Sorting {

  /** `cmp(a, b) > 0` (b goes first) never holds together with `cmp(b, a) > 0`. */
  ghost predicate Consistent<T(!new)>(cmp: (T, T) -> int) {
    forall a, b :: cmp(a, b) > 0 ==> cmp(b, a) <= 0
  }

  /** Every element compares at most equal to its successor. */
  ghost predicate Sorted<T>(cmp: (T, T) -> int, s: seq<T>) {
    forall i :: 0 < i < |s| ==> cmp(s[i - 1], s[i]) <= 0
  }

  /** Places `x` after every leading element of `s` that does not compare above it. */
  function Insert<T>(cmp: (T, T) -> int, x: T, s: seq<T>): (r: seq<T>)
    ensures |r| == |s| + 1
  {
    if s == [] then [x]
    else if cmp(s[0], x) > 0 then [x] + s
    else [s[0]] + Insert(cmp, x, s[1..])
  }

  /** `s.sort(cmp)`: insert the elements one by one, from the first to the last. */
  function SortBy<T>(cmp: (T, T) -> int, s: seq<T>): (r: seq<T>)
    ensures |r| == |s|
  {
    if s == [] then [] else Insert(cmp, s[|s| - 1], SortBy(cmp, s[..|s| - 1]))
  }

  lemma InsertFirst<T>(cmp: (T, T) -> int, x: T, s: seq<T>)
    ensures Insert(cmp, x, s)[0] == x || (s != [] && Insert(cmp, x, s)[0] == s[0])
  {
  }

  lemma {:induction false} InsertMultiset<T>(cmp: (T, T) -> int, x: T, s: seq<T>)
    ensures multiset(Insert(cmp, x, s)) == multiset(s) + multiset{x}
    decreases |s|
  {
    if s != [] {
      assert s == [s[0]] + s[1..];
      if cmp(s[0], x) <= 0 {
        InsertMultiset(cmp, x, s[1..]);
      }
    }
  }

  lemma SortedTail<T>(cmp: (T, T) -> int, s: seq<T>)
    requires s != [] && Sorted(cmp, s)
    ensures Sorted(cmp, s[1..])
  {
    forall i | 0 < i < |s[1..]| ensures cmp(s[1..][i - 1], s[1..][i]) <= 0 {
      assert s[1..][i - 1] == s[i] && s[1..][i] == s[i + 1];
    }
  }

  lemma {:induction false} InsertSorted<T(!new)>(cmp: (T, T) -> int, x: T, s: seq<T>)
    requires Consistent(cmp) && Sorted(cmp, s)
    ensures Sorted(cmp, Insert(cmp, x, s))
    decreases |s|
  {
    if s != [] {
      if cmp(s[0], x) <= 0 {
        SortedTail(cmp, s);
        InsertSorted(cmp, x, s[1..]);
        InsertFirst(cmp, x, s[1..]);
        var rest := Insert(cmp, x, s[1..]);
        var r := [s[0]] + rest;
        assert Insert(cmp, x, s) == r;
        forall i | 0 < i < |r| ensures cmp(r[i - 1], r[i]) <= 0 {
          if i == 1 {
            assert rest[0] == x || rest[0] == s[1];
          } else {
            assert r[i - 1] == rest[i - 2] && r[i] == rest[i - 1];
          }
        }
      } else {
        assert cmp(x, s[0]) <= 0;
        var r := [x] + s;
        assert Insert(cmp, x, s) == r;
        forall i | 0 < i < |r| ensures cmp(r[i - 1], r[i]) <= 0 {
          if i > 1 {
            assert r[i - 1] == s[i - 2] && r[i] == s[i - 1];
          }
        }
      }
    }
  }

  /** The sort returns its input ordered by `cmp` and with the same elements. */
  lemma {:induction false} SortBySorted<T(!new)>(cmp: (T, T) -> int, s: seq<T>)
    requires Consistent(cmp)
    ensures Sorted(cmp, SortBy(cmp, s))
    ensures multiset(SortBy(cmp, s)) == multiset(s)
    decreases |s|
  {
    if s != [] {
      var init := s[..|s| - 1];
      SortBySorted(cmp, init);
      InsertSorted(cmp, s[|s| - 1], SortBy(cmp, init));
      InsertMultiset(cmp, s[|s| - 1], SortBy(cmp, init));
      assert s == init + [s[|s| - 1]];
    }
  }

  /** With a comparator that ranks nothing apart (`return 0`), the sort keeps the input order. */
  lemma {:induction false} SortByEqualKeepsOrder<T>(cmp: (T, T) -> int, s: seq<T>)
    requires forall i, j :: 0 <= i < |s| && 0 <= j < |s| ==> cmp(s[i], s[j]) == 0
    ensures SortBy(cmp, s) == s
    decreases |s|
  {
    if s != [] {
      var init := s[..|s| - 1];
      SortByEqualKeepsOrder(cmp, init);
      InsertAtEnd(cmp, s[|s| - 1], init);
      assert s == init + [s[|s| - 1]];
    }
  }

  lemma {:induction false} InsertAtEnd<T>(cmp: (T, T) -> int, x: T, s: seq<T>)
    requires forall i :: 0 <= i < |s| ==> cmp(s[i], x) <= 0
    ensures Insert(cmp, x, s) == s + [x]
    decreases |s|
  {
    if s != [] {
      assert s[0] == s[0];
      InsertAtEnd(cmp, x, s[1..]);
      assert s == [s[0]] + s[1..];
    }
  }

  /** A sequence whose neighbours are ordered by an integer key is ordered by it throughout. */
  lemma {:induction false} KeyOrderedThroughout<T>(key: T -> int, s: seq<T>)
    requires forall i :: 0 < i < |s| ==> key(s[i - 1]) <= key(s[i])
    ensures forall i, j :: 0 <= i <= j < |s| ==> key(s[i]) <= key(s[j])
    decreases |s|
  {
    if s != [] {
      var init := s[..|s| - 1];
      KeyOrderedThroughout(key, init);
      forall i, j | 0 <= i <= j < |s| ensures key(s[i]) <= key(s[j]) {
        if j == |s| - 1 && i < j {
          assert key(init[i]) <= key(init[|init| - 1]);
        } else if i < j {
          assert key(init[i]) <= key(init[j]);
        }
      }
    }
  }
}

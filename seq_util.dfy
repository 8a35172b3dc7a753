/**
 * Sequence operations of the JavaScript standard library that the store and
 * the pages use: `filter`, `findIndex`, `find`, `reduce` to a sum, `slice`.
 */
module SeqUtil {
  import opened Wrappers

  /** `s.filter(f)`: the elements satisfying `f`, in their original order. */
  function Filter<T>(f: T -> bool, s: seq<T>): (r: seq<T>)
    ensures |r| <= |s|
  {
    if s == [] then [] else (if f(s[0]) then [s[0]] else []) + Filter(f, s[1..])
  }

  /** The filter keeps exactly the elements that satisfy the predicate. */
  lemma {:induction false} FilterMembers<T>(f: T -> bool, s: seq<T>)
    ensures forall x :: x in Filter(f, s) ==> x in s && f(x)
    ensures forall x :: x in s && f(x) ==> x in Filter(f, s)
    decreases |s|
  {
    if s != [] {
      FilterMembers(f, s[1..]);
      assert s == [s[0]] + s[1..];
    }
  }

  /** `r` can be obtained from `s` by deleting elements (order is kept). */
  ghost predicate IsSubsequence<T>(r: seq<T>, s: seq<T>)
    decreases |s|
  {
    r == [] || (s != [] && ((r[0] == s[0] && IsSubsequence(r[1..], s[1..])) || IsSubsequence(r, s[1..])))
  }

  lemma {:induction false} FilterIsSubsequence<T>(f: T -> bool, s: seq<T>)
    ensures IsSubsequence(Filter(f, s), s)
    decreases |s|
  {
    if s != [] {
      FilterIsSubsequence(f, s[1..]);
      var r := Filter(f, s);
      if f(s[0]) {
        assert r[0] == s[0] && r[1..] == Filter(f, s[1..]);
      } else {
        assert r == Filter(f, s[1..]);
        if r != [] {
          assert IsSubsequence(r, s[1..]);
        }
      }
    }
  }

  /** A prefix is a subsequence. */
  lemma {:induction false} PrefixIsSubsequence<T>(r: seq<T>, s: seq<T>)
    requires r <= s
    ensures IsSubsequence(r, s)
    decreases |s|
  {
    if r != [] {
      assert r[0] == s[0];
      PrefixIsSubsequence(r[1..], s[1..]);
    }
  }

  /** A subsequence of a subsequence is a subsequence. */
  lemma {:induction false} SubsequenceTrans<T>(a: seq<T>, b: seq<T>, c: seq<T>)
    requires IsSubsequence(a, b) && IsSubsequence(b, c)
    ensures IsSubsequence(a, c)
    decreases |c|
  {
    if a != [] {
      assert b != [] && c != [];
      if b[0] == c[0] && IsSubsequence(b[1..], c[1..]) {
        if a[0] == b[0] && IsSubsequence(a[1..], b[1..]) {
          SubsequenceTrans(a[1..], b[1..], c[1..]);
        } else {
          SubsequenceTrans(a, b[1..], c[1..]);
        }
      } else {
        SubsequenceTrans(a, b, c[1..]);
      }
    }
  }

  /** Filtering twice with the same predicate changes nothing the second time. */
  lemma {:induction false} FilterIdempotent<T>(f: T -> bool, s: seq<T>)
    ensures Filter(f, Filter(f, s)) == Filter(f, s)
  {
    var r := Filter(f, s);
    FilterMembers(f, s);
    forall i | 0 <= i < |r| ensures f(r[i]) {
      assert r[i] in r;
    }
    FilterKeepsAll(f, r);
  }

  /** Two filter passes in a row equal one pass with the conjunction. */
  lemma {:induction false} FilterFilter<T>(f: T -> bool, g: T -> bool, h: T -> bool, s: seq<T>)
    requires forall x :: h(x) == (f(x) && g(x))
    ensures Filter(g, Filter(f, s)) == Filter(h, s)
    decreases |s|
  {
    if s != [] {
      FilterFilter(f, g, h, s[1..]);
      var r := Filter(f, s);
      assert h(s[0]) == (f(s[0]) && g(s[0]));
      if f(s[0]) {
        assert r[0] == s[0] && r[1..] == Filter(f, s[1..]);
        assert Filter(g, r) == (if g(s[0]) then [s[0]] else []) + Filter(g, r[1..]);
      } else {
        assert r == Filter(f, s[1..]);
      }
    }
  }

  /** Filtering with a predicate that agrees with `g` on every element gives the same result. */
  lemma {:induction false} FilterCongruent<T>(f: T -> bool, g: T -> bool, s: seq<T>)
    requires forall i :: 0 <= i < |s| ==> f(s[i]) == g(s[i])
    ensures Filter(f, s) == Filter(g, s)
    decreases |s|
  {
    if s != [] {
      FilterCongruent(f, g, s[1..]);
    }
  }

  /** The filter keeps every element exactly when its length does not shrink. */
  lemma {:induction false} FilterKeepsAll<T>(f: T -> bool, s: seq<T>)
    ensures |Filter(f, s)| == |s| <==> forall i :: 0 <= i < |s| ==> f(s[i])
    ensures (forall i :: 0 <= i < |s| ==> f(s[i])) ==> Filter(f, s) == s
    decreases |s|
  {
    if s != [] {
      FilterKeepsAll(f, s[1..]);
      if !f(s[0]) {
        assert |Filter(f, s)| == |Filter(f, s[1..])| <= |s[1..]| < |s|;
      } else {
        assert forall i :: 1 <= i < |s| ==> s[i] == s[1..][i - 1];
      }
    }
  }

  /** A predicate no element satisfies filters everything out. */
  lemma {:induction false} FilterNone<T>(f: T -> bool, s: seq<T>)
    requires forall i :: 0 <= i < |s| ==> !f(s[i])
    ensures Filter(f, s) == []
    decreases |s|
  {
    if s != [] {
      FilterNone(f, s[1..]);
    }
  }

  /** Filtering distributes over concatenation. */
  lemma {:induction false} FilterAppend<T>(f: T -> bool, a: seq<T>, b: seq<T>)
    ensures Filter(f, a + b) == Filter(f, a) + Filter(f, b)
    decreases |a|
  {
    if a == [] {
      assert a + b == b;
    } else {
      var head := if f(a[0]) then [a[0]] else [];
      assert (a + b)[0] == a[0] && (a + b)[1..] == a[1..] + b;
      assert Filter(f, a + b) == head + Filter(f, a[1..] + b);
      FilterAppend(f, a[1..], b);
      assert Filter(f, a) == head + Filter(f, a[1..]);
    }
  }

  /** Keys are pairwise distinct. */
  ghost predicate UniqueBy<T>(key: T -> int, s: seq<T>) {
    forall i, j :: 0 <= i < j < |s| ==> key(s[i]) != key(s[j])
  }

  /** Filtering cannot create a duplicate key. */
  lemma {:induction false} FilterKeepsUnique<T>(key: T -> int, f: T -> bool, s: seq<T>)
    requires UniqueBy(key, s)
    ensures UniqueBy(key, Filter(f, s))
    decreases |s|
  {
    if s != [] {
      assert UniqueBy(key, s[1..]) by {
        forall i, j | 0 <= i < j < |s[1..]| ensures key(s[1..][i]) != key(s[1..][j]) {
          assert s[1..][i] == s[i + 1] && s[1..][j] == s[j + 1];
        }
      }
      FilterKeepsUnique(key, f, s[1..]);
      FilterMembers(f, s[1..]);
      var rest := Filter(f, s[1..]);
      if f(s[0]) {
        var r := Filter(f, s);
        assert r == [s[0]] + rest;
        forall j | 0 < j < |r| ensures key(r[0]) != key(r[j]) {
          assert r[j] == rest[j - 1] && r[j] in s[1..];
          var k :| 0 <= k < |s[1..]| && s[1..][k] == r[j];
          assert s[k + 1] == r[j];
        }
      }
    }
  }

  /** `s.findIndex(f)`: the first index whose element satisfies `f`, or `None` for -1. */
  function FirstIndex<T>(f: T -> bool, s: seq<T>): (r: Option<nat>)
    ensures r.Some? ==> r.value < |s| && f(s[r.value]) && forall j :: 0 <= j < r.value ==> !f(s[j])
    ensures r.None? ==> forall j :: 0 <= j < |s| ==> !f(s[j])
    decreases |s|
  {
    if s == [] then None
    else if f(s[0]) then Some(0)
    else match FirstIndex(f, s[1..])
      case None => None
      case Some(k) => Some(k + 1)
  }

  /** `s.find(f)`: the first element satisfying `f`. */
  function Find<T>(f: T -> bool, s: seq<T>): (r: Option<T>)
    ensures r.Some? <==> exists i :: 0 <= i < |s| && f(s[i])
    ensures r.Some? ==> f(r.value) && r.value in s
  {
    match FirstIndex(f, s)
    case None => None
    case Some(i) => Some(s[i])
  }

  /** `s.map(f)`. */
  function Map<T, U>(f: T -> U, s: seq<T>): (r: seq<U>)
    ensures |r| == |s| && forall i :: 0 <= i < |s| ==> r[i] == f(s[i])
  {
    seq(|s|, i requires 0 <= i < |s| => f(s[i]))
  }

  lemma MapAppend<T, U>(f: T -> U, a: seq<T>, b: seq<T>)
    ensures Map(f, a + b) == Map(f, a) + Map(f, b)
  {
  }

  /** `s.reduce((a, x) => a + x, 0)`, accumulated from the left. */
  function Sum(s: seq<int>): int
  {
    if s == [] then 0 else Sum(s[..|s| - 1]) + s[|s| - 1]
  }

  lemma {:induction false} SumAppend(a: seq<int>, b: seq<int>)
    ensures Sum(a + b) == Sum(a) + Sum(b)
    decreases |b|
  {
    if b == [] {
      assert a + b == a;
    } else {
      assert (a + b)[..|a + b| - 1] == a + b[..|b| - 1];
      SumAppend(a, b[..|b| - 1]);
    }
  }

  /** The sum read from the front: first element plus the sum of the rest. */
  lemma SumCons(s: seq<int>)
    requires s != []
    ensures Sum(s) == s[0] + Sum(s[1..])
  {
    assert s == [s[0]] + s[1..];
    SumAppend([s[0]], s[1..]);
    assert [s[0]][..0] == [];
  }

  /** Replacing one element changes the sum by the difference. */
  lemma {:induction false} SumUpdate(s: seq<int>, i: nat, v: int)
    requires i < |s|
    ensures Sum(s[i := v]) == Sum(s) - s[i] + v
  {
    assert s == s[..i] + [s[i]] + s[i + 1..];
    assert s[i := v] == s[..i] + [v] + s[i + 1..];
    SumAppend(s[..i] + [s[i]], s[i + 1..]);
    SumAppend(s[..i] + [v], s[i + 1..]);
    SumAppend(s[..i], [s[i]]);
    SumAppend(s[..i], [v]);
    assert Sum([v]) == v by { assert [v][..0] == []; }
    assert Sum([s[i]]) == s[i] by { assert [s[i]][..0] == []; }
  }

  /**
   * The index `Array.prototype.slice` resolves for a relative position `k`
   * on a sequence of length `n`: negative positions count from the end,
   * and the result is clamped into [0, n]. `None` stands for `NaN`, which
   * slice treats as 0.
   */
  function SliceIndex(k: Option<int>, n: nat): (r: nat)
    ensures r <= n
    ensures k.Some? && 0 <= k.value <= n ==> r == k.value
    ensures k.None? ==> r == 0
  {
    match k
    case None => 0
    case Some(v) =>
      if v < 0 then (if n + v < 0 then 0 else n + v)
      else if v > n then n else v
  }

  /** `s.slice(start, end)` with JavaScript's index resolution. */
  function JsSlice<T>(s: seq<T>, start: Option<int>, end: Option<int>): (r: seq<T>)
    ensures |r| <= |s|
  {
    var a := SliceIndex(start, |s|);
    var b := SliceIndex(end, |s|);
    if a < b then s[a..b] else []
  }

  /** For a non-negative start and length, slice is the plain window, cut at the end of `s`. */
  lemma JsSliceWindow<T>(s: seq<T>, start: nat, len: nat)
    ensures start >= |s| ==> JsSlice(s, Some(start), Some(start + len)) == []
    ensures start < |s| ==> JsSlice(s, Some(start), Some(start + len))
                            == s[start..if start + len <= |s| then start + len else |s|]
    ensures |JsSlice(s, Some(start), Some(start + len))| <= len
  {
  }

  /** Element `k` of a slice from a non-negative start is element `start + k` of `s`. */
  lemma JsSliceAt<T>(s: seq<T>, start: nat, len: nat, k: int)
    requires 0 <= k < |JsSlice(s, Some(start), Some(start + len))|
    ensures start + k < |s| && JsSlice(s, Some(start), Some(start + len))[k] == s[start + k]
  {
    JsSliceWindow(s, start, len);
  }

  /** A slice holds only elements of the sequence. */
  lemma JsSliceMembers<T>(s: seq<T>, start: Option<int>, end: Option<int>)
    ensures forall x :: x in JsSlice(s, start, end) ==> x in s
  {
    var a := SliceIndex(start, |s|);
    var b := SliceIndex(end, |s|);
    if a < b {
      forall x | x in s[a..b] ensures x in s {
        var i :| 0 <= i < b - a && s[a..b][i] == x;
        assert s[a + i] == x;
      }
    }
  }

  /** `s.slice(0, n)` for n >= 0: the first min(n, |s|) elements. */
  function Take<T>(s: seq<T>, n: nat): (r: seq<T>)
    ensures |r| == if n <= |s| then n else |s|
    ensures r <= s
  {
    JsSlice(s, Some(0), Some(n))
  }
}

/**
 * The page arithmetic the list routes share: `Math.ceil(total / limit)`,
 * `offset = (page - 1) * limit` and `slice(offset, offset + limit)`, with
 * page and limit as parsed by `Number.parseInt` (`None` is `NaN`).
 */
module Pagination {
  import opened Wrappers
  import opened SeqUtil

  /** A page count as JavaScript computes it: finite, `Infinity` (limit 0) or `NaN`. */
  datatype PageCount = Finite(n: int) | Infinity | NotANumber

  /** `Math.ceil(a / b)` for a non-zero divisor. */
  function CeilDiv(a: nat, b: int): int
    requires b != 0
  {
    if b > 0 then (a + b - 1) / b else -(a / -b)
  }

  /** `Math.ceil(total / limit)`. */
  function TotalPages(total: nat, limit: Option<int>): PageCount {
    match limit
    case None => NotANumber
    case Some(l) =>
      if l == 0 then (if total == 0 then NotANumber else Infinity)
      else Finite(CeilDiv(total, l))
  }

  /** `(page - 1) * limit`. */
  function Offset(page: Option<int>, limit: Option<int>): Option<int> {
    if page.Some? && limit.Some? then Some((page.value - 1) * limit.value) else None
  }

  /** `items.slice(offset, offset + limit)`. */
  function Window<T>(items: seq<T>, page: Option<int>, limit: Option<int>): seq<T> {
    var offset := Offset(page, limit);
    var end := if offset.Some? && limit.Some? then Some(offset.value + limit.value) else None;
    JsSlice(items, offset, end)
  }

  /** `page < totalPages`, false when either side is `NaN`. */
  function HasNext(page: Option<int>, totalPages: PageCount): bool {
    page.Some? && match totalPages
      case Finite(n) => page.value < n
      case Infinity => true
      case NotANumber => false
  }

  /** `page > 1`, false for `NaN`. */
  function HasPrev(page: Option<int>): bool {
    page.Some? && page.value > 1
  }

  /** Multiplying by a non-negative factor keeps the order. */
  lemma MulMonotone(a: int, b: int, c: int)
    requires a <= b && c >= 0
    ensures a * c <= b * c
  {
    assert b * c - a * c == (b - a) * c;
  }

  /** For a positive limit the page count is the least number of pages that holds every item. */
  lemma TotalPagesCeiling(total: nat, limit: int)
    requires limit >= 1
    ensures TotalPages(total, Some(limit)).Finite?
    ensures var n := TotalPages(total, Some(limit)).n;
      n >= 0 && n * limit >= total && (n == 0 || (n - 1) * limit < total)
  {
    var m := total + limit - 1;
    var n := m / limit;
    assert n * limit + m % limit == m;
    assert 0 <= m % limit < limit;
    assert n >= 0;
    assert TotalPages(total, Some(limit)) == Finite(n);
    assert (n - 1) * limit == n * limit - limit;
  }

  /**
   * For page >= 1 and limit >= 1 the window is the run of items starting at
   * (page - 1) * limit, at most `limit` long and empty past the last item.
   */
  lemma WindowContents<T>(items: seq<T>, page: int, limit: int)
    requires page >= 1 && limit >= 1
    ensures var start := (page - 1) * limit;
      && |Window(items, Some(page), Some(limit))| <= limit
      && (start >= |items| ==> Window(items, Some(page), Some(limit)) == [])
      && (start < |items| ==>
            Window(items, Some(page), Some(limit))
              == items[start..if start + limit <= |items| then start + limit else |items|])
  {
    WindowIsSlice(items, page, limit);
    var start: nat := (page - 1) * limit;
    JsSliceWindow(items, start, limit);
  }

  /** For page >= 1 the window is the slice from the non-negative offset (page - 1) * limit. */
  lemma WindowIsSlice<T>(items: seq<T>, page: int, limit: int)
    requires page >= 1 && limit >= 1
    ensures (page - 1) * limit >= 0
    ensures Window(items, Some(page), Some(limit)) == JsSlice(items, Some((page - 1) * limit), Some((page - 1) * limit + limit))
  {
    MulMonotone(0, page - 1, limit);
  }

  /** Item `k` of the window is item `(page - 1) * limit + k` of the list. */
  lemma WindowAt<T>(items: seq<T>, page: int, limit: int, k: int)
    requires page >= 1 && limit >= 1
    requires 0 <= k < |Window(items, Some(page), Some(limit))|
    ensures (page - 1) * limit + k < |items|
    ensures Window(items, Some(page), Some(limit))[k] == items[(page - 1) * limit + k]
  {
    WindowIsSlice(items, page, limit);
    var start: nat := (page - 1) * limit;
    JsSliceAt(items, start, limit, k);
  }

  /** Whatever the page and limit, the window holds only items of the list. */
  lemma WindowMembers<T>(items: seq<T>, page: Option<int>, limit: Option<int>)
    ensures forall x :: x in Window(items, page, limit) ==> x in items
  {
    var offset := Offset(page, limit);
    var end := if offset.Some? && limit.Some? then Some(offset.value + limit.value) else None;
    JsSliceMembers(items, offset, end);
  }

  /** For page >= 1 and limit >= 1, there is a next page exactly when items remain after this one. */
  lemma HasNextIffMoreItems(total: nat, page: int, limit: int)
    requires page >= 1 && limit >= 1
    ensures HasNext(Some(page), TotalPages(total, Some(limit))) <==> page * limit < total
  {
    TotalPagesCeiling(total, limit);
    var n := TotalPages(total, Some(limit)).n;
    if page < n {
      MulMonotone(page, n - 1, limit);
      assert (n - 1) * limit == n * limit - limit;
    } else {
      MulMonotone(n, page, limit);
    }
  }

  /** The listing block of the admin routes: one page and the counters over the whole list. */
  datatype AdminPage<T> = AdminPage(items: seq<T>, page: Option<int>, limit: Option<int>, total: nat, totalPages: PageCount)

  /** `slice((page - 1) * limit, (page - 1) * limit + limit)` with `total` and `Math.ceil(total / limit)`. */
  function Paginate<T>(all: seq<T>, page: Option<int>, limit: Option<int>): AdminPage<T> {
    AdminPage(Window(all, page, limit), page, limit, |all|, TotalPages(|all|, limit))
  }

  /**
   * For page >= 1 and limit >= 1 the page is the contiguous run of the list
   * from (page - 1) * limit, in list order, at most `limit` long, and the
   * counters are the list length and the least number of pages holding it.
   */
  lemma PaginateSlice<T>(all: seq<T>, page: int, limit: int)
    requires page >= 1 && limit >= 1
    ensures var r := Paginate(all, Some(page), Some(limit));
      && |r.items| <= limit
      && (forall k :: 0 <= k < |r.items| ==> (page - 1) * limit + k < |all| && r.items[k] == all[(page - 1) * limit + k])
      && r.total == |all|
      && r.totalPages.Finite?
      && r.totalPages.n * limit >= |all| && (r.totalPages.n == 0 || (r.totalPages.n - 1) * limit < |all|)
  {
    WindowSlice(all, page, limit);
    var r := Paginate(all, Some(page), Some(limit));
    assert r.total == |all| && r.totalPages == TotalPages(|all|, Some(limit));
    TotalPagesCeiling(|all|, limit);
  }

  /** The window is at most `limit` long and is the list's run from (page - 1) * limit, in order. */
  lemma WindowSlice<T>(all: seq<T>, page: int, limit: int)
    requires page >= 1 && limit >= 1
    ensures var items := Window(all, Some(page), Some(limit));
      && |items| <= limit
      && (forall k :: 0 <= k < |items| ==> (page - 1) * limit + k < |all| && items[k] == all[(page - 1) * limit + k])
  {
    var items := Window(all, Some(page), Some(limit));
    WindowContents(all, page, limit);
    forall k | 0 <= k < |items| ensures (page - 1) * limit + k < |all| && items[k] == all[(page - 1) * limit + k] {
      WindowAt(all, page, limit, k);
    }
  }

  /** The first page holds the first `limit` items, and the page count is the ceiling of the length over the limit. */
  lemma PaginateFirst<T>(all: seq<T>, limit: int)
    requires limit >= 1
    ensures Paginate(all, Some(1), Some(limit))
         == AdminPage(Take(all, limit), Some(1), Some(limit), |all|, Finite((|all| + limit - 1) / limit))
  {
    assert Offset(Some(1), Some(limit)) == Some(0);
    assert Window(all, Some(1), Some(limit)) == JsSlice(all, Some(0), Some(limit));
  }
}

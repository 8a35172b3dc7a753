/**
 * app/catalog/page.tsx: the catalog's filter state, the query it sends to
 * `GET /api/products`, and the pagination controls.
 */
module CatalogPage {
  import opened Wrappers
  import opened SeqUtil
  import opened JsText
  import opened UrlParams
  import opened Records
  import opened ProductsApi
  import opened FiltersApi

  /** The price slider's full range, the price range before filters load. */
  const PriceCeiling := 300000

  /** The slider's range on first render: `[0, 300000]`. */
  const FullRange: PriceRange := PriceRange(0, PriceCeiling)

  /**
   * The filter selections of the sidebar other than the price range, which
   * the page keeps apart because it can hold `null` (see `Catalog`).
   */
  datatype Selection = Selection(
    search: string,
    brands: seq<int>,
    categories: seq<int>,
    onlyNew: bool,
    onlyFeatured: bool,
    onlyInStock: bool)

  function Other(id: int): int -> bool {
    x => x != id
  }

  /** The toggle callback: removes every copy of `id` when present, appends it when absent. */
  function Toggle(prev: seq<int>, id: int): (r: seq<int>)
    ensures id in prev ==> id !in r && |r| <= |prev|
    ensures id !in prev ==> r == prev + [id]
  {
    if id in prev then
      FilterMembers(Other(id), prev);
      Filter(Other(id), prev)
    else prev + [id]
  }

  /** Toggling flips the membership of `id` and leaves every other id's membership alone. */
  lemma ToggleMembership(prev: seq<int>, id: int)
    ensures id in Toggle(prev, id) <==> id !in prev
    ensures forall x :: x != id ==> (x in Toggle(prev, id) <==> x in prev)
  {
    FilterMembers(Other(id), prev);
  }

  /** Toggling the same id twice gives back the same set of selected ids. */
  lemma ToggleTwice(prev: seq<int>, id: int)
    ensures forall x :: x in Toggle(Toggle(prev, id), id) <==> x in prev
  {
    ToggleMembership(prev, id);
    ToggleMembership(Toggle(prev, id), id);
  }

  /** A list without repeated ids stays so under toggling. */
  lemma ToggleDistinct(prev: seq<int>, id: int)
    requires forall i, j :: 0 <= i < j < |prev| ==> prev[i] != prev[j]
    ensures var r := Toggle(prev, id); forall i, j :: 0 <= i < j < |r| ==> r[i] != r[j]
  {
    if id in prev {
      FilterKeepsUnique((x: int) => x, Other(id), prev);
    }
  }

  /** "Назад": one page back, never below 1. */
  function PrevPage(page: int): (r: int)
    ensures r >= 1
    ensures page > 1 ==> r == page - 1
  {
    if page - 1 > 1 then page - 1 else 1
  }

  /** "Вперед": one page on, never past the last page. */
  function NextPage(page: int, totalPages: int): (r: int)
    ensures r <= totalPages
    ensures page < totalPages ==> r == page + 1
  {
    if page + 1 < totalPages then page + 1 else totalPages
  }

  /** From a page within [1, totalPages] both buttons stay within it. */
  lemma StepsStayInRange(page: int, totalPages: int)
    requires 1 <= page <= totalPages
    ensures 1 <= PrevPage(page) <= totalPages
    ensures 1 <= NextPage(page, totalPages) <= totalPages
    ensures page == 1 ==> PrevPage(page) == 1
    ensures page == totalPages ==> NextPage(page, totalPages) == totalPages
  {
  }

  /** What the pagination bar shows for one page number. */
  datatype Slot = PageButton | Ellipsis | Hidden

  /** The rule for page `page` of `totalPages` when `current` is shown. */
  function SlotOf(page: int, current: int, totalPages: int): Slot {
    if page == 1 || page == totalPages || (current - 2 <= page <= current + 2) then PageButton
    else if page == current - 3 || page == current + 3 then Ellipsis
    else Hidden
  }

  /** The bar in page order, for pages 1 to totalPages. */
  function Bar(current: int, totalPages: nat): (r: seq<Slot>)
    ensures |r| == totalPages
  {
    seq(totalPages, i requires 0 <= i < totalPages => SlotOf(i + 1, current, totalPages))
  }

  /**
   * The first and last pages and the current one are buttons, and every
   * hidden page lies beyond an ellipsis between it and the current page.
   */
  lemma BarShape(current: int, totalPages: nat)
    requires 1 <= current <= totalPages
    ensures var b := Bar(current, totalPages);
      && b[0] == PageButton && b[totalPages - 1] == PageButton && b[current - 1] == PageButton
      && (forall i :: 0 <= i < totalPages && b[i] == Hidden ==>
            (i + 1 < current - 3 && b[current - 4] == Ellipsis) || (i + 1 > current + 3 && b[current + 2] == Ellipsis))
  {
  }

  /** One parameter when `cond` holds, none otherwise. */
  function Optional(cond: bool, key: string, value: string): seq<Param> {
    if cond then [Param(key, value)] else []
  }

  /** One `key` parameter per id, in selection order. */
  function Each(key: string, ids: seq<int>): (r: seq<Param>)
    ensures |r| == |ids|
    ensures forall i :: 0 <= i < |ids| ==> r[i] == Param(key, IntToString(ids[i]))
  {
    if ids == [] then [] else [Param(key, IntToString(ids[0]))] + Each(key, ids[1..])
  }

  /** The query string loadProducts builds for a numeric price range, in the order it builds it. */
  function BuildParams(page: int, sortBy: string, sel: Selection, range: PriceRange): seq<Param> {
    [Param("page", IntToString(page)), Param("limit", "12"), Param("sortBy", sortBy)]
    + Optional(sel.search != "", "search", sel.search)
    + Each("brand", sel.brands)
    + Each("category", sel.categories)
    + Optional(range.min > 0, "minPrice", IntToString(range.min))
    + Optional(range.max < PriceCeiling, "maxPrice", IntToString(range.max))
    + Optional(sel.onlyNew, "isNew", "true")
    + Optional(sel.onlyFeatured, "isFeatured", "true")
    + Optional(sel.onlyInStock, "inStock", "true")
  }

  /** `get` on an optional pair. */
  lemma GetOptional(cond: bool, name: string, value: string, key: string)
    ensures Get(Optional(cond, name, value), key) == if cond && name == key then Some(value) else None
  {
  }

  /** `get` on the pairs of one id list: its first id, or nothing. */
  lemma GetEach(key: string, other: string, ids: seq<int>)
    requires other != key
    ensures Get(Each(key, ids), key) == if ids == [] then None else Some(IntToString(ids[0]))
    ensures Get(Each(key, ids), other) == None
  {
    GetMissing(Each(key, ids), other);
  }

  /** `get` on the built query: the first of its parts that holds the key decides. */
  lemma ParamsLookup(page: int, sortBy: string, sel: Selection, range: PriceRange, key: string)
    ensures Get(BuildParams(page, sortBy, sel, range), key) ==
      Get([Param("page", IntToString(page)), Param("limit", "12"), Param("sortBy", sortBy)], key)
        .Or(Get(Optional(sel.search != "", "search", sel.search), key))
        .Or(Get(Each("brand", sel.brands), key))
        .Or(Get(Each("category", sel.categories), key))
        .Or(Get(Optional(range.min > 0, "minPrice", IntToString(range.min)), key))
        .Or(Get(Optional(range.max < PriceCeiling, "maxPrice", IntToString(range.max)), key))
        .Or(Get(Optional(sel.onlyNew, "isNew", "true"), key))
        .Or(Get(Optional(sel.onlyFeatured, "isFeatured", "true"), key))
        .Or(Get(Optional(sel.onlyInStock, "inStock", "true"), key))
  {
    var h := [Param("page", IntToString(page)), Param("limit", "12"), Param("sortBy", sortBy)];
    var p1 := Optional(sel.search != "", "search", sel.search);
    var p2 := Each("brand", sel.brands);
    var p3 := Each("category", sel.categories);
    var p4 := Optional(range.min > 0, "minPrice", IntToString(range.min));
    var p5 := Optional(range.max < PriceCeiling, "maxPrice", IntToString(range.max));
    var p6 := Optional(sel.onlyNew, "isNew", "true");
    var p7 := Optional(sel.onlyFeatured, "isFeatured", "true");
    var p8 := Optional(sel.onlyInStock, "inStock", "true");
    GetAppend(h, p1, key);
    GetAppend(h + p1, p2, key);
    GetAppend(h + p1 + p2, p3, key);
    GetAppend(h + p1 + p2 + p3, p4, key);
    GetAppend(h + p1 + p2 + p3 + p4, p5, key);
    GetAppend(h + p1 + p2 + p3 + p4 + p5, p6, key);
    GetAppend(h + p1 + p2 + p3 + p4 + p5 + p6, p7, key);
    GetAppend(h + p1 + p2 + p3 + p4 + p5 + p6 + p7, p8, key);
  }

  /** The header pairs: `page`, `limit`, `sortBy`. */
  lemma GetHeader(page: int, sortBy: string, key: string)
    ensures Get([Param("page", IntToString(page)), Param("limit", "12"), Param("sortBy", sortBy)], key) ==
      if key == "page" then Some(IntToString(page))
      else if key == "limit" then Some("12")
      else if key == "sortBy" then Some(sortBy)
      else None
  {
    var h := [Param("page", IntToString(page)), Param("limit", "12"), Param("sortBy", sortBy)];
    var t := [Param("limit", "12"), Param("sortBy", sortBy)];
    var u := [Param("sortBy", sortBy)];
    assert h[1..] == t && t[1..] == u && u[1..] == [];
    assert Get(h, key) == if key == "page" then Some(IntToString(page)) else Get(t, key);
    assert Get(t, key) == if key == "limit" then Some("12") else Get(u, key);
    assert Get(u, key) == if key == "sortBy" then Some(sortBy) else Get([], key);
  }

  /** What `get` returns for each key of the built query. */
  lemma ReadsBack(page: int, sortBy: string, sel: Selection, range: PriceRange, key: string)
    ensures Get(BuildParams(page, sortBy, sel, range), key) ==
      if key == "page" then Some(IntToString(page))
      else if key == "limit" then Some("12")
      else if key == "sortBy" then Some(sortBy)
      else if key == "search" then (if sel.search != "" then Some(sel.search) else None)
      else if key == "brand" then (if sel.brands == [] then None else Some(IntToString(sel.brands[0])))
      else if key == "category" then (if sel.categories == [] then None else Some(IntToString(sel.categories[0])))
      else if key == "minPrice" then (if range.min > 0 then Some(IntToString(range.min)) else None)
      else if key == "maxPrice" then (if range.max < PriceCeiling then Some(IntToString(range.max)) else None)
      else if key == "isNew" then (if sel.onlyNew then Some("true") else None)
      else if key == "isFeatured" then (if sel.onlyFeatured then Some("true") else None)
      else if key == "inStock" then (if sel.onlyInStock then Some("true") else None)
      else None
  {
    ParamsLookup(page, sortBy, sel, range, key);
    GetHeader(page, sortBy, key);
    GetOptional(sel.search != "", "search", sel.search, key);
    GetOptional(range.min > 0, "minPrice", IntToString(range.min), key);
    GetOptional(range.max < PriceCeiling, "maxPrice", IntToString(range.max), key);
    GetOptional(sel.onlyNew, "isNew", "true", key);
    GetOptional(sel.onlyFeatured, "isFeatured", "true", key);
    GetOptional(sel.onlyInStock, "inStock", "true", key);
    if key == "brand" {
      GetEach("brand", "category", sel.brands);
    } else {
      GetEach("brand", key, sel.brands);
    }
    if key == "category" {
      GetEach("category", "brand", sel.categories);
    } else {
      GetEach("category", key, sel.categories);
    }
  }

  /** Page, limit, sort order and search text are read back as sent; an empty sort order falls back to "name". */
  lemma HeaderRoundTrip(page: int, sortBy: string, sel: Selection, range: PriceRange)
    ensures var q := ReadQuery(BuildParams(page, sortBy, sel, range));
      && q.page == Some(page) && q.limit == Some(12)
      && q.sortBy == (if sortBy != "" then sortBy else "name")
      && q.search == sel.search
  {
    var params := BuildParams(page, sortBy, sel, range);
    ReadsBack(page, sortBy, sel, range, "page");
    assert GetOr(params, "page", "1") == IntToString(page);
    ParseIntToString(page);
    ReadsBack(page, sortBy, sel, range, "limit");
    assert GetOr(params, "limit", "12") == "12";
    ParseIntTwelve();
    ReadsBack(page, sortBy, sel, range, "sortBy");
    assert GetOr(params, "sortBy", "name") == if sortBy != "" then sortBy else "name";
    ReadsBack(page, sortBy, sel, range, "search");
    assert GetOr(params, "search", "") == sel.search;
  }

  /** Of the selected brands and categories only the first of each is read back. */
  lemma FirstIdsRoundTrip(page: int, sortBy: string, sel: Selection, range: PriceRange)
    ensures var q := ReadQuery(BuildParams(page, sortBy, sel, range));
      && q.brand == (if sel.brands == [] then None else Some(Some(sel.brands[0])))
      && q.category == (if sel.categories == [] then None else Some(Some(sel.categories[0])))
  {
    ReadsBack(page, sortBy, sel, range, "brand");
    ReadsBack(page, sortBy, sel, range, "category");
    if sel.brands != [] {
      ParseIntToString(sel.brands[0]);
    }
    if sel.categories != [] {
      ParseIntToString(sel.categories[0]);
    }
  }

  /** The price bounds arrive only when narrower than the slider's range; the flags arrive as set. */
  lemma BoundsAndFlagsRoundTrip(page: int, sortBy: string, sel: Selection, range: PriceRange)
    ensures var q := ReadQuery(BuildParams(page, sortBy, sel, range));
      && q.minPrice == (if range.min > 0 then Some(Some(range.min)) else None)
      && q.maxPrice == (if range.max < PriceCeiling then Some(Some(range.max)) else None)
      && q.isNew == sel.onlyNew && q.isFeatured == sel.onlyFeatured && q.inStock == sel.onlyInStock
  {
    ReadsBack(page, sortBy, sel, range, "minPrice");
    ReadsBack(page, sortBy, sel, range, "maxPrice");
    ReadsBack(page, sortBy, sel, range, "isNew");
    ReadsBack(page, sortBy, sel, range, "isFeatured");
    ReadsBack(page, sortBy, sel, range, "inStock");
    ParseIntToString(range.min);
    ParseIntToString(range.max);
  }

  /** The selections clearFilters restores: no search, nothing selected, every flag off. */
  function Cleared(): (r: Selection)
    ensures r.search == "" && r.brands == [] && r.categories == []
    ensures !r.onlyNew && !r.onlyFeatured && !r.onlyInStock
  {
    Selection("", [], [], false, false, false)
  }

  /**
   * The price range clearFilters restores: the loaded bounds once the
   * filters have loaded, which are `null` (`None`) when no product was
   * active, and the slider's full range before that.
   */
  function ClearedRange(filters: Option<Facets>): (r: Option<PriceRange>)
    ensures filters.None? ==> r == Some(FullRange)
    ensures filters.Some? ==> r == filters.value.priceRange
  {
    if filters.Some? then filters.value.priceRange else Some(FullRange)
  }

  /**
   * The query loadProducts sends, or `None` when building it throws. With
   * the range at `null`, `null > 0` is false, so no lower bound is added,
   * but `null < 300000` is true and `priceRange[1].toString()` throws.
   */
  function Query(page: int, sortBy: string, sel: Selection, range: Option<PriceRange>): (r: Option<seq<Param>>)
    ensures r.None? <==> range.None?
    ensures range.Some? ==> r == Some(BuildParams(page, sortBy, sel, range.value))
  {
    if range.None? then None else Some(BuildParams(page, sortBy, sel, range.value))
  }

  /**
   * The query built after clearing carries page, limit and sort order, and
   * a price bound only where the restored range is narrower than the
   * slider's: no search, no brand, no category, no flag. Before the filters
   * load it carries no bound at all; once filters with `null` bounds have
   * loaded, no query can be built.
   */
  lemma ClearedQuery(page: int, sortBy: string, filters: Option<Facets>)
    ensures var range := ClearedRange(filters);
      range.Some? ==>
        Query(page, sortBy, Cleared(), range) == Some(
          [Param("page", IntToString(page)), Param("limit", "12"), Param("sortBy", sortBy)]
          + Optional(range.value.min > 0, "minPrice", IntToString(range.value.min))
          + Optional(range.value.max < PriceCeiling, "maxPrice", IntToString(range.value.max)))
    ensures filters.None? ==>
      Query(page, sortBy, Cleared(), ClearedRange(filters)) ==
        Some([Param("page", IntToString(page)), Param("limit", "12"), Param("sortBy", sortBy)])
    ensures filters.Some? && filters.value.priceRange.None? ==>
      Query(page, sortBy, Cleared(), ClearedRange(filters)).None?
  {
    var range := ClearedRange(filters);
    if range.Some? {
      var header := [Param("page", IntToString(page)), Param("limit", "12"), Param("sortBy", sortBy)];
      var bounds := Optional(range.value.min > 0, "minPrice", IntToString(range.value.min))
        + Optional(range.value.max < PriceCeiling, "maxPrice", IntToString(range.value.max));
      assert Each("brand", []) == [] && Each("category", []) == [];
      calc {
        BuildParams(page, sortBy, Cleared(), range.value);
        header + [] + [] + [] + Optional(range.value.min > 0, "minPrice", IntToString(range.value.min))
          + Optional(range.value.max < PriceCeiling, "maxPrice", IntToString(range.value.max)) + [] + [] + [];
        { assert header + [] + [] + [] == header; }
        header + bounds;
      }
      assert header + bounds == header + Optional(range.value.min > 0, "minPrice", IntToString(range.value.min))
        + Optional(range.value.max < PriceCeiling, "maxPrice", IntToString(range.value.max));
      if filters.None? {
        assert bounds == [] && header + bounds == header;
      }
    }
  }

  /**
   * With no active product, `/api/filters` answers `null` bounds, and from
   * then on the catalog can build no query, whatever the selection: the
   * range it loads and the range clearing restores are both `null`.
   */
  lemma NoActiveProductNoQuery(products: seq<Product>, brands: seq<Brand>, categories: seq<Category>,
                               page: int, sortBy: string, sel: Selection)
    requires forall p :: p in products ==> !p.isActive
    ensures var answer := GetFacets(products, brands, categories);
      && answer.priceRange.None?
      && Query(page, sortBy, sel, answer.priceRange).None?
      && Query(page, sortBy, sel, ClearedRange(Some(answer))).None?
  {
    PriceRangeBounds(products, brands, categories);
    FilterNone((p: Product) => p.isActive, products);
  }

  /** The catalog page's state and the handlers that change it. */
  class Catalog {
    var selection: Selection
    /** `priceRange`; `None` stands for `[null, null]`, the bounds sent when no product is active. */
    var priceRange: Option<PriceRange>
    var sortBy: string
    var currentPage: int
    /** The `/api/filters` answer, once loaded. */
    var filters: Option<Facets>
    /** The products of the last page that loaded. */
    var products: seq<Product>

    /** The state on first render. */
    constructor ()
      ensures selection == Selection("", [], [], false, false, false) && priceRange == Some(FullRange)
      ensures sortBy == "name" && currentPage == 1 && filters == None && products == []
    {
      selection := Selection("", [], [], false, false, false);
      priceRange := Some(FullRange);
      sortBy := "name";
      currentPage := 1;
      filters := None;
      products := [];
    }

    /** The query loadProducts sends for the current state, or `None` when building it throws. */
    function Request(): Option<seq<Param>>
      reads this
    {
      Query(currentPage, sortBy, selection, priceRange)
    }

    /** loadFilters: keeps the answer and moves the price range to its bounds, `null` ones included. */
    method LoadFilters(answer: Facets)
      modifies this`filters, this`priceRange
      ensures filters == Some(answer) && priceRange == answer.priceRange
    {
      filters := Some(answer);
      priceRange := answer.priceRange;
    }

    /**
     * loadProducts, given what `/api/products` answers (`None` for a failed
     * fetch): the products are replaced only when the query could be built
     * and the fetch succeeded; otherwise the error toast is shown and the
     * list stays as it was.
     */
    method LoadProducts(response: Option<seq<Product>>)
      modifies this`products
      ensures Request().Some? && response.Some? ==> products == response.value
      ensures Request().None? || response.None? ==> products == old(products)
    {
      var request := Query(currentPage, sortBy, selection, priceRange);
      if request.Some? && response.Some? {
        products := response.value;
      }
    }

    /** handleBrandToggle: toggles the brand and goes back to page 1. */
    method HandleBrandToggle(brandId: int)
      modifies this`selection, this`currentPage
      ensures selection == old(selection).(brands := Toggle(old(selection).brands, brandId))
      ensures currentPage == 1
    {
      selection := selection.(brands := Toggle(selection.brands, brandId));
      currentPage := 1;
    }

    /** handleCategoryToggle: toggles the category and goes back to page 1. */
    method HandleCategoryToggle(categoryId: int)
      modifies this`selection, this`currentPage
      ensures selection == old(selection).(categories := Toggle(old(selection).categories, categoryId))
      ensures currentPage == 1
    {
      selection := selection.(categories := Toggle(selection.categories, categoryId));
      currentPage := 1;
    }

    /** clearFilters: every selection off, price range reset to the loaded bounds or the full range, page 1. */
    method ClearFilters()
      modifies this`selection, this`priceRange, this`currentPage
      ensures selection == Cleared() && priceRange == ClearedRange(filters)
      ensures currentPage == 1
    {
      selection := Selection("", [], [], false, false, false);
      priceRange := if filters.Some? then filters.value.priceRange else Some(FullRange);
      currentPage := 1;
    }

    /** The sort select: only the sort order changes; the page is kept. */
    method SetSortBy(value: string)
      modifies this`sortBy
      ensures sortBy == value && currentPage == old(currentPage) && selection == old(selection) && priceRange == old(priceRange)
    {
      sortBy := value;
    }

    /** The "Назад" button. */
    method GoPrev()
      modifies this`currentPage
      ensures currentPage == PrevPage(old(currentPage))
    {
      currentPage := if currentPage - 1 > 1 then currentPage - 1 else 1;
    }

    /** The "Вперед" button. */
    method GoNext(totalPages: int)
      modifies this`currentPage
      ensures currentPage == NextPage(old(currentPage), totalPages)
    {
      currentPage := if currentPage + 1 < totalPages then currentPage + 1 else totalPages;
    }
  }
}

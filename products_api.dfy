/**
 * `GET /api/products` (app/api/products/route.ts): the catalogue listing.
 * Query parameters select active products by text, category, brand, price
 * range and three flags; the selection is sorted by the requested key and
 * one page of it is returned with the page counters.
 */
module ProductsApi {
  import opened Wrappers
  import opened SeqUtil
  import opened JsText
  import opened Sorting
  import opened Records
  import opened UrlParams
  import opened Pagination

  /**
   * The query as the route reads it; `None` for page and limit is `NaN`.
   * The four numeric filters are `None` when the parameter is missing or
   * empty (the filter is skipped) and otherwise hold `Number.parseInt` of
   * the text, whose `None` is `NaN`.
   */
  datatype ProductQuery = ProductQuery(
    page: Option<int>,
    limit: Option<int>,
    search: string,
    category: Option<Option<int>>,
    brand: Option<Option<int>>,
    minPrice: Option<Option<int>>,
    maxPrice: Option<Option<int>>,
    sortBy: string,
    isNew: bool,
    isFeatured: bool,
    inStock: bool)

  /** The JSON body: one page of products and the pagination block. */
  datatype ProductsPage = ProductsPage(
    products: seq<Product>,
    page: Option<int>,
    limit: Option<int>,
    total: nat,
    totalPages: PageCount,
    hasNext: bool,
    hasPrev: bool)

  /** Reads the parameters with their defaults: page 1, limit 12, empty search, sort by name. */
  function ReadQuery(params: seq<Param>): ProductQuery {
    ProductQuery(
      ParseInt(GetOr(params, "page", "1")),
      ParseInt(GetOr(params, "limit", "12")),
      GetOr(params, "search", ""),
      NumberFilter(Get(params, "category")),
      NumberFilter(Get(params, "brand")),
      NumberFilter(Get(params, "minPrice")),
      NumberFilter(Get(params, "maxPrice")),
      GetOr(params, "sortBy", "name"),
      Get(params, "isNew") == Some("true"),
      Get(params, "isFeatured") == Some("true"),
      Get(params, "inStock") == Some("true"))
  }

  /** A parameter is applied only when it is present and non-empty. */
  predicate Present(v: Option<string>) {
    v.Some? && v.value != ""
  }

  /** A numeric filter parameter: skipped when absent or empty, otherwise parsed. */
  function NumberFilter(v: Option<string>): Option<Option<int>> {
    if Present(v) then Some(ParseInt(v.value)) else None
  }

  /** Case-insensitive text match on name, description, brand name or category name. */
  predicate MatchesSearch(p: Product, needle: string) {
    || Includes(ToLower(p.name), needle)
    || Includes(ToLower(p.description), needle)
    || (p.brand.Some? && Includes(ToLower(p.brand.value.name), needle))
    || (p.category.Some? && Includes(ToLower(p.category.value.name), needle))
  }

  /** `id === n`: false when the id is absent or `n` is `NaN`. */
  predicate HasId(id: Option<int>, n: Option<int>) {
    id.Some? && n == id
  }

  /** `price >= n`, false for `NaN`. */
  predicate AtLeast(price: int, n: Option<int>) {
    n.Some? && price >= n.value
  }

  /** `price <= n`, false for `NaN`. */
  predicate AtMost(price: int, n: Option<int>) {
    n.Some? && price <= n.value
  }

  /** The callbacks of the route's `filter` calls. */
  datatype Criterion =
    | Active
    | SearchText(searchLower: string)
    | InCategory(categoryId: Option<int>)
    | OfBrand(brandId: Option<int>)
    | PriceFrom(minPrice: Option<int>)
    | PriceUpTo(maxPrice: Option<int>)
    | New
    | Featured
    | InStock

  predicate Meets(p: Product, c: Criterion) {
    match c
    case Active => p.isActive
    case SearchText(searchLower) => MatchesSearch(p, searchLower)
    case InCategory(categoryId) => HasId(p.categoryId, categoryId)
    case OfBrand(brandId) => HasId(p.brandId, brandId)
    case PriceFrom(minPrice) => AtLeast(p.price, minPrice)
    case PriceUpTo(maxPrice) => AtMost(p.price, maxPrice)
    case New => p.isNew
    case Featured => p.isFeatured
    case InStock => p.stockQuantity > 0
  }

  /** `products.filter(callback)`. */
  function Keep(products: seq<Product>, c: Criterion): seq<Product> {
    Filter((p: Product) => Meets(p, c), products)
  }

  /** Whether filter number `k` (1 to 8, in route order) is switched on by the query. */
  predicate StageOn(q: ProductQuery, k: int) {
    match k
    case 1 => q.search != ""
    case 2 => q.category.Some?
    case 3 => q.brand.Some?
    case 4 => q.minPrice.Some?
    case 5 => q.maxPrice.Some?
    case 6 => q.isNew
    case 7 => q.isFeatured
    case 8 => q.inStock
    case _ => false
  }

  /** The callback of filter number `k`. */
  function StageCriterion(q: ProductQuery, k: int): Criterion {
    match k
    case 1 => SearchText(ToLower(q.search))
    case 2 => InCategory(q.category.GetOr(None))
    case 3 => OfBrand(q.brand.GetOr(None))
    case 4 => PriceFrom(q.minPrice.GetOr(None))
    case 5 => PriceUpTo(q.maxPrice.GetOr(None))
    case 6 => New
    case 7 => Featured
    case _ => InStock
  }

  /** Passes the active filter and the first `k` query filters. */
  predicate Through(q: ProductQuery, k: nat, p: Product) {
    p.isActive && forall j :: 1 <= j <= k && StageOn(q, j) ==> Meets(p, StageCriterion(q, j))
  }

  /** The survivors of the active filter and the first `k` query filters. */
  function Survivors(all: seq<Product>, q: ProductQuery, k: nat): seq<Product> {
    Filter((p: Product) => Through(q, k, p), all)
  }

  /**
   * The whole selection as one condition: active, and meeting every filter
   * the query switches on.
   */
  predicate Selected(q: ProductQuery, p: Product) {
    && p.isActive
    && (q.search != "" ==> MatchesSearch(p, ToLower(q.search)))
    && (q.category.Some? ==> HasId(p.categoryId, q.category.value))
    && (q.brand.Some? ==> HasId(p.brandId, q.brand.value))
    && (q.minPrice.Some? ==> AtLeast(p.price, q.minPrice.value))
    && (q.maxPrice.Some? ==> AtMost(p.price, q.maxPrice.value))
    && (q.isNew ==> p.isNew)
    && (q.isFeatured ==> p.isFeatured)
    && (q.inStock ==> p.stockQuantity > 0)
  }

  function SelectedBy(q: ProductQuery): Product -> bool {
    (p: Product) => Selected(q, p)
  }

  /** The products the query selects, in stored order. */
  function Matching(all: seq<Product>, q: ProductQuery): seq<Product> {
    Filter(SelectedBy(q), all)
  }

  /** The comparator of the `sortBy` switch. */
  function Compare(sortBy: string, a: Product, b: Product): int {
    if sortBy == "price-asc" then a.price - b.price
    else if sortBy == "price-desc" then b.price - a.price
    else if sortBy == "name" then CompareStrings(a.name, b.name)
    else if sortBy == "newest" then b.createdAt - a.createdAt
    else if sortBy == "popular" then (if b.isFeatured then 1 else 0) - (if a.isFeatured then 1 else 0)
    else 0
  }

  function Comparator(sortBy: string): (Product, Product) -> int {
    (a: Product, b: Product) => Compare(sortBy, a, b)
  }

  /** The active filter alone. */
  lemma SurvivorsActive(q: ProductQuery, all: seq<Product>)
    ensures Keep(all, Active) == Survivors(all, q, 0)
  {
    FilterCongruent((p: Product) => Meets(p, Active), (p: Product) => Through(q, 0, p), all);
  }

  /**
   * Filter `k`, applied when the query switches it on, narrows the survivors
   * of the first `k - 1` filters to the survivors of the first `k`.
   */
  lemma Narrow(q: ProductQuery, k: nat, all: seq<Product>, before: seq<Product>, on: bool, c: Criterion)
    requires 1 <= k && before == Survivors(all, q, k - 1)
    requires on == StageOn(q, k) && (on ==> c == StageCriterion(q, k))
    ensures (if on then Keep(before, c) else before) == Survivors(all, q, k)
  {
    var f := (p: Product) => Through(q, k - 1, p);
    var h := (p: Product) => Through(q, k, p);
    if StageOn(q, k) {
      FilterFilter(f, (p: Product) => Meets(p, StageCriterion(q, k)), h, all);
    } else {
      FilterCongruent(f, h, all);
    }
  }

  /** Passing all eight filters in turn is the single selection condition. */
  lemma SurvivorsSelected(q: ProductQuery, all: seq<Product>)
    ensures Survivors(all, q, 8) == Matching(all, q)
  {
    forall i | 0 <= i < |all| ensures Through(q, 8, all[i]) == Selected(q, all[i]) {
      var p := all[i];
      if Selected(q, p) {
        forall j | 1 <= j <= 8 && StageOn(q, j) ensures Meets(p, StageCriterion(q, j)) {
          assert j == 1 || j == 2 || j == 3 || j == 4 || j == 5 || j == 6 || j == 7 || j == 8;
        }
      }
      if Through(q, 8, p) {
        assert StageOn(q, 1) ==> Meets(p, StageCriterion(q, 1));
        assert StageOn(q, 2) ==> Meets(p, StageCriterion(q, 2));
        assert StageOn(q, 3) ==> Meets(p, StageCriterion(q, 3));
        assert StageOn(q, 4) ==> Meets(p, StageCriterion(q, 4));
        assert StageOn(q, 5) ==> Meets(p, StageCriterion(q, 5));
        assert StageOn(q, 6) ==> Meets(p, StageCriterion(q, 6));
        assert StageOn(q, 7) ==> Meets(p, StageCriterion(q, 7));
        assert StageOn(q, 8) ==> Meets(p, StageCriterion(q, 8));
      }
    }
    FilterCongruent((p: Product) => Through(q, 8, p), SelectedBy(q), all);
  }

  /**
   * The filter steps of the handler, applied one after another as in the
   * source: together they select exactly the products meeting the single
   * selection condition, in stored order.
   */
  method ApplyFilters(all: seq<Product>, q: ProductQuery) returns (products: seq<Product>)
    ensures products == Matching(all, q)
  {
    SurvivorsActive(q, all);
    products := Keep(all, Active);

    ghost var before := products;
    var searchLower := ToLower(q.search);
    if q.search != "" {
      products := Keep(products, SearchText(searchLower));
    }
    Narrow(q, 1, all, before, q.search != "", SearchText(searchLower));

    before := products;
    if q.category.Some? {
      products := Keep(products, InCategory(q.category.value));
    }
    Narrow(q, 2, all, before, q.category.Some?, InCategory(q.category.GetOr(None)));

    before := products;
    if q.brand.Some? {
      products := Keep(products, OfBrand(q.brand.value));
    }
    Narrow(q, 3, all, before, q.brand.Some?, OfBrand(q.brand.GetOr(None)));

    before := products;
    if q.minPrice.Some? {
      products := Keep(products, PriceFrom(q.minPrice.value));
    }
    Narrow(q, 4, all, before, q.minPrice.Some?, PriceFrom(q.minPrice.GetOr(None)));

    before := products;
    if q.maxPrice.Some? {
      products := Keep(products, PriceUpTo(q.maxPrice.value));
    }
    Narrow(q, 5, all, before, q.maxPrice.Some?, PriceUpTo(q.maxPrice.GetOr(None)));

    before := products;
    if q.isNew {
      products := Keep(products, New);
    }
    Narrow(q, 6, all, before, q.isNew, New);

    before := products;
    if q.isFeatured {
      products := Keep(products, Featured);
    }
    Narrow(q, 7, all, before, q.isFeatured, Featured);

    before := products;
    if q.inStock {
      products := Keep(products, InStock);
    }
    Narrow(q, 8, all, before, q.inStock, InStock);
    SurvivorsSelected(q, all);
  }

  /**
   * The route handler: one page of the selection, sorted by the requested
   * key, with the page counters.
   */
  method ListProducts(all: seq<Product>, params: seq<Param>) returns (resp: ProductsPage)
    ensures var q := ReadQuery(params);
      && resp.total == |Matching(all, q)|
      && resp.products == Window(SortBy(Comparator(q.sortBy), Matching(all, q)), q.page, q.limit)
      && resp.page == q.page && resp.limit == q.limit
      && resp.totalPages == TotalPages(resp.total, q.limit)
      && resp.hasNext == HasNext(q.page, resp.totalPages)
      && resp.hasPrev == HasPrev(q.page)
  {
    var q := ReadQuery(params);
    var products := ApplyFilters(all, q);
    products := SortBy(Comparator(q.sortBy), products);

    var total := |products|;
    var totalPages := TotalPages(total, q.limit);
    resp := ProductsPage(Window(products, q.page, q.limit), q.page, q.limit, total, totalPages,
                         HasNext(q.page, totalPages), HasPrev(q.page));
  }

  /** With none of its parameters given, the query takes the route's defaults. */
  lemma ReadQueryDefaults(params: seq<Param>)
    requires forall i :: 0 <= i < |params| ==>
      params[i].key !in {"page", "limit", "search", "category", "brand", "minPrice", "maxPrice",
                         "sortBy", "isNew", "isFeatured", "inStock"}
    ensures ReadQuery(params) == ProductQuery(Some(1), Some(12), "", None, None, None, None,
                                              "name", false, false, false)
  {
    GetMissing(params, "page");
    GetMissing(params, "limit");
    GetMissing(params, "search");
    GetMissing(params, "category");
    GetMissing(params, "brand");
    GetMissing(params, "minPrice");
    GetMissing(params, "maxPrice");
    GetMissing(params, "sortBy");
    GetMissing(params, "isNew");
    GetMissing(params, "isFeatured");
    GetMissing(params, "inStock");
    ParseIntDefaults();
  }

  /** A numeric filter whose text is not a number (`NaN`) selects nothing. */
  lemma NotANumberSelectsNothing(all: seq<Product>, q: ProductQuery)
    requires q.category == Some(None) || q.brand == Some(None)
          || q.minPrice == Some(None) || q.maxPrice == Some(None)
    ensures Matching(all, q) == []
  {
    forall i | 0 <= i < |all| ensures !SelectedBy(q)(all[i]) {
      assert !Selected(q, all[i]);
    }
    FilterNone(SelectedBy(q), all);
  }

  /** Every sort key gives a comparator whose sign is consistent, as `Array.prototype.sort` expects. */
  lemma CompareConsistent(sortBy: string)
    ensures Consistent(Comparator(sortBy))
  {
    forall a: Product, b: Product | Compare(sortBy, a, b) > 0 ensures Compare(sortBy, b, a) <= 0 {
      if sortBy == "name" {
        CompareStringsAntisymmetric(a.name, b.name);
      }
    }
  }

  /** The listing before the page is cut: the selection, sorted by the requested key. */
  function Ordered(all: seq<Product>, q: ProductQuery): seq<Product> {
    SortBy(Comparator(q.sortBy), Matching(all, q))
  }

  /** The ordered listing holds exactly the selected products, each as often as it is stored. */
  lemma OrderedSelection(all: seq<Product>, q: ProductQuery)
    ensures multiset(Ordered(all, q)) == multiset(Matching(all, q))
    ensures forall p :: p in Ordered(all, q) <==> p in all && Selected(q, p)
  {
    CompareConsistent(q.sortBy);
    SortBySorted(Comparator(q.sortBy), Matching(all, q));
    FilterMembers(SelectedBy(q), all);
    forall p ensures p in Ordered(all, q) <==> p in Matching(all, q) {
      assert p in Ordered(all, q) <==> p in multiset(Ordered(all, q));
    }
  }

  /** Every product on a page is a stored product the query selects. */
  lemma PageSelected(all: seq<Product>, q: ProductQuery, p: Product)
    requires p in Window(Ordered(all, q), q.page, q.limit)
    ensures p in all && Selected(q, p)
  {
    WindowMembers(Ordered(all, q), q.page, q.limit);
    OrderedSelection(all, q);
  }

  /** `price-asc`: prices never decrease along the listing. */
  lemma PriceAscending(all: seq<Product>, q: ProductQuery)
    requires q.sortBy == "price-asc"
    ensures var r := Ordered(all, q);
      forall i, j :: 0 <= i <= j < |r| ==> r[i].price <= r[j].price
  {
    CompareConsistent(q.sortBy);
    SortBySorted(Comparator(q.sortBy), Matching(all, q));
    KeyOrderedThroughout((p: Product) => p.price, Ordered(all, q));
  }

  /** `price-desc`: prices never increase along the listing. */
  lemma PriceDescending(all: seq<Product>, q: ProductQuery)
    requires q.sortBy == "price-desc"
    ensures var r := Ordered(all, q);
      forall i, j :: 0 <= i <= j < |r| ==> r[i].price >= r[j].price
  {
    CompareConsistent(q.sortBy);
    SortBySorted(Comparator(q.sortBy), Matching(all, q));
    KeyOrderedThroughout((p: Product) => -p.price, Ordered(all, q));
  }

  /** `newest`: creation times never increase along the listing. */
  lemma NewestFirst(all: seq<Product>, q: ProductQuery)
    requires q.sortBy == "newest"
    ensures var r := Ordered(all, q);
      forall i, j :: 0 <= i <= j < |r| ==> r[i].createdAt >= r[j].createdAt
  {
    CompareConsistent(q.sortBy);
    SortBySorted(Comparator(q.sortBy), Matching(all, q));
    KeyOrderedThroughout((p: Product) => -p.createdAt, Ordered(all, q));
  }

  /** `popular`: every featured product comes before every other one. */
  lemma FeaturedFirst(all: seq<Product>, q: ProductQuery)
    requires q.sortBy == "popular"
    ensures var r := Ordered(all, q);
      forall i, j :: 0 <= i <= j < |r| && r[j].isFeatured ==> r[i].isFeatured
  {
    CompareConsistent(q.sortBy);
    SortBySorted(Comparator(q.sortBy), Matching(all, q));
    var key := (p: Product) => if p.isFeatured then 0 else 1;
    KeyOrderedThroughout(key, Ordered(all, q));
  }

  /** `name`: names are in code-point order along the listing. */
  lemma NamesAscending(all: seq<Product>, q: ProductQuery)
    requires q.sortBy == "name"
    ensures var r := Ordered(all, q);
      forall i :: 0 < i < |r| ==> CompareStrings(r[i - 1].name, r[i].name) <= 0
  {
    CompareConsistent(q.sortBy);
    SortBySorted(Comparator(q.sortBy), Matching(all, q));
  }

  /** An unknown sort key compares everything equal, so the stored order is kept. */
  lemma UnknownSortKeepsOrder(all: seq<Product>, q: ProductQuery)
    requires q.sortBy !in {"price-asc", "price-desc", "name", "newest", "popular"}
    ensures Ordered(all, q) == Matching(all, q)
  {
    SortByEqualKeepsOrder(Comparator(q.sortBy), Matching(all, q));
  }
}

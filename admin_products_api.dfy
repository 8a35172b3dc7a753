/**
 * `/api/admin/products` (app/api/admin/products/route.ts). GET pages through
 * every stored product, active or not (default page 1, limit 20). POST
 * coerces the submitted fields, resolves the brand and category from fixed
 * tables and saves the product under the next free id.
 */
module AdminProductsApi {
  import opened Wrappers
  import opened SeqUtil
  import opened JsText
  import opened JsValue
  import opened Records
  import opened UrlParams
  import opened Pagination
  import opened LocalStore

  /** GET: the page of all stored products the `page` and `limit` parameters select. */
  function ListProducts(all: seq<Product>, params: seq<Param>): AdminPage<Product> {
    Paginate(all, ParseInt(GetOr(params, "page", "1")), ParseInt(GetOr(params, "limit", "20")))
  }

  /**
   * Without `page` and `limit` parameters the listing is the first twenty
   * stored products, and the counters cover every stored product.
   */
  lemma ListProductsDefaults(all: seq<Product>, params: seq<Param>)
    requires forall i :: 0 <= i < |params| ==> params[i].key != "page" && params[i].key != "limit"
    ensures var r := ListProducts(all, params);
      && r.page == Some(1) && r.limit == Some(20)
      && r.items == Take(all, 20)
      && r.total == |all| && r.totalPages == Finite((|all| + 19) / 20)
  {
    GetMissing(params, "page");
    GetMissing(params, "limit");
    assert GetOr(params, "page", "1") == "1" && GetOr(params, "limit", "20") == "20";
    ParseIntDefaults();
    PaginateFirst(all, 20);
  }

  /** Whole decimal text with an optional sign, as `Number` accepts it. */
  predicate NumericText(t: string) {
    var body := if t != [] && (t[0] == '-' || t[0] == '+') then t[1..] else t;
    body != [] && AllDigits(body)
  }

  /**
   * `Number(v)`, with `None` for `NaN`: blank text is 0, decimal text its
   * value, `true`/`false` 1/0, `null` 0 and `undefined` `NaN`.
   */
  function ToNumber(v: Json): (r: Option<int>)
    ensures v.JNumber? ==> r == Some(v.n)
    ensures v.JUndefined? ==> r.None?
  {
    match v
    case JNull => Some(0)
    case JUndefined => None
    case JBool(b) => Some(if b then 1 else 0)
    case JNumber(n) => Some(n)
    case JString(s) =>
      var t := Trim(s);
      if t == [] then Some(0) else if NumericText(t) then ParseInt(t) else None
  }

  /** Number text converts to the number it spells. */
  lemma ToNumberText(n: int)
    ensures ToNumber(JString(IntToString(n))) == Some(n)
  {
    var t := IntToString(n);
    if n < 0 {
      assert t == "-" + NatToString(-n) && t[1..] == NatToString(-n);
    } else {
      assert t == NatToString(n);
    }
    assert !IsWhitespace(t[0]) && !IsWhitespace(t[|t| - 1]);
    assert TrimStart(t) == t;
    assert TrimEnd(t) == t;
    ParseIntToString(n);
  }

  /** The request body of POST. */
  datatype ProductBody = ProductBody(
    name: string,
    slug: string,
    description: string,
    shortDescription: string,
    price: Json,
    oldPrice: Json,
    sku: string,
    stockQuantity: Json,
    brandId: Json,
    categoryId: Json,
    isFeatured: Json,
    isNew: Json,
    isRecommended: Json,
    isActive: Json,
    images: Option<seq<ProductImage>>)

  /** The brand table the route resolves `brand_id` against; these brands carry no slug. */
  const Brands: seq<Ref> := [
    Ref(1, "Yamaha", None), Ref(2, "Fender", None), Ref(3, "Shure", None),
    Ref(4, "Casio", None), Ref(5, "Korg", None), Ref(6, "Gibson", None)]

  /** The category table the route resolves `category_id` against. */
  const Categories: seq<Ref> := [
    Ref(1, "Акустические гитары", Some("acoustic-guitars")),
    Ref(2, "Электрогитары", Some("electric-guitars")),
    Ref(3, "Микрофоны", Some("microphones")),
    Ref(4, "Клавишные", Some("keyboards")),
    Ref(5, "Ударные", Some("drums")),
    Ref(6, "DJ оборудование", Some("dj-equipment"))]

  /** `table.find((x) => x.id === id)`: only a number can equal an id. */
  function Lookup(table: seq<Ref>, id: Json): (r: Option<Ref>)
    ensures r.Some? ==> id.JNumber? && r.value.id == id.n && r.value in table
    ensures r.None? ==> !id.JNumber? || forall x :: x in table ==> x.id != id.n
  {
    if id.JNumber? then Find((x: Ref) => x.id == id.n, table) else None
  }

  /** Both tables resolve exactly the ids 1 to 6. */
  lemma LookupTables(id: Json)
    ensures Lookup(Brands, id).Some? <==> id.JNumber? && 1 <= id.n <= 6
    ensures Lookup(Categories, id).Some? <==> id.JNumber? && 1 <= id.n <= 6
  {
    if id.JNumber? && 1 <= id.n <= 6 {
      assert Brands[id.n - 1] in Brands && Categories[id.n - 1] in Categories;
    }
  }

  /** A stored id field: a number is kept, anything else is taken as absent. */
  function IdField(v: Json): Option<int> {
    if v.JNumber? then Some(v.n) else None
  }

  /** The record handed to `saveLocalProduct`; id and times are assigned by the store. */
  function Draft(body: ProductBody): Product
    requires ToNumber(body.price).Some? && ToNumber(body.stockQuantity).Some?
  {
    Product(
      0, body.name, body.slug, body.description, body.shortDescription,
      ToNumber(body.price).value,
      if Truthy(body.oldPrice) then Some(ToNumber(body.oldPrice)) else None,
      body.sku, ToNumber(body.stockQuantity).value,
      IdField(body.brandId), IdField(body.categoryId),
      Truthy(body.isFeatured), Truthy(body.isNew), Truthy(body.isRecommended), Truthy(body.isActive),
      0, 0,
      body.images.GetOr([]),
      Lookup(Brands, body.brandId), Lookup(Categories, body.categoryId))
  }

  /**
   * The old price is stored only when truthy, and then as `Number` reads it:
   * text that is neither blank nor a number becomes `NaN`.
   */
  lemma DraftOldPrice(body: ProductBody)
    requires ToNumber(body.price).Some? && ToNumber(body.stockQuantity).Some?
    ensures !Truthy(body.oldPrice) ==> Draft(body).oldPrice == None
    ensures body.oldPrice.JNumber? && body.oldPrice.n != 0 ==> Draft(body).oldPrice == Some(Some(body.oldPrice.n))
    ensures body.oldPrice.JString? && Trim(body.oldPrice.s) != [] && !NumericText(Trim(body.oldPrice.s))
            ==> Draft(body).oldPrice == Some(None)
  {
    if body.oldPrice.JString? && Trim(body.oldPrice.s) != [] {
      TrimEmptyIff(body.oldPrice.s);
    }
  }

  datatype Created = Created(id: int, product: Product)

  /**
   * POST: saves the coerced product at the end of the store and responds
   * with the id the store assigned.
   */
  method CreateProduct(store: Store, body: ProductBody, now: Timestamp) returns (resp: Created)
    requires ToNumber(body.price).Some? && ToNumber(body.stockQuantity).Some?
    modifies store`products
    ensures resp.product == Draft(body).(id := resp.id, createdAt := now, updatedAt := now)
    ensures resp.id == NextId(ProductIds(old(store.products)))
    ensures forall p :: p in old(store.products) ==> p.id < resp.id
    ensures store.products == old(store.products) + [resp.product]
  {
    var saved := store.SaveProduct(Draft(body), now);
    resp := Created(saved.id, saved);
  }
}

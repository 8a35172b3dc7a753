/**
 * `GET /api/filters` (app/api/filters/route.ts): the facets the catalogue
 * offers — active brands and categories with their number of active
 * products (those with none are left out), the price range and the number
 * of active products.
 */
module FiltersApi {
  import opened Wrappers
  import opened SeqUtil
  import opened Records

  datatype BrandFacet = BrandFacet(brand: Brand, productCount: nat)

  datatype CategoryFacet = CategoryFacet(category: Category, productCount: nat)

  datatype PriceRange = PriceRange(min: int, max: int)

  /**
   * The response body. `priceRange` is `None` when no product is active: the
   * source then computes `Math.min()` and `Math.max()` of nothing.
   */
  datatype Facets = Facets(
    brands: seq<BrandFacet>,
    categories: seq<CategoryFacet>,
    priceRange: Option<PriceRange>,
    totalProducts: nat)

  function ActiveProducts(products: seq<Product>): seq<Product> {
    Filter((p: Product) => p.isActive, products)
  }

  /** `products.filter((product) => product.brand_id === id).length`. */
  function CountOfBrand(products: seq<Product>, id: int): (n: nat)
    ensures n <= |products|
  {
    |Filter((p: Product) => p.brandId == Some(id), products)|
  }

  /** `products.filter((product) => product.category_id === id).length`. */
  function CountOfCategory(products: seq<Product>, id: int): (n: nat)
    ensures n <= |products|
  {
    |Filter((p: Product) => p.categoryId == Some(id), products)|
  }

  /** `Math.min(...xs)` for a non-empty list. */
  function MinOf(xs: seq<int>): (m: int)
    requires xs != []
    ensures m in xs && forall x :: x in xs ==> m <= x
  {
    if |xs| == 1 then xs[0]
    else
      var rest := MinOf(xs[1..]);
      assert forall x :: x in xs ==> x == xs[0] || x in xs[1..];
      if xs[0] <= rest then xs[0] else rest
  }

  /** `Math.max(...xs)` for a non-empty list. */
  function MaxOf(xs: seq<int>): (m: int)
    requires xs != []
    ensures m in xs && forall x :: x in xs ==> x <= m
  {
    if |xs| == 1 then xs[0]
    else
      var rest := MaxOf(xs[1..]);
      assert forall x :: x in xs ==> x == xs[0] || x in xs[1..];
      if xs[0] >= rest then xs[0] else rest
  }

  function BrandFacets(products: seq<Product>, brands: seq<Brand>): seq<BrandFacet> {
    var counted := Map((b: Brand) => BrandFacet(b, CountOfBrand(products, b.id)), Filter((b: Brand) => b.isActive, brands));
    Filter((f: BrandFacet) => f.productCount > 0, counted)
  }

  function CategoryFacets(products: seq<Product>, categories: seq<Category>): seq<CategoryFacet> {
    var counted := Map((c: Category) => CategoryFacet(c, CountOfCategory(products, c.id)),
                       Filter((c: Category) => c.isActive, categories));
    Filter((f: CategoryFacet) => f.productCount > 0, counted)
  }

  function Prices(products: seq<Product>): seq<int> {
    Map((p: Product) => p.price, products)
  }

  /** The route handler over the stored products, brands and categories. */
  function GetFacets(products: seq<Product>, brands: seq<Brand>, categories: seq<Category>): Facets {
    var active := ActiveProducts(products);
    var prices := Prices(active);
    Facets(
      BrandFacets(active, brands),
      CategoryFacets(active, categories),
      if prices == [] then None else Some(PriceRange(MinOf(prices), MaxOf(prices))),
      |active|)
  }

  /**
   * A brand is offered exactly when it is active and has an active product;
   * its count is the number of its active products.
   */
  lemma BrandFacetsExact(products: seq<Product>, brands: seq<Brand>, b: Brand)
    ensures var r := GetFacets(products, brands, []).brands;
      (exists f :: f in r && f.brand == b)
        <==> b in brands && b.isActive && CountOfBrand(ActiveProducts(products), b.id) > 0
    ensures var r := GetFacets(products, brands, []).brands;
      forall f :: f in r ==> f.productCount == CountOfBrand(ActiveProducts(products), f.brand.id)
  {
    var active := ActiveProducts(products);
    var activeBrands := Filter((x: Brand) => x.isActive, brands);
    var counted := Map((x: Brand) => BrandFacet(x, CountOfBrand(active, x.id)), activeBrands);
    FilterMembers((x: Brand) => x.isActive, brands);
    FilterMembers((f: BrandFacet) => f.productCount > 0, counted);
    if b in brands && b.isActive && CountOfBrand(active, b.id) > 0 {
      var i :| 0 <= i < |activeBrands| && activeBrands[i] == b;
      assert counted[i] == BrandFacet(b, CountOfBrand(active, b.id));
      assert counted[i] in BrandFacets(active, brands);
    }
    forall f | f in counted ensures f.productCount == CountOfBrand(active, f.brand.id) && f.brand in activeBrands {
      var i :| 0 <= i < |counted| && counted[i] == f;
    }
  }

  /**
   * A category is offered exactly when it is active and has an active
   * product; its count is the number of its active products.
   */
  lemma CategoryFacetsExact(products: seq<Product>, categories: seq<Category>, c: Category)
    ensures var r := GetFacets(products, [], categories).categories;
      (exists f :: f in r && f.category == c)
        <==> c in categories && c.isActive && CountOfCategory(ActiveProducts(products), c.id) > 0
    ensures var r := GetFacets(products, [], categories).categories;
      forall f :: f in r ==> f.productCount == CountOfCategory(ActiveProducts(products), f.category.id)
  {
    var active := ActiveProducts(products);
    var activeCategories := Filter((x: Category) => x.isActive, categories);
    var counted := Map((x: Category) => CategoryFacet(x, CountOfCategory(active, x.id)), activeCategories);
    FilterMembers((x: Category) => x.isActive, categories);
    FilterMembers((f: CategoryFacet) => f.productCount > 0, counted);
    if c in categories && c.isActive && CountOfCategory(active, c.id) > 0 {
      var i :| 0 <= i < |activeCategories| && activeCategories[i] == c;
      assert counted[i] == CategoryFacet(c, CountOfCategory(active, c.id));
      assert counted[i] in CategoryFacets(active, categories);
    }
    forall f | f in counted
      ensures f.productCount == CountOfCategory(active, f.category.id) && f.category in activeCategories
    {
      var i :| 0 <= i < |counted| && counted[i] == f;
    }
  }

  /**
   * The price range is present exactly when some product is active, and then
   * it is the least and the greatest active price.
   */
  lemma PriceRangeBounds(products: seq<Product>, brands: seq<Brand>, categories: seq<Category>)
    ensures var r := GetFacets(products, brands, categories);
      && (r.priceRange.Some? <==> r.totalProducts > 0)
      && (r.priceRange.Some? ==>
            && (forall p :: p in products && p.isActive ==> r.priceRange.value.min <= p.price <= r.priceRange.value.max)
            && (exists p :: p in products && p.isActive && p.price == r.priceRange.value.min)
            && (exists p :: p in products && p.isActive && p.price == r.priceRange.value.max))
  {
    var active := ActiveProducts(products);
    var prices := Prices(active);
    FilterMembers((p: Product) => p.isActive, products);
    if prices != [] {
      var lo := MinOf(prices);
      var hi := MaxOf(prices);
      forall p | p in products && p.isActive ensures lo <= p.price <= hi {
        var i :| 0 <= i < |active| && active[i] == p;
        assert prices[i] == p.price && prices[i] in prices;
      }
      var i :| 0 <= i < |prices| && prices[i] == lo;
      assert active[i] in active;
      var j :| 0 <= j < |prices| && prices[j] == hi;
      assert active[j] in active;
    }
  }
}

/**
 * The brands page (app/brands/page.tsx): every active brand with the number
 * of its active products, most products first, and a badge with the number
 * of brands listed.
 */
module BrandsPage {
  import opened Wrappers
  import opened SeqUtil
  import opened Records
  import opened Sorting

  /** `{ ...brand, productCount }`. */
  datatype BrandWithCount = BrandWithCount(brand: Brand, productCount: nat)

  predicate IsActiveBrand(b: Brand) {
    b.isActive
  }

  /** `product.brand_id === id && product.is_active`. */
  predicate OfBrand(id: int, p: Product) {
    p.brandId == Some(id) && p.isActive
  }

  /** The number of active products of the brand with this id. */
  function ActiveCount(products: seq<Product>, id: int): (n: nat)
    ensures n <= |products|
  {
    |Filter((p: Product) => OfBrand(id, p), products)|
  }

  function WithCount(products: seq<Product>, b: Brand): BrandWithCount {
    BrandWithCount(b, ActiveCount(products, b.id))
  }

  /** `(a, b) => b.productCount - a.productCount`. */
  function ByCount(a: BrandWithCount, b: BrandWithCount): int {
    b.productCount - a.productCount
  }

  function CountOf(e: BrandWithCount): int {
    -(e.productCount as int)
  }

  /** The filter and map before the sort. */
  function Counted(brands: seq<Brand>, products: seq<Product>): seq<BrandWithCount> {
    Map((b: Brand) => WithCount(products, b), Filter(IsActiveBrand, brands))
  }

  /**
   * The list the page shows; the badge (`{brands.length} брендов`) counts
   * it, which is the number of active brands.
   */
  function BrandsWithCount(brands: seq<Brand>, products: seq<Product>): (r: seq<BrandWithCount>)
    ensures |r| == |Filter(IsActiveBrand, brands)|
  {
    SortBy(ByCount, Counted(brands, products))
  }

  lemma ByCountConsistent()
    ensures Consistent(ByCount)
  {
  }

  /**
   * The list holds the active brands each paired with its count, as often
   * as they are stored, and nothing else.
   */
  lemma {:induction false} SameEntries(brands: seq<Brand>, products: seq<Product>)
    ensures multiset(BrandsWithCount(brands, products)) == multiset(Counted(brands, products))
  {
    ByCountConsistent();
    SortBySorted(ByCount, Counted(brands, products));
  }

  /**
   * A brand is listed exactly when it is stored and active, whether or not
   * it has products, and every listed count is the number of active products
   * with that brand id.
   */
  lemma ListedExactly(brands: seq<Brand>, products: seq<Product>, b: Brand)
    ensures var r := BrandsWithCount(brands, products);
      (exists e :: e in r && e.brand == b) <==> b in brands && b.isActive
    ensures var r := BrandsWithCount(brands, products);
      forall e :: e in r ==> e.productCount == ActiveCount(products, e.brand.id)
  {
    var r := BrandsWithCount(brands, products);
    var active := Filter(IsActiveBrand, brands);
    var counted := Counted(brands, products);
    SameEntries(brands, products);
    FilterMembers(IsActiveBrand, brands);
    forall e ensures e in r <==> e in counted {
      assert e in r <==> e in multiset(r);
    }
    if b in brands && b.isActive {
      var i :| 0 <= i < |active| && active[i] == b;
      assert counted[i] == WithCount(products, b);
    }
    forall e | e in counted ensures e.productCount == ActiveCount(products, e.brand.id) && e.brand in active {
      var i :| 0 <= i < |counted| && counted[i] == e;
    }
  }

  /** Brands come most products first: counts never increase along the list. */
  lemma CountsNonIncreasing(brands: seq<Brand>, products: seq<Product>)
    ensures var r := BrandsWithCount(brands, products);
      forall i, j :: 0 <= i <= j < |r| ==> r[i].productCount >= r[j].productCount
  {
    ByCountConsistent();
    SortBySorted(ByCount, Counted(brands, products));
    KeyOrderedThroughout(CountOf, BrandsWithCount(brands, products));
  }

  /** The sort is stable: when every brand has the same count, the stored order is kept. */
  lemma EqualCountsKeepOrder(brands: seq<Brand>, products: seq<Product>)
    requires var c := Counted(brands, products);
      forall i, j :: 0 <= i < |c| && 0 <= j < |c| ==> c[i].productCount == c[j].productCount
    ensures BrandsWithCount(brands, products) == Counted(brands, products)
  {
    SortByEqualKeepsOrder(ByCount, Counted(brands, products));
  }
}

/**
 * The new-arrivals page (app/new/page.tsx): every stored product that is
 * both new and active, in stored order, under a badge with their number.
 */
module NewPage {
  import opened SeqUtil
  import opened Records

  /** `product.is_new && product.is_active`. */
  predicate Qualifies(p: Product) {
    p.isNew && p.isActive
  }

  /** `products.filter(...)`, with no cap. */
  function NewProducts(products: seq<Product>): seq<Product> {
    Filter(Qualifies, products)
  }

  /** The badge: `{newProducts.length} новых товаров`. */
  function Badge(shown: seq<Product>): nat {
    |shown|
  }

  /**
   * A product is shown exactly when it is stored, new and active, stored
   * order is kept, and the badge counts the products shown.
   */
  lemma NewProductsMeaning(products: seq<Product>)
    ensures var r := NewProducts(products);
      && (forall p :: p in r <==> p in products && p.isNew && p.isActive)
      && IsSubsequence(r, products)
      && Badge(r) == |r| <= |products|
  {
    FilterMembers(Qualifies, products);
    FilterIsSubsequence(Qualifies, products);
  }

  /** With nothing qualifying the page shows the empty state and a badge of 0. */
  lemma NothingNew(products: seq<Product>)
    requires forall i :: 0 <= i < |products| ==> !Qualifies(products[i])
    ensures NewProducts(products) == [] && Badge(NewProducts(products)) == 0
  {
    FilterNone(Qualifies, products);
  }
}

/**
 * The featured block of the home page (components/featured-products.tsx):
 * the first eight stored products that are both featured and active.
 */
module FeaturedProducts {
  import opened SeqUtil
  import opened Records

  /** How many products the block shows at most. */
  const Cap: nat := 8

  /** `product.is_featured && product.is_active`. */
  predicate Qualifies(p: Product) {
    p.isFeatured && p.isActive
  }

  /** `products.filter(...).slice(0, 8)`. */
  function Featured(products: seq<Product>): (r: seq<Product>)
    ensures |r| <= Cap
  {
    Take(Filter(Qualifies, products), Cap)
  }

  /**
   * Every shown product is featured and active; the shown products are the
   * first qualifying ones in stored order, eight of them or all of them
   * when there are fewer, and a subsequence of the stored products.
   */
  lemma FeaturedMeaning(products: seq<Product>)
    ensures var r := Featured(products);
      && (forall p :: p in r ==> p in products && p.isFeatured && p.isActive)
      && r == Filter(Qualifies, products)[..|r|]
      && |r| == (if |Filter(Qualifies, products)| < Cap then |Filter(Qualifies, products)| else Cap)
      && (|Filter(Qualifies, products)| <= Cap ==> r == Filter(Qualifies, products))
      && IsSubsequence(r, products)
  {
    var q := Filter(Qualifies, products);
    var r := Featured(products);
    FilterMembers(Qualifies, products);
    forall p | p in r ensures p in q {
      var i :| 0 <= i < |r| && r[i] == p;
      assert q[i] == p;
    }
    FilterIsSubsequence(Qualifies, products);
    PrefixIsSubsequence(r, q);
    SubsequenceTrans(r, q, products);
  }
}

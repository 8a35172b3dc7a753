/**
 * The category tiles of the home page (components/modern-categories.tsx):
 * the number of active products is counted for every stored category, and
 * a tile with an icon, the name and that number is shown for each active
 * category.
 */
module ModernCategories {
  import opened Wrappers
  import opened SeqUtil
  import opened Records

  /** The icon of a slug the table does not know. */
  const Fallback: string := "🎵"

  /** `categoryIcons`: slug to emoji. */
  const IconTable: map<string, string> := map[
    "acoustic-guitars" := "🎸",
    "electric-guitars" := "🎸",
    "bass-guitars" := "🎸",
    "keyboards" := "🎹",
    "drums" := "🥁",
    "microphones" := "🎤",
    "headphones" := "🎧",
    "wind-instruments" := "🎺",
    "string-instruments" := "🎻",
    "dj-equipment" := "🎛️"]

  /** `categoryIcons[category.slug] || "🎵"`; every mapped icon is a non-empty string. */
  function Icon(slug: string): (r: string)
    ensures r != ""
  {
    if slug in IconTable then IconTable[slug] else Fallback
  }

  /** The note appears exactly for the slugs the table does not map. */
  lemma IconFallback(slug: string)
    ensures Icon(slug) == Fallback <==> slug !in IconTable
    ensures slug in IconTable ==> Icon(slug) == IconTable[slug]
  {
    if slug in IconTable {
      assert slug in {"acoustic-guitars", "electric-guitars", "bass-guitars", "keyboards", "drums",
                       "microphones", "headphones", "wind-instruments", "string-instruments", "dj-equipment"};
    }
  }

  predicate IsActiveCategory(c: Category) {
    c.isActive
  }

  /** `product.category_id === id && product.is_active`. */
  predicate InCategory(id: int, p: Product) {
    p.categoryId == Some(id) && p.isActive
  }

  /** The number of active products in the category with this id. */
  function ActiveCount(products: seq<Product>, id: int): (n: nat)
    ensures n <= |products|
  {
    |Filter((p: Product) => InCategory(id, p), products)|
  }

  /**
   * `counts` holds an entry for the id of every given category, active or
   * not, and for nothing else, and each entry is that id's active count.
   */
  ghost predicate CountsFor(counts: map<int, nat>, categories: seq<Category>, products: seq<Product>) {
    && (forall id :: id in counts <==> exists c :: c in categories && c.id == id)
    && (forall id :: id in counts ==> counts[id] == ActiveCount(products, id))
  }

  /** The `forEach` that fills `counts`, one category at a time. */
  method CountCategories(categories: seq<Category>, products: seq<Product>) returns (counts: map<int, nat>)
    ensures CountsFor(counts, categories, products)
  {
    counts := map[];
    for i := 0 to |categories|
      invariant CountsFor(counts, categories[..i], products)
    {
      var c := categories[i];
      assert categories[..i + 1] == categories[..i] + [c];
      counts := counts[c.id := ActiveCount(products, c.id)];
    }
    assert categories[..|categories|] == categories;
  }

  /** `categoryCounts[category.id] || 0`: a missing entry, like a zero one, shows as 0. */
  function ShownCount(counts: map<int, nat>, id: int): (n: nat)
    ensures n == 0 <==> id !in counts || counts[id] == 0
    ensures n != 0 ==> n == counts[id]
  {
    if id in counts && counts[id] != 0 then counts[id] else 0
  }

  datatype Tile = Tile(category: Category, icon: string, productCount: nat)

  function TileOf(counts: map<int, nat>, c: Category): Tile {
    Tile(c, Icon(c.slug), ShownCount(counts, c.id))
  }

  /** `allCategories.filter((cat) => cat.is_active)`. */
  function Visible(categories: seq<Category>): (r: seq<Category>)
    ensures |r| <= |categories|
    ensures IsSubsequence(r, categories)
  {
    FilterIsSubsequence(IsActiveCategory, categories);
    Filter(IsActiveCategory, categories)
  }

  function Tiles(categories: seq<Category>, counts: map<int, nat>): seq<Tile> {
    Map((c: Category) => TileOf(counts, c), Visible(categories))
  }

  /**
   * With the counts the loop computes, the tiles are the active categories
   * in stored order, each showing its number of active products and its icon.
   */
  lemma TilesShowCounts(categories: seq<Category>, products: seq<Product>, counts: map<int, nat>)
    requires CountsFor(counts, categories, products)
    ensures var r := Tiles(categories, counts);
      && |r| == |Visible(categories)|
      && IsSubsequence(Visible(categories), categories)
      && forall i :: 0 <= i < |r| ==>
           && r[i].category == Visible(categories)[i]
           && r[i].category.isActive
           && r[i].productCount == ActiveCount(products, r[i].category.id)
           && r[i].icon == Icon(r[i].category.slug)
  {
    var vis := Visible(categories);
    FilterIsSubsequence(IsActiveCategory, categories);
    FilterMembers(IsActiveCategory, categories);
    forall i | 0 <= i < |vis| ensures vis[i].id in counts && vis[i].isActive {
      assert vis[i] in vis;
    }
  }

  /** Exactly the active stored categories get a tile; an inactive one is counted but not shown. */
  lemma TileIffActive(categories: seq<Category>, counts: map<int, nat>, c: Category)
    ensures (exists t :: t in Tiles(categories, counts) && t.category == c) <==> c in categories && c.isActive
  {
    var vis := Visible(categories);
    var r := Tiles(categories, counts);
    FilterMembers(IsActiveCategory, categories);
    if c in categories && c.isActive {
      var i :| 0 <= i < |vis| && vis[i] == c;
      assert r[i].category == c;
    }
    forall t | t in r ensures t.category in vis {
      var i :| 0 <= i < |r| && r[i] == t;
    }
  }
}

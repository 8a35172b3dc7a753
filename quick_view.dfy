/**
 * components/product-quick-view.tsx: the quantity stepper and the
 * "add to cart" and "add to favorites" buttons, which write the browser
 * keys `cart` and `favorites` (separate from the store's own cart).
 */
module QuickView {
  import opened Wrappers
  import opened SeqUtil
  import opened Records

  /** An entry under the `cart` key: the whole product plus a quantity (`{ ...product, quantity }`). */
  datatype LegacyEntry = LegacyEntry(product: Product, quantity: int)

  /** The "-" handler: one less, never below 1. */
  function Decrement(quantity: int): (r: int)
    ensures r >= 1
    ensures quantity > 1 ==> r == quantity - 1
  {
    if quantity - 1 > 1 then quantity - 1 else 1
  }

  /** The "+" handler: one more, never above the stock. */
  function Increment(quantity: int, stock: int): (r: int)
    ensures r <= stock
    ensures quantity < stock ==> r == quantity + 1
  {
    if quantity + 1 < stock then quantity + 1 else stock
  }

  /** The stepper keeps the quantity within [1, stock] whenever its buttons are enabled. */
  lemma StepperStaysInRange(quantity: int, stock: int)
    requires 1 <= quantity <= stock
    ensures quantity > 1 ==> 1 <= Decrement(quantity) <= stock
    ensures quantity < stock ==> 1 <= Increment(quantity, stock) <= stock
  {
  }

  /** The position of the first entry for product `id`. */
  function EntryIndex(cart: seq<LegacyEntry>, id: int): (r: Option<nat>)
    ensures r.Some? ==> r.value < |cart| && cart[r.value].product.id == id
    ensures r.None? ==> forall j :: 0 <= j < |cart| ==> cart[j].product.id != id
  {
    FirstIndex((e: LegacyEntry) => e.product.id == id, cart)
  }

  /** The total quantity the `cart` key holds for product `id`. */
  function QuantityOf(cart: seq<LegacyEntry>, id: int): int {
    if cart == [] then 0
    else (if cart[0].product.id == id then cart[0].quantity else 0) + QuantityOf(cart[1..], id)
  }

  /** handleAddToCart on the stored list: raise the first matching entry, or append the product. */
  function AddEntry(cart: seq<LegacyEntry>, product: Product, quantity: int): seq<LegacyEntry> {
    match EntryIndex(cart, product.id)
    case Some(i) => cart[i := cart[i].(quantity := cart[i].quantity + quantity)]
    case None => cart + [LegacyEntry(product, quantity)]
  }

  lemma {:induction false} QuantityOfAppend(cart: seq<LegacyEntry>, e: LegacyEntry, id: int)
    ensures QuantityOf(cart + [e], id) == QuantityOf(cart, id) + (if e.product.id == id then e.quantity else 0)
  {
    if cart != [] {
      assert (cart + [e])[1..] == cart[1..] + [e];
      QuantityOfAppend(cart[1..], e, id);
    }
  }

  lemma {:induction false} QuantityOfRaise(cart: seq<LegacyEntry>, i: nat, q: int, id: int)
    requires i < |cart|
    ensures QuantityOf(cart[i := cart[i].(quantity := cart[i].quantity + q)], id) ==
      QuantityOf(cart, id) + (if cart[i].product.id == id then q else 0)
  {
    if i > 0 {
      assert cart[i := cart[i].(quantity := cart[i].quantity + q)][1..] == cart[1..][i - 1 := cart[i].(quantity := cart[i].quantity + q)];
      QuantityOfRaise(cart[1..], i - 1, q, id);
    } else {
      assert cart[i := cart[i].(quantity := cart[i].quantity + q)][1..] == cart[1..];
    }
  }

  /** Adding raises the stored quantity of this product by exactly `quantity` and leaves every other product's alone. */
  lemma AddEntryQuantities(cart: seq<LegacyEntry>, product: Product, quantity: int, id: int)
    ensures QuantityOf(AddEntry(cart, product, quantity), id) ==
      QuantityOf(cart, id) + (if id == product.id then quantity else 0)
  {
    match EntryIndex(cart, product.id)
    case Some(i) => QuantityOfRaise(cart, i, quantity, id);
    case None => QuantityOfAppend(cart, LegacyEntry(product, quantity), id);
  }

  /** Adding keeps "at most one entry per product". */
  lemma AddEntryDistinct(cart: seq<LegacyEntry>, product: Product, quantity: int)
    requires forall i, j :: 0 <= i < j < |cart| ==> cart[i].product.id != cart[j].product.id
    ensures var r := AddEntry(cart, product, quantity);
      forall i, j :: 0 <= i < j < |r| ==> r[i].product.id != r[j].product.id
  {
  }

  /** handleAddToFavorites on the stored list: append the id only when absent. */
  function AddFavorite(favorites: seq<int>, id: int): (r: seq<int>)
    ensures id in r
    ensures forall x :: x in r <==> x in favorites || x == id
  {
    if id in favorites then favorites else favorites + [id]
  }

  /** Adding a favorite twice is adding it once. */
  lemma AddFavoriteIdempotent(favorites: seq<int>, id: int)
    ensures AddFavorite(AddFavorite(favorites, id), id) == AddFavorite(favorites, id)
  {
  }

  /** The number of copies of `x` in the list. */
  function Copies(s: seq<int>, x: int): nat {
    multiset(s)[x]
  }

  /** An id that was not a favorite is stored exactly once afterwards. */
  lemma AddFavoriteOnce(favorites: seq<int>, id: int)
    requires id !in favorites
    ensures Copies(AddFavorite(favorites, id), id) == 1
  {
    assert multiset(favorites)[id] == 0;
    assert multiset(favorites + [id]) == multiset(favorites) + multiset{id};
  }

  /** The `cart` and `favorites` browser keys. */
  class BrowserKeys {
    var cart: seq<LegacyEntry>
    var favorites: seq<int>

    constructor (cart: seq<LegacyEntry>, favorites: seq<int>)
      ensures this.cart == cart && this.favorites == favorites
    {
      this.cart := cart;
      this.favorites := favorites;
    }
  }

  /** The quick-view dialog for one product. */
  class Dialog {
    const product: Product
    const keys: BrowserKeys
    var quantity: int

    /** The quantity is at least 1, and at most the stock when there is stock. */
    predicate Valid()
      reads this
    {
      1 <= quantity && (product.stockQuantity >= 1 ==> quantity <= product.stockQuantity)
    }

    constructor (product: Product, keys: BrowserKeys)
      ensures this.product == product && this.keys == keys && quantity == 1 && Valid()
    {
      this.product := product;
      this.keys := keys;
      quantity := 1;
    }

    /** The "-" button, disabled at quantity 1 or less. */
    method PressDecrement()
      modifies this`quantity
      ensures quantity == if old(quantity) <= 1 then old(quantity) else Decrement(old(quantity))
      ensures old(Valid()) ==> Valid()
    {
      if quantity > 1 {
        quantity := if quantity - 1 > 1 then quantity - 1 else 1;
      }
    }

    /** The "+" button, disabled once the quantity reaches the stock. */
    method PressIncrement()
      modifies this`quantity
      ensures quantity == if old(quantity) >= product.stockQuantity then old(quantity)
                          else Increment(old(quantity), product.stockQuantity)
      ensures old(Valid()) ==> Valid()
    {
      if quantity < product.stockQuantity {
        quantity := if quantity + 1 < product.stockQuantity then quantity + 1 else product.stockQuantity;
      }
    }

    /** The "В корзину" button: disabled at zero stock, otherwise handleAddToCart with the chosen quantity. */
    method PressAddToCart()
      modifies keys`cart
      ensures keys.cart == if product.stockQuantity == 0 then old(keys.cart) else AddEntry(old(keys.cart), product, quantity)
    {
      if product.stockQuantity != 0 {
        var existing := EntryIndex(keys.cart, product.id);
        if existing.Some? {
          var i := existing.value;
          keys.cart := keys.cart[i := keys.cart[i].(quantity := keys.cart[i].quantity + quantity)];
        } else {
          keys.cart := keys.cart + [LegacyEntry(product, quantity)];
        }
      }
    }

    /** The heart button: handleAddToFavorites. */
    method PressAddToFavorites()
      modifies keys`favorites
      ensures keys.favorites == AddFavorite(old(keys.favorites), product.id)
    {
      if product.id !in keys.favorites {
        keys.favorites := keys.favorites + [product.id];
      }
    }
  }
}

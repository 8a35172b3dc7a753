/**
 * The browser-side record store of lib/local-storage.ts. Each stored list is
 * a field that the operations read, modify and write back; JSON
 * serialisation, the `cartUpdated` window event and the server-side fallback
 * to the seed arrays are not modelled, and the clock is a parameter.
 */
module LocalStore {
  import opened Wrappers
  import opened SeqUtil
  import opened Records

  /** `Math.max(...ids, 0)`. */
  function MaxOrZero(ids: seq<int>): (m: int)
    ensures m >= 0
    ensures forall i :: 0 <= i < |ids| ==> ids[i] <= m
    ensures m == 0 || m in ids
  {
    if ids == [] then 0
    else
      var rest := MaxOrZero(ids[1..]);
      if ids[0] > rest then ids[0] else rest
  }

  function ProductIds(ps: seq<Product>): seq<int> {
    Map((p: Product) => p.id, ps)
  }

  function OrderIds(os: seq<Order>): seq<int> {
    Map((o: Order) => o.id, os)
  }

  /** The id the store allocates: one more than the largest id in use, 1 for an empty list. */
  function NextId(ids: seq<int>): (id: int)
    ensures id >= 1
    ensures forall i :: 0 <= i < |ids| ==> ids[i] < id
    ensures ids == [] ==> id == 1
  {
    MaxOrZero(ids) + 1
  }

  /** `products.findIndex((p) => p.id === id)`. */
  function ProductIndex(ps: seq<Product>, id: int): (r: Option<nat>)
    ensures r.Some? ==> r.value < |ps| && ps[r.value].id == id
    ensures r.Some? ==> forall j :: 0 <= j < r.value ==> ps[j].id != id
    ensures r.None? <==> forall j :: 0 <= j < |ps| ==> ps[j].id != id
  {
    FirstIndex((p: Product) => p.id == id, ps)
  }

  /** `orders.findIndex((o) => o.id === id)`. */
  function OrderIndex(os: seq<Order>, id: int): (r: Option<nat>)
    ensures r.Some? ==> r.value < |os| && os[r.value].id == id
    ensures r.Some? ==> forall j :: 0 <= j < r.value ==> os[j].id != id
    ensures r.None? <==> forall j :: 0 <= j < |os| ==> os[j].id != id
  {
    FirstIndex((o: Order) => o.id == id, os)
  }

  /** `cart.findIndex((item) => item.product_id === productId)`. */
  function CartIndex(cart: seq<CartItem>, productId: int): (r: Option<nat>)
    ensures r.Some? ==> r.value < |cart| && cart[r.value].productId == productId
    ensures r.Some? ==> forall j :: 0 <= j < r.value ==> cart[j].productId != productId
    ensures r.None? <==> forall j :: 0 <= j < |cart| ==> cart[j].productId != productId
  {
    FirstIndex((item: CartItem) => item.productId == productId, cart)
  }

  /** `products.filter((p) => p.id !== id)`. */
  function WithoutProduct(ps: seq<Product>, id: int): seq<Product> {
    Filter((p: Product) => p.id != id, ps)
  }

  /** `cart.filter((item) => item.product_id !== productId)`. */
  function WithoutCartEntry(cart: seq<CartItem>, productId: int): seq<CartItem> {
    Filter((item: CartItem) => item.productId != productId, cart)
  }

  /** `cart.reduce((total, item) => total + item.quantity, 0)`. */
  function CartQuantity(cart: seq<CartItem>): int {
    Sum(Map((item: CartItem) => item.quantity, cart))
  }

  /** Each product has at most one cart entry. */
  ghost predicate UniqueProducts(cart: seq<CartItem>) {
    UniqueBy((item: CartItem) => item.productId, cart)
  }

  /** An empty cart holds nothing, and a cart's count is its first entry's quantity plus the rest's. */
  lemma CartQuantityCons(cart: seq<CartItem>)
    ensures cart == [] ==> CartQuantity(cart) == 0
    ensures cart != [] ==> CartQuantity(cart) == cart[0].quantity + CartQuantity(cart[1..])
  {
    if cart != [] {
      var qs := Map((item: CartItem) => item.quantity, cart);
      SumCons(qs);
      assert qs[1..] == Map((item: CartItem) => item.quantity, cart[1..]);
    }
  }

  /** Changing one entry's quantity changes the count by the difference. */
  lemma CartQuantityUpdate(cart: seq<CartItem>, i: nat, q: int)
    requires i < |cart|
    ensures CartQuantity(cart[i := cart[i].(quantity := q)]) == CartQuantity(cart) - cart[i].quantity + q
  {
    var f := (item: CartItem) => item.quantity;
    assert Map(f, cart[i := cart[i].(quantity := q)]) == Map(f, cart)[i := q];
    SumUpdate(Map(f, cart), i, q);
  }

  /** Appending an entry raises the count by its quantity. */
  lemma CartQuantityAppend(cart: seq<CartItem>, item: CartItem)
    ensures CartQuantity(cart + [item]) == CartQuantity(cart) + item.quantity
  {
    var f := (item: CartItem) => item.quantity;
    assert Map(f, cart + [item]) == Map(f, cart) + [item.quantity];
    SumAppend(Map(f, cart), [item.quantity]);
    assert Sum([item.quantity]) == item.quantity by { assert [item.quantity][..0] == []; }
  }

  /** Dropping one entry lowers the count by its quantity. */
  lemma CartQuantityRemove(cart: seq<CartItem>, i: nat)
    requires i < |cart|
    ensures CartQuantity(cart[..i] + cart[i + 1..]) == CartQuantity(cart) - cart[i].quantity
  {
    var f := (item: CartItem) => item.quantity;
    var pre, post := cart[..i], cart[i + 1..];
    assert cart == pre + ([cart[i]] + post);
    MapAppend(f, pre, [cart[i]] + post);
    MapAppend(f, [cart[i]], post);
    MapAppend(f, pre, post);
    SumAppend(Map(f, pre), Map(f, [cart[i]] + post));
    SumAppend(Map(f, pre), Map(f, post));
    SumCons(Map(f, [cart[i]] + post));
    assert Map(f, [cart[i]] + post)[1..] == Map(f, post);
  }

  /** Removing one entry keeps the product ids distinct. */
  lemma UniqueRemove(cart: seq<CartItem>, i: nat)
    requires i < |cart| && UniqueProducts(cart)
    ensures UniqueProducts(cart[..i] + cart[i + 1..])
  {
    var rest := cart[..i] + cart[i + 1..];
    assert forall j :: 0 <= j < |rest| ==> rest[j] == if j < i then cart[j] else cart[j + 1];
  }

  /** Changing one entry's quantity keeps the product ids distinct. */
  lemma UniqueUpdate(cart: seq<CartItem>, i: nat, q: int)
    requires i < |cart| && UniqueProducts(cart)
    ensures UniqueProducts(cart[i := cart[i].(quantity := q)])
  {
  }

  /** Removing a product's entries twice is the same as removing them once. */
  lemma WithoutCartEntryIdempotent(cart: seq<CartItem>, productId: int)
    ensures WithoutCartEntry(WithoutCartEntry(cart, productId), productId) == WithoutCartEntry(cart, productId)
  {
    FilterIdempotent((item: CartItem) => item.productId != productId, cart);
  }

  class Store {
    var products: seq<Product>
    var brands: seq<Brand>
    var categories: seq<Category>
    var orders: seq<Order>
    var cart: seq<CartItem>

    /** A fresh browser: the seed catalogue, no orders, an empty cart. */
    constructor (seedProducts: seq<Product>, seedBrands: seq<Brand>, seedCategories: seq<Category>)
      ensures products == seedProducts && brands == seedBrands && categories == seedCategories
      ensures orders == [] && cart == []
    {
      products, brands, categories := seedProducts, seedBrands, seedCategories;
      orders, cart := [], [];
    }

    /** `getCartCount`. */
    function CartCount(): int
      reads this
    {
      CartQuantity(cart)
    }

    /** `saveLocalProduct`: allocate the next id, stamp both times and append. */
    method SaveProduct(draft: Product, now: Timestamp) returns (saved: Product)
      modifies this`products
      ensures saved == draft.(id := NextId(ProductIds(old(products))), createdAt := now, updatedAt := now)
      ensures products == old(products) + [saved]
      ensures forall i :: 0 <= i < |old(products)| ==> old(products)[i].id < saved.id
    {
      var newId := MaxOrZero(ProductIds(products)) + 1;
      saved := draft.(id := newId, createdAt := now, updatedAt := now);
      products := products + [saved];
    }

    /**
     * `updateLocalProduct`: merge the patch into the first product with the
     * id and stamp its update time; `None` (and no write) when there is none.
     */
    method UpdateProduct(id: int, patch: ProductPatch, now: Timestamp) returns (r: Option<Product>)
      modifies this`products
      ensures ProductIndex(old(products), id).None? ==> r.None? && products == old(products)
      ensures ProductIndex(old(products), id).Some? ==>
        var i := ProductIndex(old(products), id).value;
        && r == Some(MergeProduct(old(products)[i], patch).(updatedAt := now))
        && products == old(products)[i := r.value]
    {
      var index := ProductIndex(products, id);
      if index.None? {
        return None;
      }
      var i := index.value;
      products := products[i := MergeProduct(products[i], patch).(updatedAt := now)];
      r := Some(products[i]);
    }

    /** `deleteLocalProduct`: drop every product with the id; false (and no write) when none has it. */
    method DeleteProduct(id: int) returns (deleted: bool)
      modifies this`products
      ensures deleted <==> exists i :: 0 <= i < |old(products)| && old(products)[i].id == id
      ensures products == if deleted then WithoutProduct(old(products), id) else old(products)
      ensures forall p :: p in products ==> p.id != id || !deleted
    {
      var filtered := WithoutProduct(products, id);
      FilterKeepsAll((p: Product) => p.id != id, products);
      FilterMembers((p: Product) => p.id != id, products);
      if |filtered| == |products| {
        return false;
      }
      products := filtered;
      deleted := true;
    }

    /** `saveLocalOrder`: allocate the next id, stamp the time and put the order first. */
    method SaveOrder(draft: Order, now: Timestamp) returns (saved: Order)
      modifies this`orders
      ensures saved == draft.(id := NextId(OrderIds(old(orders))), createdAt := now)
      ensures orders == [saved] + old(orders)
      ensures forall i :: 0 <= i < |old(orders)| ==> old(orders)[i].id < saved.id
    {
      var newId := MaxOrZero(OrderIds(orders)) + 1;
      saved := draft.(id := newId, createdAt := now);
      orders := [saved] + orders;
    }

    /** `updateLocalOrder`: merge the patch into the first order with the id. */
    method UpdateOrder(id: int, patch: OrderPatch) returns (r: Option<Order>)
      modifies this`orders
      ensures OrderIndex(old(orders), id).None? ==> r.None? && orders == old(orders)
      ensures OrderIndex(old(orders), id).Some? ==>
        var i := OrderIndex(old(orders), id).value;
        && r == Some(MergeOrder(old(orders)[i], patch))
        && orders == old(orders)[i := r.value]
    {
      var index := OrderIndex(orders, id);
      if index.None? {
        return None;
      }
      var i := index.value;
      orders := orders[i := MergeOrder(orders[i], patch)];
      r := Some(orders[i]);
    }

    /**
     * `addToCart` (the caller's default quantity is 1): raise the product's
     * entry by `quantity`, or append a new entry.
     */
    method AddToCart(productId: int, quantity: int)
      modifies this`cart
      ensures CartIndex(old(cart), productId).Some? ==>
        var i := CartIndex(old(cart), productId).value;
        cart == old(cart)[i := old(cart)[i].(quantity := old(cart)[i].quantity + quantity)]
      ensures CartIndex(old(cart), productId).None? ==> cart == old(cart) + [CartItem(productId, quantity)]
      ensures CartCount() == old(CartCount()) + quantity
      ensures UniqueProducts(old(cart)) ==> UniqueProducts(cart)
    {
      var existingIndex := CartIndex(cart, productId);
      if existingIndex.Some? {
        var i := existingIndex.value;
        CartQuantityUpdate(cart, i, cart[i].quantity + quantity);
        cart := cart[i := cart[i].(quantity := cart[i].quantity + quantity)];
      } else {
        CartQuantityAppend(cart, CartItem(productId, quantity));
        cart := cart + [CartItem(productId, quantity)];
      }
    }

    /** `removeFromCart`: drop every entry for the product, keeping the others in order. */
    method RemoveFromCart(productId: int)
      modifies this`cart
      ensures cart == WithoutCartEntry(old(cart), productId)
      ensures forall item :: item in cart <==> item in old(cart) && item.productId != productId
      ensures IsSubsequence(cart, old(cart))
      ensures UniqueProducts(old(cart)) ==> UniqueProducts(cart)
    {
      FilterIsSubsequence((item: CartItem) => item.productId != productId, cart);
      FilterMembers((item: CartItem) => item.productId != productId, cart);
      if UniqueProducts(cart) {
        FilterKeepsUnique((item: CartItem) => item.productId, (item: CartItem) => item.productId != productId, cart);
      }
      cart := WithoutCartEntry(cart, productId);
    }

    /** `clearCart`. */
    method ClearCart()
      modifies this`cart
      ensures cart == [] && CartCount() == 0
    {
      cart := [];
      CartQuantityCons(cart);
    }

    /**
     * `updateCartQuantity`: nothing happens when the product has no entry;
     * otherwise a quantity of 0 or less removes its entry and any other
     * quantity replaces the entry's quantity.
     */
    method UpdateCartQuantity(productId: int, quantity: int)
      modifies this`cart
      ensures CartIndex(old(cart), productId).None? ==> cart == old(cart)
      ensures CartIndex(old(cart), productId).Some? ==>
        var i := CartIndex(old(cart), productId).value;
        && (quantity <= 0 ==> cart == old(cart)[..i] + old(cart)[i + 1..]
                              && CartCount() == old(CartCount()) - old(cart)[i].quantity)
        && (quantity > 0 ==> cart == old(cart)[i := old(cart)[i].(quantity := quantity)]
                             && CartCount() == old(CartCount()) - old(cart)[i].quantity + quantity)
      ensures UniqueProducts(old(cart)) ==> UniqueProducts(cart)
    {
      var index := CartIndex(cart, productId);
      if index.Some? {
        var i := index.value;
        if quantity <= 0 {
          CartQuantityRemove(cart, i);
          if UniqueProducts(cart) {
            UniqueRemove(cart, i);
          }
          cart := cart[..i] + cart[i + 1..];
        } else {
          CartQuantityUpdate(cart, i, quantity);
          if UniqueProducts(cart) {
            UniqueUpdate(cart, i, quantity);
          }
          cart := cart[i := cart[i].(quantity := quantity)];
        }
      }
    }
  }
}

/**
 * app/cart/page.tsx: the cart as the page shows it (stored cart entries
 * joined with their products), its total, the quantity controls and order
 * submission.
 */
module CartPage {
  import opened Wrappers
  import opened SeqUtil
  import opened Records
  import opened LocalStore
  import opened OrdersApi

  /** A cart entry together with its product (`{ ...item, product }`). */
  datatype CartLine = CartLine(item: CartItem, product: Product)

  /** The contact fields of the order form. */
  datatype OrderForm = OrderForm(userName: string, userEmail: string, userPhone: string)

  const EmptyForm := OrderForm("", "", "")

  /** loadCart: each cart entry paired with the first product of its id; entries without one are dropped. */
  function Join(cart: seq<CartItem>, products: seq<Product>): (r: seq<CartLine>)
    ensures |r| <= |cart|
    decreases |cart|
  {
    if cart == [] then []
    else
      var last := cart[|cart| - 1];
      Join(cart[..|cart| - 1], products)
        + match ProductFor(products, last)
          case Some(p) => [CartLine(last, p)]
          case None => []
  }

  function ItemOf(line: CartLine): CartItem {
    line.item
  }

  /** The order request's items: product id and quantity only. */
  function RequestItems(lines: seq<CartLine>): (r: seq<CartItem>)
    ensures |r| == |lines|
  {
    Map(ItemOf, lines)
  }

  /**
   * The shown lines are the cart entries whose product exists, in cart
   * order, each with the product the catalogue finds for its id.
   */
  lemma {:induction false} JoinKeepsKnown(cart: seq<CartItem>, products: seq<Product>)
    ensures RequestItems(Join(cart, products)) == Filter(IsKnown(products), cart)
    ensures forall l :: l in Join(cart, products) ==> ProductFor(products, l.item) == Some(l.product)
    decreases |cart|
  {
    if cart != [] {
      var front := cart[..|cart| - 1];
      var last := cart[|cart| - 1];
      assert cart == front + [last];
      JoinKeepsKnown(front, products);
      FilterAppend(IsKnown(products), front, [last]);
      var tail := match ProductFor(products, last) case Some(p) => [CartLine(last, p)] case None => [];
      MapAppend(ItemOf, Join(front, products), tail);
    }
  }

  function LineAmount(line: CartLine): int {
    line.product.price * line.item.quantity
  }

  /** getTotalAmount: the sum of price times quantity over the shown lines. */
  function CartTotal(lines: seq<CartLine>): int {
    Sum(Map(LineAmount, lines))
  }

  /** The order line the route builds for a shown line. */
  function OrderLineOf(line: CartLine): OrderItem {
    LineFor(line.product, line.item)
  }

  /** The route, fed the cart's request, builds one order line per shown line, in the same order. */
  lemma {:induction false} LinesOfJoin(cart: seq<CartItem>, products: seq<Product>)
    ensures Lines(products, RequestItems(Join(cart, products))) == Map(OrderLineOf, Join(cart, products))
    decreases |cart|
  {
    if cart != [] {
      var front := cart[..|cart| - 1];
      var last := cart[|cart| - 1];
      var before := Join(front, products);
      LinesOfJoin(front, products);
      match ProductFor(products, last)
      case None =>
        assert Join(cart, products) == before;
      case Some(p) =>
        var line := CartLine(last, p);
        assert Join(cart, products) == before + [line];
        MapAppend(ItemOf, before, [line]);
        assert RequestItems(Join(cart, products)) == RequestItems(before) + [last];
        LinesPushKnown(products, RequestItems(before), last, p);
        MapAppend(OrderLineOf, before, [line]);
    }
  }

  /** A request item whose product exists adds its order line at the end. */
  lemma LinesPushKnown(products: seq<Product>, items: seq<CartItem>, item: CartItem, p: Product)
    requires ProductFor(products, item) == Some(p)
    ensures Lines(products, items + [item]) == Lines(products, items) + [LineFor(p, item)]
  {
    var longer := items + [item];
    assert longer[..|longer| - 1] == items;
    assert longer[|longer| - 1] == item;
  }

  /**
   * The total the cart shows is the total the order route computes and
   * stores for the request the cart sends, given the same catalogue, and
   * the route keeps every shown line. The cart reads the browser's
   * catalogue and the route the server's seed catalogue, so for the
   * deployed pair this holds while the two are equal.
   */
  lemma CartTotalMatchesOrder(cart: seq<CartItem>, products: seq<Product>)
    ensures Amount(Lines(products, RequestItems(Join(cart, products)))) == CartTotal(Join(cart, products))
    ensures |Lines(products, RequestItems(Join(cart, products)))| == |Join(cart, products)|
  {
    var shown := Join(cart, products);
    LinesOfJoin(cart, products);
    assert Map(LineTotal, Map(OrderLineOf, shown)) == Map(LineAmount, shown);
  }

  /** The cart page: the store it reads and writes, the shown lines, the order form and the success flag. */
  class CartView {
    const store: Store
    var cartItems: seq<CartLine>
    var orderForm: OrderForm
    var orderSuccess: bool

    constructor (store: Store)
      ensures this.store == store && cartItems == [] && orderForm == EmptyForm && !orderSuccess
    {
      this.store := store;
      cartItems := [];
      orderForm := EmptyForm;
      orderSuccess := false;
    }

    /** loadCart. */
    method LoadCart()
      modifies this`cartItems
      ensures cartItems == Join(store.cart, store.products)
    {
      var lines: seq<CartLine> := [];
      var cart := store.cart;
      for k := 0 to |cart|
        invariant lines == Join(cart[..k], store.products)
      {
        assert cart[..k + 1][..k] == cart[..k];
        var product := ProductFor(store.products, cart[k]);
        if product.Some? {
          lines := lines + [CartLine(cart[k], product.value)];
        }
      }
      assert cart[..|cart|] == cart;
      cartItems := lines;
    }

    /** updateQuantity: a quantity of 0 or less removes the entry, any other sets it; then the lines reload. */
    method UpdateQuantity(productId: int, newQuantity: int)
      modifies store`cart, this`cartItems
      ensures newQuantity <= 0 ==> store.cart == WithoutCartEntry(old(store.cart), productId)
      ensures newQuantity > 0 && CartIndex(old(store.cart), productId).None? ==> store.cart == old(store.cart)
      ensures newQuantity > 0 && CartIndex(old(store.cart), productId).Some? ==>
        var i := CartIndex(old(store.cart), productId).value;
        store.cart == old(store.cart)[i := old(store.cart)[i].(quantity := newQuantity)]
      ensures cartItems == Join(store.cart, store.products)
    {
      if newQuantity <= 0 {
        store.RemoveFromCart(productId);
      } else {
        store.UpdateCartQuantity(productId, newQuantity);
      }
      LoadCart();
    }

    /** removeItem. */
    method RemoveItem(productId: int)
      modifies store`cart, this`cartItems
      ensures store.cart == WithoutCartEntry(old(store.cart), productId)
      ensures cartItems == Join(store.cart, store.products)
    {
      store.RemoveFromCart(productId);
      LoadCart();
    }

    /**
     * handleOrderSubmit. Without a signed-in user nothing is sent and
     * nothing changes. Otherwise the request carries the form and the
     * shown lines' ids and quantities; only when the route accepts it
     * (`accepted`, standing for `response.ok`) are the cart and the form
     * cleared.
     */
    method HandleOrderSubmit(signedIn: bool, accepted: bool) returns (sent: Option<OrderRequest>)
      modifies store`cart, this`cartItems, this`orderForm, this`orderSuccess
      ensures !signedIn ==> sent.None?
      ensures signedIn ==> sent == Some(OrderRequest(old(orderForm).userName, old(orderForm).userEmail,
                                                     old(orderForm).userPhone, RequestItems(old(cartItems))))
      ensures signedIn && accepted ==> store.cart == [] && cartItems == [] && orderSuccess && orderForm == EmptyForm
      ensures !(signedIn && accepted) ==>
        store.cart == old(store.cart) && cartItems == old(cartItems)
        && orderForm == old(orderForm) && orderSuccess == old(orderSuccess)
    {
      if !signedIn {
        return None;
      }
      var shown := cartItems;
      var items: seq<CartItem> := [];
      for k := 0 to |shown|
        invariant items == RequestItems(shown[..k])
        invariant cartItems == shown && orderForm == old(orderForm) && orderSuccess == old(orderSuccess)
        invariant store.cart == old(store.cart)
      {
        assert shown[..k + 1] == shown[..k] + [shown[k]];
        MapAppend(ItemOf, shown[..k], [shown[k]]);
        items := items + [CartItem(shown[k].item.productId, shown[k].item.quantity)];
      }
      assert shown[..|shown|] == shown;
      sent := Some(OrderRequest(orderForm.userName, orderForm.userEmail, orderForm.userPhone, items));
      if accepted {
        store.ClearCart();
        cartItems := [];
        orderSuccess := true;
        orderForm := EmptyForm;
      }
    }
  }
}

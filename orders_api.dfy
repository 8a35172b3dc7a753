/**
 * `POST /api/orders` (app/api/orders/route.ts): prices the requested cart
 * lines against the stored catalogue, drops lines whose product is unknown,
 * and saves a pending order with the computed total.
 *
 * The route runs on the server, where the store reads as the seed catalogue
 * with no orders and its writes reach no browser: the `Store` the handler
 * is given is that server-side store, not the one the admin pages read.
 */
module OrdersApi {
  import opened Wrappers
  import opened SeqUtil
  import opened Records
  import opened LocalStore

  /** The request body: the customer's contact details and the cart lines. */
  datatype OrderRequest = OrderRequest(userName: string, userEmail: string, userPhone: string, items: seq<CartItem>)

  /** `products.find((p) => p.id === item.product_id)`. */
  function ProductFor(products: seq<Product>, item: CartItem): (r: Option<Product>)
    ensures r.Some? ==> r.value in products && r.value.id == item.productId
    ensures r.None? ==> forall p :: p in products ==> p.id != item.productId
  {
    Find((p: Product) => p.id == item.productId, products)
  }

  predicate Known(products: seq<Product>, item: CartItem) {
    ProductFor(products, item).Some?
  }

  /** `Known` as a filter predicate. */
  function IsKnown(products: seq<Product>): CartItem -> bool {
    item => Known(products, item)
  }

  /** The order line for a requested item whose product exists, at the catalogue price. */
  function LineFor(product: Product, item: CartItem): OrderItem {
    OrderItem(product.id, product.name, item.quantity, product.price)
  }

  /** The order lines the loop pushes for the requested items, in request order. */
  function Lines(products: seq<Product>, items: seq<CartItem>): seq<OrderItem>
    decreases |items|
  {
    if items == [] then []
    else
      var last := items[|items| - 1];
      Lines(products, items[..|items| - 1])
        + match ProductFor(products, last)
          case Some(p) => [LineFor(p, last)]
          case None => []
  }

  function LineTotal(line: OrderItem): int {
    line.price * line.quantity
  }

  /** The sum of price times quantity over the lines. */
  function Amount(lines: seq<OrderItem>): int {
    Sum(Map(LineTotal, lines))
  }

  lemma AmountAppend(lines: seq<OrderItem>, line: OrderItem)
    ensures Amount(lines + [line]) == Amount(lines) + LineTotal(line)
  {
    MapAppend(LineTotal, lines, [line]);
    SumAppend(Map(LineTotal, lines), [LineTotal(line)]);
    assert Sum([LineTotal(line)]) == LineTotal(line) by {
      assert [LineTotal(line)][..0] == [];
    }
  }

  /**
   * The pricing loop of the handler: one line per requested item whose
   * product exists, in request order, and the running total of the lines.
   */
  method PriceItems(products: seq<Product>, items: seq<CartItem>) returns (orderItems: seq<OrderItem>, totalAmount: int)
    ensures orderItems == Lines(products, items)
    ensures totalAmount == Amount(orderItems)
  {
    orderItems := [];
    totalAmount := 0;
    for k := 0 to |items|
      invariant orderItems == Lines(products, items[..k])
      invariant totalAmount == Amount(orderItems)
    {
      var item := items[k];
      assert items[..k + 1][..k] == items[..k];
      var product := ProductFor(products, item);
      if product.Some? {
        var line := LineFor(product.value, item);
        AmountAppend(orderItems, line);
        totalAmount := totalAmount + product.value.price * item.quantity;
        orderItems := orderItems + [line];
      }
    }
    assert items[..|items|] == items;
  }

  /** Every line names a stored product and carries its stored name and price. */
  lemma {:induction false} LinesPriced(products: seq<Product>, items: seq<CartItem>)
    ensures forall l :: l in Lines(products, items) ==>
      exists p :: p in products && p.id == l.productId && p.name == l.productName && p.price == l.price
    decreases |items|
  {
    if items != [] {
      LinesPriced(products, items[..|items| - 1]);
    }
  }

  /**
   * There is one line per requested item whose product exists, in request
   * order: line k is the line for the k-th such item, priced from the
   * product `find` returns for it.
   */
  lemma {:induction false} LinesKeepKnown(products: seq<Product>, items: seq<CartItem>)
    ensures |Lines(products, items)| == |Filter(IsKnown(products), items)|
    ensures var known := Filter(IsKnown(products), items);
      forall k :: 0 <= k < |known| ==>
        ProductFor(products, known[k]).Some?
        && Lines(products, items)[k] == LineFor(ProductFor(products, known[k]).value, known[k])
    decreases |items|
  {
    if items != [] {
      var init := items[..|items| - 1];
      var last := items[|items| - 1];
      LinesKeepKnown(products, init);
      assert items == init + [last];
      FilterAppend(IsKnown(products), init, [last]);
      var known := Filter(IsKnown(products), init);
      if Known(products, last) {
        assert Filter(IsKnown(products), [last]) == [last];
        assert Filter(IsKnown(products), items) == known + [last];
        assert Lines(products, items) == Lines(products, init) + [LineFor(ProductFor(products, last).value, last)];
      } else {
        assert Filter(IsKnown(products), [last]) == [];
        assert Filter(IsKnown(products), items) == known;
        assert Lines(products, items) == Lines(products, init);
      }
    }
  }

  /** Lines whose product is unknown are dropped without a trace: they add nothing to the total. */
  lemma UnknownItemIgnored(products: seq<Product>, items: seq<CartItem>, item: CartItem)
    requires !Known(products, item)
    ensures Lines(products, items + [item]) == Lines(products, items)
  {
    assert (items + [item])[..|items|] == items;
  }

  /**
   * The handler: prices the request and saves it as a new pending order,
   * newest first in the stored list.
   */
  method PostOrder(store: Store, request: OrderRequest, now: Timestamp) returns (order: Order)
    modifies store`orders
    ensures order.items == Lines(store.products, request.items)
    ensures order.totalAmount == Amount(order.items)
    ensures order.status == Pending
    ensures order.userName == request.userName && order.userEmail == request.userEmail
            && order.userPhone == request.userPhone
    ensures order.id == NextId(OrderIds(old(store.orders))) && order.createdAt == now
    ensures store.orders == [order] + old(store.orders)
  {
    var orderItems, totalAmount := PriceItems(store.products, request.items);
    var draft := Order(0, request.userName, request.userEmail, request.userPhone, totalAmount, Pending, orderItems, now);
    order := store.SaveOrder(draft, now);
  }
}

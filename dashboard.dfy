/**
 * The statistics of the admin dashboard (app/admin/dashboard/page.tsx),
 * computed from the stored products and orders: the number of each, the
 * revenue taken by paid and delivered orders, the number of pending
 * orders, and the first five orders and products shown in the two lists.
 */
module Dashboard {
  import opened SeqUtil
  import opened Records

  /** How many entries the recent-orders and popular-products cards show. */
  const ListLength: nat := 5

  datatype Stats = Stats(productsCount: nat, ordersCount: nat, totalRevenue: int, pendingOrders: nat)

  /** `order.status === "paid" || order.status === "delivered"`. */
  predicate IsEarning(o: Order) {
    o.status == Paid || o.status == Delivered
  }

  predicate IsPending(o: Order) {
    o.status == Pending
  }

  function TotalOf(o: Order): int {
    o.totalAmount
  }

  /** The filter-then-reduce of the source: the amounts of the earning orders, summed from the left. */
  function Revenue(orders: seq<Order>): int {
    Sum(Map(TotalOf, Filter(IsEarning, orders)))
  }

  /** What one order adds to the revenue. */
  function Contribution(o: Order): (r: int)
    ensures !IsEarning(o) ==> r == 0
    ensures IsEarning(o) ==> r == o.totalAmount
  {
    if IsEarning(o) then o.totalAmount else 0
  }

  function PendingCount(orders: seq<Order>): (n: nat)
    ensures n <= |orders|
  {
    |Filter(IsPending, orders)|
  }

  function ComputeStats(products: seq<Product>, orders: seq<Order>): Stats {
    Stats(|products|, |orders|, Revenue(orders), PendingCount(orders))
  }

  /**
   * `getLocalOrders().slice(0, 5)`: the first min(5, n) stored orders in
   * stored order, empty exactly when the "no orders yet" line is shown.
   */
  function RecentOrders(orders: seq<Order>): (r: seq<Order>)
    ensures |r| == (if |orders| < ListLength then |orders| else ListLength)
    ensures r == orders[..|r|]
    ensures r == [] <==> |orders| == 0
  {
    Take(orders, ListLength)
  }

  /** `getLocalProducts().slice(0, 5)`: the first min(5, n) stored products in stored order. */
  function PopularProducts(products: seq<Product>): (r: seq<Product>)
    ensures |r| == (if |products| < ListLength then |products| else ListLength)
    ensures r == products[..|r|]
  {
    Take(products, ListLength)
  }

  /**
   * The revenue is the sum, over every stored order, of its contribution:
   * its amount when it is paid or delivered and nothing otherwise.
   */
  lemma {:induction false} RevenueByContribution(orders: seq<Order>)
    ensures Revenue(orders) == Sum(Map(Contribution, orders))
    decreases |orders|
  {
    if orders != [] {
      var init := orders[..|orders| - 1];
      var last := orders[|orders| - 1];
      assert orders == init + [last];
      RevenueByContribution(init);
      RevenueAppend(init, last);
      ContributionAppend(init, last);
    }
  }

  /** Appending an order adds its contribution to the revenue. */
  lemma RevenueAppend(init: seq<Order>, last: Order)
    ensures Revenue(init + [last]) == Revenue(init) + Contribution(last)
  {
    var kept := Filter(IsEarning, init);
    var tail := Filter(IsEarning, [last]);
    FilterAppend(IsEarning, init, [last]);
    assert tail == if IsEarning(last) then [last] else [];
    MapAppend(TotalOf, kept, tail);
    SumAppend(Map(TotalOf, kept), Map(TotalOf, tail));
    if IsEarning(last) {
      assert Map(TotalOf, tail) == [last.totalAmount];
      SumCons([last.totalAmount]);
    } else {
      assert Map(TotalOf, tail) == [];
    }
  }

  /** Appending an order adds its contribution to the sum of contributions. */
  lemma ContributionAppend(init: seq<Order>, last: Order)
    ensures Sum(Map(Contribution, init + [last])) == Sum(Map(Contribution, init)) + Contribution(last)
  {
    MapAppend(Contribution, init, [last]);
    SumAppend(Map(Contribution, init), Map(Contribution, [last]));
    assert Map(Contribution, [last]) == [Contribution(last)];
    SumCons([Contribution(last)]);
  }

  /** Orders that are neither paid nor delivered add nothing: with none of those the revenue is 0. */
  lemma NoEarningNoRevenue(orders: seq<Order>)
    requires forall i :: 0 <= i < |orders| ==> !IsEarning(orders[i])
    ensures Revenue(orders) == 0
  {
    FilterNone(IsEarning, orders);
  }

  /**
   * Changing the status of one order moves the revenue by the difference of
   * its contributions; in particular moving an order from paid to shipped
   * takes its amount out of the revenue until it is delivered.
   */
  lemma RevenueAfterStatus(orders: seq<Order>, k: nat, s: Status)
    requires k < |orders|
    ensures var o := orders[k];
      Revenue(orders[k := o.(status := s)]) == Revenue(orders) - Contribution(o) + Contribution(o.(status := s))
    ensures orders[k].status == Paid && s == Shipped ==>
      Revenue(orders[k := orders[k].(status := s)]) == Revenue(orders) - orders[k].totalAmount
  {
    var o := orders[k];
    var changed := orders[k := o.(status := s)];
    RevenueByContribution(orders);
    RevenueByContribution(changed);
    assert Map(Contribution, changed) == Map(Contribution, orders)[k := Contribution(o.(status := s))];
    SumUpdate(Map(Contribution, orders), k, Contribution(o.(status := s)));
  }

  /** No order is both pending and earning, so the two counts together fit in the order count. */
  lemma {:induction false} PendingAndEarningDisjoint(orders: seq<Order>)
    ensures PendingCount(orders) + |Filter(IsEarning, orders)| <= |orders|
    decreases |orders|
  {
    if orders != [] {
      PendingAndEarningDisjoint(orders[1..]);
    }
  }

  /**
   * The dashboard shows the two list lengths, the revenue of the earning
   * orders, and a pending count that never exceeds the orders not yet earning.
   */
  lemma StatsMeaning(products: seq<Product>, orders: seq<Order>)
    ensures var r := ComputeStats(products, orders);
      && r.productsCount == |products|
      && r.ordersCount == |orders|
      && r.totalRevenue == Sum(Map(Contribution, orders))
      && r.pendingOrders + |Filter(IsEarning, orders)| <= r.ordersCount
  {
    RevenueByContribution(orders);
    PendingAndEarningDisjoint(orders);
  }
}

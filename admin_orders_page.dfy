/**
 * app/admin/orders/page.tsx: the order list of the admin area, the single
 * status action it offers per order, and the status badges.
 */
module AdminOrdersPage {
  import opened Wrappers
  import opened Records
  import opened LocalStore

  /** The one action button an order offers, by its status: the status it moves the order to. */
  function Action(s: Status): Option<Status> {
    match s
    case Pending => Some(Paid)
    case Paid => Some(Shipped)
    case Shipped => Some(Delivered)
    case Delivered => None
    case Cancelled => None
  }

  /** Position along pending → paid → shipped → delivered; cancelled is off the line. */
  function Rank(s: Status): int {
    match s
    case Pending => 0
    case Paid => 1
    case Shipped => 2
    case Delivered => 3
    case Cancelled => -1
  }

  /** Every action moves exactly one step forward, never to or from "cancelled"; delivered and cancelled orders offer none. */
  lemma ActionMovesForward(s: Status)
    ensures Action(s).Some? <==> 0 <= Rank(s) < 3
    ensures Action(s).Some? ==> Action(s).value != Cancelled && Rank(Action(s).value) == Rank(s) + 1
  {
  }

  /** The status after pressing the offered button `n` times (pressing nothing when none is offered). */
  function AfterPresses(s: Status, n: nat): Status
    decreases n
  {
    if n == 0 then s
    else match Action(s)
      case Some(t) => AfterPresses(t, n - 1)
      case None => s
  }

  /** From a status on the line, presses only ever advance along it, stopping at "delivered"; "cancelled" is never reached. */
  lemma {:induction false} PressesStayOnLine(s: Status, n: nat)
    requires s != Cancelled
    ensures AfterPresses(s, n) != Cancelled
    ensures Rank(AfterPresses(s, n)) == if Rank(s) + n < 3 then Rank(s) + n else 3
    decreases n
  {
    if n > 0 && Action(s).Some? {
      PressesStayOnLine(Action(s).value, n - 1);
    }
  }

  /** The badge label per status. */
  function Label(s: Status): (r: string)
    ensures r != ""
  {
    match s
    case Pending => "Ожидает"
    case Paid => "Оплачен"
    case Shipped => "Отправлен"
    case Delivered => "Доставлен"
    case Cancelled => "Отменен"
  }

  /** Different statuses get different labels. */
  lemma LabelsDistinct(s: Status, t: Status)
    ensures Label(s) == Label(t) ==> s == t
  {
    if s != t {
      assert |Label(s)| != |Label(t)| || Label(s)[1] != Label(t)[1];
    }
  }

  /** Merging `{ status }` changes the status and nothing else. */
  lemma StatusPatchOnly(o: Order, s: Status)
    ensures MergeOrder(o, StatusPatch(s)) == o.(status := s)
  {
  }

  /** The page: the store and the orders it shows. */
  class OrdersView {
    const store: Store
    var orders: seq<Order>

    constructor (store: Store)
      ensures this.store == store && orders == store.orders
    {
      this.store := store;
      orders := store.orders;
    }

    /** updateOrderStatus: patches the status of the first order with that id, then reloads. */
    method UpdateOrderStatus(orderId: int, newStatus: Status)
      modifies store`orders, this`orders
      ensures OrderIndex(old(store.orders), orderId).None? ==> store.orders == old(store.orders)
      ensures OrderIndex(old(store.orders), orderId).Some? ==>
        var i := OrderIndex(old(store.orders), orderId).value;
        store.orders == old(store.orders)[i := old(store.orders)[i].(status := newStatus)]
      ensures orders == store.orders
    {
      var updated := store.UpdateOrder(orderId, StatusPatch(newStatus));
      if updated.Some? {
        StatusPatchOnly(old(store.orders)[OrderIndex(old(store.orders), orderId).value], newStatus);
      }
      orders := store.orders;
    }

    /** Pressing the action button shown on the `k`-th order. */
    method PressAction(k: nat)
      requires k < |orders| && orders == store.orders
      modifies store`orders, this`orders
      ensures Action(old(orders)[k].status).None? ==> store.orders == old(store.orders)
      ensures Action(old(orders)[k].status).Some? ==>
        var i := OrderIndex(old(store.orders), old(orders)[k].id).value;
        && store.orders == old(store.orders)[i := old(store.orders)[i].(status := Action(old(orders)[k].status).value)]
        && Rank(store.orders[i].status) == Rank(old(orders)[k].status) + 1
      ensures orders == store.orders
    {
      var next := Action(orders[k].status);
      if next.Some? {
        assert store.orders[k].id == orders[k].id;
        ActionMovesForward(orders[k].status);
        UpdateOrderStatus(orders[k].id, next.value);
      }
    }
  }
}

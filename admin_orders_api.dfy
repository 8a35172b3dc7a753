/**
 * `GET /api/admin/orders` (app/api/admin/orders/route.ts): pages through the
 * stored orders, newest first as the store keeps them (default page 1,
 * limit 20).
 */
module AdminOrdersApi {
  import opened Wrappers
  import opened SeqUtil
  import opened JsText
  import opened Records
  import opened UrlParams
  import opened Pagination

  function ListOrders(all: seq<Order>, params: seq<Param>): AdminPage<Order> {
    Paginate(all, ParseInt(GetOr(params, "page", "1")), ParseInt(GetOr(params, "limit", "20")))
  }

  /**
   * Without `page` and `limit` parameters the listing is the twenty newest
   * orders, and the counters cover every stored order.
   */
  lemma ListOrdersDefaults(all: seq<Order>, params: seq<Param>)
    requires forall i :: 0 <= i < |params| ==> params[i].key != "page" && params[i].key != "limit"
    ensures var r := ListOrders(all, params);
      && r.page == Some(1) && r.limit == Some(20)
      && r.items == Take(all, 20)
      && r.total == |all| && r.totalPages == Finite((|all| + 19) / 20)
  {
    GetMissing(params, "page");
    GetMissing(params, "limit");
    assert GetOr(params, "page", "1") == "1" && GetOr(params, "limit", "20") == "20";
    ParseIntDefaults();
    PaginateFirst(all, 20);
  }

  /** Past the last order the page is empty. */
  lemma ListOrdersPastEnd(all: seq<Order>, params: seq<Param>, page: int, limit: int)
    requires page >= 1 && limit >= 1 && (page - 1) * limit >= |all|
    requires ParseInt(GetOr(params, "page", "1")) == Some(page)
    requires ParseInt(GetOr(params, "limit", "20")) == Some(limit)
    ensures ListOrders(all, params).items == []
  {
    WindowContents(all, page, limit);
  }
}

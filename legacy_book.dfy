/** The global `orders` Map of the older server
    (bauzagpt-backend-master/server.js) as an object whose route handlers
    update it in place: `orders.set` for a new order and field assignment on
    the stored record for `proof`, `status` and `result`. Each method is tied
    to the handler function of module LegacyOrders that specifies it. */
module LegacyBook {
  import opened JsText
  import opened LegacyOrders

  class OrderBook {
    /** The in-memory `orders` Map. */
    var orders: map<string, Order>
    /** BASE_URL, fixed at start-up. */
    const baseUrl: string

    constructor (envBaseUrl: Option<string>, envPort: Option<string>)
      ensures baseUrl == BaseUrl(envBaseUrl, envPort)
      ensures orders == map[]
      ensures WellFormed(orders)
    {
      baseUrl := BaseUrl(envBaseUrl, envPort);
      orders := map[];
    }

    /** POST /api/orders/init */
    method Init(query: Option<string>, plan: Option<string>, freshId: string) returns (resp: Response)
      requires WellFormed(orders)
      modifies this
      ensures WellFormed(orders)
      ensures Outcome(resp, orders) == LegacyOrders.Init(old(orders), query, plan, freshId)
    {
      if !Truthy(query) || !Truthy(plan) {
        return BadRequest(MissingData);
      }
      orders := orders[freshId := Order(query.value, plan.value, Pending, None, None)];
      resp := Initialized(freshId, Pending);
    }

    /** POST /api/orders/proof */
    method AttachProof(orderId: Option<string>, file: Option<string>) returns (resp: Response)
      requires WellFormed(orders)
      modifies this
      ensures WellFormed(orders)
      ensures Outcome(resp, orders) == LegacyOrders.AttachProof(old(orders), orderId, file)
    {
      if orderId.None? || orderId.value !in orders {
        return BadRequest(InvalidOrder);
      }
      if file.None? {
        return BadRequest(NoFile);
      }
      var id := orderId.value;
      orders := orders[id := orders[id].(proof := file)];
      resp := ProofReceived(id);
    }

    /** POST /api/orders/confirm; `written` is the outcome of the file write. */
    method Confirm(orderId: Option<string>, written: bool) returns (resp: Response)
      requires WellFormed(orders)
      modifies this
      ensures WellFormed(orders)
      ensures Outcome(resp, orders) == LegacyOrders.Confirm(old(orders), orderId, written, baseUrl)
    {
      if orderId.None? || orderId.value !in orders {
        return BadRequest(InvalidOrder);
      }
      var id := orderId.value;
      var resultFile := id + ".txt";
      if !written {
        // writeFileSync threw: Express answers 500
        return InternalError;
      }
      var order := orders[id];
      order := order.(status := Completed);
      order := order.(result := Some(resultFile));
      orders := orders[id := order];
      resp := Confirmed(baseUrl + "/api/download/" + id);
    }

    /** GET /api/download/:id; reads the map and changes nothing. */
    method Download(id: string) returns (resp: Response)
      requires WellFormed(orders)
      ensures resp.SendFile? <==> id in orders && orders[id].status == Completed
      ensures resp.SendFile? ==> resp.fileName == id + ".txt"
      ensures resp == LegacyOrders.Download(orders, id)
    {
      if id !in orders {
        return NotFound;
      }
      var order := orders[id];
      if order.result.None? || order.result.value == "" {
        return NotFound;
      }
      assert EntryWellFormed(id, order);
      resp := SendFile(order.result.value);
    }
  }
}

/** The order collection of the main server (server.js) as an object whose
    handlers update it in place, step by step, as the route handlers do
    before `save()`. Each method is tied to the handler function of module
    Orders that specifies it, and keeps the collection well formed. */
module OrderStore {
  import opened JsText
  import opened Orders

  class Store {
    /** The Order collection, keyed by ObjectId. */
    var orders: map<OrderId, Order>
    /** ADMIN_API_KEY; empty when the environment does not set it. */
    const adminApiKey: string

    constructor (adminApiKey: string)
      ensures this.adminApiKey == adminApiKey
      ensures orders == map[]
      ensures WellFormed(orders)
    {
      this.adminApiKey := adminApiKey;
      orders := map[];
    }

    /** POST /api/orders */
    method CreateOrder(authUserId: Option<string>, headerUserId: Option<string>, plan: PlanField,
                       freshId: OrderId, token: string, now: int)
      returns (resp: Response)
      requires WellFormed(orders)
      modifies this
      ensures WellFormed(orders)
      ensures Outcome(resp, orders) ==
              Orders.CreateOrder(old(orders), authUserId, headerUserId, plan, freshId, token, now)
    {
      var userId := GetUserId(authUserId, headerUserId);
      var upper := UpperCasedPlan(plan);
      if upper.None? {
        // toUpperCase is not a function of the value: the handler throws
        return InternalError;
      }
      if userId.None? {
        return Unauthorized;
      }
      var p := ParsePlanName(upper.value);
      if p.None? {
        return BadRequest;
      }
      var amountMXN := if p.value == PRO then 20 else 10;
      var expiresAt := now + TokenLifetimeMs;
      if freshId in orders {
        // duplicate key on insert
        return InternalError;
      }
      var o := Order(userId.value, p.value, PendingPayment, amountMXN, None, None,
                     DownloadToken(token, expiresAt, false));
      orders := orders[freshId := o];
      resp := Created(freshId, o.status, amountMXN);
    }

    /** POST /api/admin/orders/:id/mark-paid. On success the caller goes on to
        run RunOsintAndFinalize(rawId, ...) for the same raw id. */
    method MarkPaid(authHeader: Option<string>, rawId: string, paymentRef: Option<string>)
      returns (resp: Response)
      requires WellFormed(orders)
      modifies this
      ensures WellFormed(orders)
      ensures Outcome(resp, orders) == Orders.MarkPaid(old(orders), adminApiKey, authHeader, rawId, paymentRef)
    {
      var key := ReplaceFirst(OrEmpty(authHeader), "Bearer ", "");
      if adminApiKey == "" || key != adminApiKey {
        return Unauthorized;
      }
      var ref := if Truthy(paymentRef) then paymentRef else None;
      var found := FindById(orders, rawId);
      if found.CastError? {
        return InternalError;
      }
      if found.Absent? {
        return NotFound;
      }
      var o := orders[found.id];
      o := o.(status := Paid);
      o := o.(paymentRef := ref);
      orders := orders[found.id := o];
      resp := MarkedPaid;
    }

    /** The fulfilment job `runOsintAndFinalize(rawId)`. `filesWritten` says
        whether the storage directory and both files could be written. */
    method RunOsintAndFinalize(rawId: string, filesWritten: bool)
      requires WellFormed(orders)
      modifies this
      ensures WellFormed(orders)
      ensures orders == Orders.RunOsintAndFinalize(old(orders), rawId, filesWritten)
    {
      var found := FindById(orders, rawId);
      if !found.Found? {
        // findById throws (malformed id) or finds nothing: no order changes
        return;
      }
      var id := found.id;
      var o := orders[id];
      if o.status != Paid && o.status != Processing {
        return;
      }
      ghost var before := orders;
      o := o.(status := Processing);
      orders := orders[id := o];
      if !filesWritten {
        // catch block: $set status 'failed', nothing else
        orders := orders[id := orders[id].(status := Failed)];
        assert orders == before[id := before[id].(status := Failed)];
        assert OrderWellFormed(id, orders[id]);
        return;
      }
      o := o.(artifacts := Some(StorageArtifacts(id)));
      o := o.(status := Ready);
      orders := orders[id := o];
      assert orders == before[id := before[id].(status := Ready, artifacts := Some(StorageArtifacts(id)))];
      assert OrderWellFormed(id, orders[id]);
    }
  }
}

/** The older in-memory server (bauzagpt-backend-master/server.js): a global
    map from order id to a plain record with the status vocabulary
    "pending" / "completed". Each route handler is written as a function from
    the map and the request to the response and the new map; the random UUID,
    the upload and the outcome of the file write are parameters. */
module LegacyOrders {
  import opened JsText

  datatype Status = Pending | Completed

  /** The record stored by `orders.set(id, {query, plan, status})`; `proof` and
      `result` are the properties added later by the proof and confirm routes. */
  datatype Order = Order(query: string, plan: string, status: Status, proof: Option<string>, result: Option<string>)

  /** Why a request was answered 400. */
  datatype Reason = MissingData | InvalidOrder | NoFile

  datatype Response =
    | Initialized(orderId: string, status: Status)  // 200 {order_id, status: "pending"}
    | ProofReceived(orderId: string)                // 200 {ok, message, order_id}
    | Confirmed(downloadUrl: string)                // 200 {ok, message, download_url}
    | SendFile(fileName: string)                    // res.download(storage/<fileName>)
    | BadRequest(reason: Reason)                    // 400
    | NotFound                                      // 404
    | InternalError                                 // 500: the synchronous write threw

  datatype Outcome = Outcome(response: Response, orders: map<string, Order>)

  /** `BASE_URL`: the environment's BASE_URL, else http://localhost:<PORT>,
      where PORT is the environment's PORT, else 8080. */
  function BaseUrl(envBaseUrl: Option<string>, envPort: Option<string>): (url: string)
    ensures Truthy(envBaseUrl) ==> url == envBaseUrl.value
    ensures !Truthy(envBaseUrl) && Truthy(envPort) ==> url == "http://localhost:" + envPort.value
    ensures !Truthy(envBaseUrl) && !Truthy(envPort) ==> url == "http://localhost:8080"
  {
    if Truthy(envBaseUrl) then envBaseUrl.value
    else "http://localhost:" + (if Truthy(envPort) then envPort.value else "8080")
  }

  /** The name of the result file written for an order. */
  function ResultFile(orderId: string): string {
    orderId + ".txt"
  }

  /** `orders.has(order_id)` for a body field that may be absent. */
  predicate Has(orders: map<string, Order>, orderId: Option<string>) {
    orderId.Some? && orderId.value in orders
  }

  /** POST /api/orders/init. `freshId` is the UUID the handler draws. */
  function Init(orders: map<string, Order>, query: Option<string>, plan: Option<string>, freshId: string)
    : (r: Outcome)
    ensures !Truthy(query) || !Truthy(plan) ==> r == Outcome(BadRequest(MissingData), orders)
    ensures Truthy(query) && Truthy(plan) ==>
              && r.response == Initialized(freshId, Pending)
              && r.orders.Keys == orders.Keys + {freshId}
              && (forall k :: k in orders && k != freshId ==> r.orders[k] == orders[k])
              && r.orders[freshId] == Order(query.value, plan.value, Pending, None, None)
  {
    if !Truthy(query) || !Truthy(plan) then Outcome(BadRequest(MissingData), orders)
    else Outcome(Initialized(freshId, Pending), orders[freshId := Order(query.value, plan.value, Pending, None, None)])
  }

  /** POST /api/orders/proof. `file` is the stored name of the uploaded file,
      absent when none was received. */
  function AttachProof(orders: map<string, Order>, orderId: Option<string>, file: Option<string>): (r: Outcome)
    // the order is checked before the file
    ensures !Has(orders, orderId) ==> r == Outcome(BadRequest(InvalidOrder), orders)
    ensures Has(orders, orderId) && file.None? ==> r == Outcome(BadRequest(NoFile), orders)
    ensures Has(orders, orderId) && file.Some? ==>
              && r.response == ProofReceived(orderId.value)
              && r.orders.Keys == orders.Keys
              && (forall k :: k in orders && k != orderId.value ==> r.orders[k] == orders[k])
              && r.orders[orderId.value] == orders[orderId.value].(proof := file)
              && r.orders[orderId.value].status == orders[orderId.value].status
  {
    if !Has(orders, orderId) then Outcome(BadRequest(InvalidOrder), orders)
    else if file.None? then Outcome(BadRequest(NoFile), orders)
    else
      var id := orderId.value;
      Outcome(ProofReceived(id), orders[id := orders[id].(proof := file)])
  }

  /** POST /api/orders/confirm. `written` says whether writing the result file
      succeeded; a failed write throws before the order is touched. Neither a
      proof nor any prior status is required. */
  function Confirm(orders: map<string, Order>, orderId: Option<string>, written: bool, baseUrl: string)
    : (r: Outcome)
    ensures !Has(orders, orderId) ==> r == Outcome(BadRequest(InvalidOrder), orders)
    ensures Has(orders, orderId) && !written ==> r == Outcome(InternalError, orders)
    ensures Has(orders, orderId) && written ==>
              var id := orderId.value;
              && r.response == Confirmed(baseUrl + "/api/download/" + id)
              && r.orders.Keys == orders.Keys
              && (forall k :: k in orders && k != id ==> r.orders[k] == orders[k])
              && r.orders[id].status == Completed
              && r.orders[id].result == Some(id + ".txt")
              && r.orders[id] == orders[id].(status := Completed, result := r.orders[id].result)
  {
    if !Has(orders, orderId) then Outcome(BadRequest(InvalidOrder), orders)
    else if !written then Outcome(InternalError, orders)
    else
      var id := orderId.value;
      Outcome(Confirmed(baseUrl + "/api/download/" + id),
              orders[id := orders[id].(status := Completed, result := Some(ResultFile(id)))])
  }

  /** GET /api/download/:id */
  function Download(orders: map<string, Order>, id: string): (r: Response)
    ensures r.SendFile? || r == NotFound
    ensures r.SendFile? <==> id in orders && Truthy(orders[id].result)
    ensures r.SendFile? ==> r.fileName == orders[id].result.value
  {
    if id !in orders || !Truthy(orders[id].result) then NotFound
    else SendFile(orders[id].result.value)
  }

  // ---------------------------------------------------------- properties

  /** A second confirm of the same order, with the write succeeding again,
      answers the same and leaves the map as the first one left it. */
  lemma ConfirmIdempotent(orders: map<string, Order>, orderId: Option<string>, baseUrl: string)
    ensures var once := Confirm(orders, orderId, true, baseUrl);
            Confirm(once.orders, orderId, true, baseUrl) == once
  {
    var once := Confirm(orders, orderId, true, baseUrl);
    if Has(orders, orderId) {
      var id := orderId.value;
      assert once.orders[id := once.orders[id].(status := Completed, result := Some(ResultFile(id)))] == once.orders;
    }
  }

  /** One request or handler run against the map. */
  datatype Event =
    | InitEv(query: Option<string>, plan: Option<string>, freshId: string)
    | ProofEv(orderId: Option<string>, file: Option<string>)
    | ConfirmEv(orderId: Option<string>, written: bool)

  function Step(baseUrl: string, orders: map<string, Order>, e: Event): map<string, Order> {
    match e
    case InitEv(q, p, id) => Init(orders, q, p, id).orders
    case ProofEv(id, f) => AttachProof(orders, id, f).orders
    case ConfirmEv(id, w) => Confirm(orders, id, w, baseUrl).orders
  }

  function Replay(baseUrl: string, orders: map<string, Order>, es: seq<Event>): map<string, Order>
    decreases |es|
  {
    if es == [] then orders else Replay(baseUrl, Step(baseUrl, orders, es[0]), es[1..])
  }

  /** A confirm of order `id` whose result file was written. */
  predicate ConfirmOf(e: Event, id: string) {
    e.ConfirmEv? && e.written && e.orderId == Some(id)
  }

  /** What every entry of the map satisfies: a result exactly when completed,
      and the result is the order's own file. */
  predicate EntryWellFormed(id: string, o: Order) {
    && (o.result.Some? <==> o.status == Completed)
    && (o.result.Some? ==> o.result.value == ResultFile(id))
  }

  ghost predicate WellFormed(orders: map<string, Order>) {
    forall id :: id in orders ==> EntryWellFormed(id, orders[id])
  }

  lemma StepPreservesWellFormed(baseUrl: string, orders: map<string, Order>, e: Event)
    requires WellFormed(orders)
    ensures WellFormed(Step(baseUrl, orders, e))
  {
  }

  /** Every sequence of requests keeps the map well formed. */
  lemma {:induction false} ReplayPreservesWellFormed(baseUrl: string, orders: map<string, Order>, es: seq<Event>)
    requires WellFormed(orders)
    ensures WellFormed(Replay(baseUrl, orders, es))
    decreases |es|
  {
    if es != [] {
      StepPreservesWellFormed(baseUrl, orders, es[0]);
      ReplayPreservesWellFormed(baseUrl, Step(baseUrl, orders, es[0]), es[1..]);
    }
  }

  /** Download succeeds only for a previously confirmed order: if order `id`
      had no result, a later successful download needs a confirm of `id`
      among the requests in between. */
  lemma {:induction false} DownloadOnlyAfterConfirm(baseUrl: string, orders: map<string, Order>,
                                                    es: seq<Event>, id: string)
    requires id !in orders || orders[id].result.None?
    requires Download(Replay(baseUrl, orders, es), id).SendFile?
    ensures exists i :: 0 <= i < |es| && ConfirmOf(es[i], id)
    decreases |es|
  {
    assert es != [];
    var next := Step(baseUrl, orders, es[0]);
    if id in next && next[id].result.Some? {
      assert ConfirmOf(es[0], id);
    } else {
      DownloadOnlyAfterConfirm(baseUrl, next, es[1..], id);
      var i :| 0 <= i < |es[1..]| && ConfirmOf(es[1..][i], id);
      assert es[i + 1] == es[1..][i];
    }
  }

  /** In a well-formed map a successful download sends the order's own file. */
  lemma DownloadSendsOwnFile(orders: map<string, Order>, id: string)
    requires WellFormed(orders)
    requires Download(orders, id).SendFile?
    ensures Download(orders, id) == SendFile(id + ".txt")
    ensures orders[id].status == Completed
  {
    assert EntryWellFormed(id, orders[id]);
  }

  /** Init, proof and confirm in turn: download fails before the confirm and
      afterwards sends the order's result file; the proof is never required. */
  lemma PurchaseScenario(baseUrl: string, id: string, upload: string)
    ensures var s0: map<string, Order> := map[];
            var i := Init(s0, Some("acme"), Some("PRO"), id);
            var p := AttachProof(i.orders, Some(id), Some(upload));
            var c := Confirm(p.orders, Some(id), true, baseUrl);
            && i.response == Initialized(id, Pending)
            && Download(p.orders, id) == NotFound
            && c.response == Confirmed(baseUrl + "/api/download/" + id)
            && Download(c.orders, id) == SendFile(id + ".txt")
            && Download(Confirm(i.orders, Some(id), true, baseUrl).orders, id) == SendFile(id + ".txt")
  {
  }
}

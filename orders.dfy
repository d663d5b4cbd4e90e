/** The order record of the main server (server.js) and its request handlers,
    each written as a function from the order collection and the request to
    the response and the new collection. The database is the map from id to
    order; the clock, the random token and the id generator are parameters. */
module Orders {
  import opened JsText

  /** Orders are keyed by the canonical text of their ObjectId. */
  type OrderId = s: string | IsCanonicalObjectId(s) witness "000000000000000000000000"

  datatype Plan = BASICO | PRO

  datatype Status = PendingPayment | Paid | Processing | Ready | Failed

  datatype Artifacts = Artifacts(pdfUrl: string, zipUrl: string)

  /** `expiresAt` in milliseconds since the epoch. */
  datatype DownloadToken = DownloadToken(value: string, expiresAt: int, used: bool)

  datatype Order = Order(
    userId: string,
    plan: Plan,
    status: Status,
    amountMXN: int,
    paymentRef: Option<string>,
    artifacts: Option<Artifacts>,
    downloadToken: DownloadToken)

  /** The `plan` member of a JSON request body: absent (or null), a string, or
      some other JSON value, which is either falsy (0, false) or truthy. */
  datatype PlanField = Missing | Text(s: string) | NonText(truthy: bool)

  /** What a handler answers, one alternative per HTTP outcome. */
  datatype Response =
    | Created(orderId: OrderId, status: Status, amountMXN: int)   // 201
    | MarkedPaid                                                // 200 {ok, status: 'paid'}
    | StatusView(status: Status, artifacts: Option<Artifacts>)  // 200
    | Redirect(url: string)                                     // 302
    | BadRequest                                                // 400
    | Unauthorized                                              // 401
    | Forbidden                                                 // 403
    | NotFound                                                  // 404
    | NotReady                                                  // 409
    | InternalError                                             // 500

  datatype Outcome = Outcome(response: Response, orders: map<OrderId, Order>)

  /** The result of `Order.findById(rawId)`. */
  datatype Lookup = CastError | Absent | Found(id: OrderId)

  /** Four hours, the lifetime of a fresh download token. */
  const TokenLifetimeMs: int := 1000 * 60 * 60 * 4

  function PlanName(p: Plan): string {
    match p
    case BASICO => "BASICO"
    case PRO => "PRO"
  }

  function PriceMXN(p: Plan): int {
    if p == PRO then 20 else 10
  }

  /** The HTTP status code of each response. */
  function StatusCode(r: Response): (code: int)
    ensures code >= 400 <==> !(r.Created? || r.MarkedPaid? || r.StatusView? || r.Redirect?)
  {
    match r
    case Created(_, _, _) => 201
    case MarkedPaid => 200
    case StatusView(_, _) => 200
    case Redirect(_) => 302
    case BadRequest => 400
    case Unauthorized => 401
    case Forbidden => 403
    case NotFound => 404
    case NotReady => 409
    case InternalError => 500
  }

  /** `getUserId(req)`: the user id set by an authentication layer, else the
      `x-user-id` header, else null; an empty string counts as missing. */
  function GetUserId(authUserId: Option<string>, headerUserId: Option<string>): (r: Option<string>)
    ensures r.Some? <==> Truthy(authUserId) || Truthy(headerUserId)
    ensures r.Some? ==> r.value != ""
    ensures Truthy(authUserId) ==> r == authUserId
    ensures !Truthy(authUserId) ==> r == (if Truthy(headerUserId) then headerUserId else None)
  {
    Or(Or(authUserId, headerUserId), None)
  }

  /** `(req.body?.plan || '').toUpperCase()`; None when `toUpperCase` is not a
      function of the value (a truthy non-string), which throws. */
  function UpperCasedPlan(p: PlanField): (r: Option<string>)
    ensures r.None? <==> p.NonText? && p.truthy
    ensures p.Text? ==> r == Some(UpperCase(p.s))
    ensures p.Missing? || (p.NonText? && !p.truthy) ==> r == Some("")
  {
    match p
    case Missing => Some("")
    case Text(s) => Some(UpperCase(s))
    case NonText(truthy) => if truthy then None else Some("")
  }

  /** Membership of an upper-cased plan name in ['BASICO', 'PRO']. */
  function ParsePlanName(s: string): (r: Option<Plan>)
    ensures r.Some? ==> PlanName(r.value) == s
    ensures forall p :: PlanName(p) == s ==> r == Some(p)
  {
    if s == "BASICO" then Some(BASICO)
    else if s == "PRO" then Some(PRO)
    else None
  }

  /** The record `Order.create` stores for a new order. */
  function NewOrder(userId: string, plan: Plan, token: string, now: int): (o: Order)
    ensures o.userId == userId && o.plan == plan
    ensures o.status == PendingPayment && o.amountMXN == (if plan == PRO then 20 else 10)
    ensures o.paymentRef.None? && o.artifacts.None?
    ensures o.downloadToken == DownloadToken(token, now + 14_400_000, false)
    ensures userId != "" ==> forall id :: OrderWellFormed(id, o)
  {
    Order(userId, plan, PendingPayment, PriceMXN(plan), None, None,
          DownloadToken(token, now + TokenLifetimeMs, false))
  }

  /** POST /api/orders. `freshId` is the id the database assigns, `token` the
      random token and `now` the clock; an id already in use makes the insert
      fail with a duplicate-key error. */
  function CreateOrder(orders: map<OrderId, Order>, authUserId: Option<string>, headerUserId: Option<string>,
                       plan: PlanField, freshId: OrderId, token: string, now: int): (r: Outcome)
    // the plan is upper-cased before the user id is checked
    ensures UpperCasedPlan(plan).None? ==> r == Outcome(InternalError, orders)
    ensures UpperCasedPlan(plan).Some? && GetUserId(authUserId, headerUserId).None? ==>
              r == Outcome(Unauthorized, orders)
    ensures UpperCasedPlan(plan).Some? && GetUserId(authUserId, headerUserId).Some? &&
            ParsePlanName(UpperCasedPlan(plan).value).None? ==>
              r == Outcome(BadRequest, orders)
    // a duplicate id makes the insert throw: 500
    ensures UpperCasedPlan(plan).Some? && GetUserId(authUserId, headerUserId).Some? &&
            ParsePlanName(UpperCasedPlan(plan).value).Some? && freshId in orders ==>
              r == Outcome(InternalError, orders)
    ensures r.response.Created? <==>
              UpperCasedPlan(plan).Some? && GetUserId(authUserId, headerUserId).Some? &&
              ParsePlanName(UpperCasedPlan(plan).value).Some? && freshId !in orders
    ensures !r.response.Created? ==> r.orders == orders
    ensures r.response.Created? ==>
              && r.orders.Keys == orders.Keys + {freshId}
              && (forall k :: k in orders ==> r.orders[k] == orders[k])
              && var o := r.orders[freshId];
                 && r.response == Created(freshId, PendingPayment, o.amountMXN)
                 && o.userId == GetUserId(authUserId, headerUserId).value
                 && PlanName(o.plan) == UpperCasedPlan(plan).value
                 && o.amountMXN == (if o.plan == PRO then 20 else 10)
                 && o.status == PendingPayment
                 && o.paymentRef.None? && o.artifacts.None?
                 && o.downloadToken == DownloadToken(token, now + 14_400_000, false)
  {
    var userId := GetUserId(authUserId, headerUserId);
    var upper := UpperCasedPlan(plan);
    if upper.None? then Outcome(InternalError, orders)
    else if userId.None? then Outcome(Unauthorized, orders)
    else match ParsePlanName(upper.value)
      case None => Outcome(BadRequest, orders)
      case Some(p) =>
        if freshId in orders then Outcome(InternalError, orders)
        else
          var o := NewOrder(userId.value, p, token, now);
          Outcome(Created(freshId, o.status, o.amountMXN), orders[freshId := o])
  }

  /** The admin check of mark-paid: the Authorization header with its first
      "Bearer " removed must equal a non-empty ADMIN_API_KEY. */
  function AdminAuthorized(adminKey: string, authHeader: Option<string>): (ok: bool)
    ensures adminKey == "" ==> !ok
    ensures ok ==> adminKey == ReplaceFirst(OrEmpty(authHeader), "Bearer ", "")
  {
    adminKey != "" && ReplaceFirst(OrEmpty(authHeader), "Bearer ", "") == adminKey
  }

  /** The usual header, `Bearer <key>`, is accepted. */
  lemma BearerKeyAuthorizes(adminKey: string)
    requires adminKey != ""
    ensures AdminAuthorized(adminKey, Some("Bearer " + adminKey))
  {
    ReplaceFirstPrefix("Bearer ", adminKey, "");
  }

  /** The "Bearer " prefix is optional: the bare key is accepted too, because
      only an occurrence of "Bearer " is removed and none is required. */
  lemma BareKeyAuthorizes(adminKey: string)
    requires adminKey != "" && !Contains(adminKey, "Bearer ")
    ensures AdminAuthorized(adminKey, Some(adminKey))
  {
  }

  /** Not promised: "Bearer " is cut out wherever it first occurs, not only at
      the start. A header holding the key with "Bearer " inserted anywhere
      before any other occurrence is accepted, for example the header
      "s3cBearer ret" for the key "s3cret". */
  lemma BearerInsideKeyIsCut(front: string, back: string)
    requires front + back != ""
    requires forall j :: 0 <= j < |front| ==> !OccursAt(front + "Bearer " + back, "Bearer ", j)
    ensures AdminAuthorized(front + back, Some(front + "Bearer " + back))
  {
    var h := front + "Bearer " + back;
    assert h[|front|..|front| + 7] == "Bearer ";
    ReplaceFirstAt(h, "Bearer ", "", |front|);
    assert h[..|front|] == front;
    assert h[|front| + 7..] == back;
  }

  lemma SplitKeyAuthorizes()
    ensures AdminAuthorized("s3cret", Some("s3cBearer ret"))
  {
    var h := "s3cBearer ret";
    assert h == "s3c" + "Bearer " + "ret";
    forall j | 0 <= j < 3 ensures !OccursAt(h, "Bearer ", j) {
      assert h[j..j + 7][0] == h[j] != 'B';
    }
    BearerInsideKeyIsCut("s3c", "ret");
  }

  /** `Order.findById(rawId)` on the collection. */
  function FindById(orders: map<OrderId, Order>, rawId: string): (r: Lookup)
    ensures r.CastError? <==> CastObjectId(rawId).None?
    ensures r.Absent? <==> CastObjectId(rawId).Some? && CastObjectId(rawId).value !in orders
    ensures r.Found? ==> r.id in orders && CastObjectId(rawId).Some? && CastObjectId(rawId).value == r.id
  {
    match CastObjectId(rawId)
    case None => CastError
    case Some(s) =>
      var id: OrderId := s;
      if id in orders then Found(id) else Absent
  }

  /** The payment reference mark-paid stores: `req.body?.paymentRef || null`. */
  function StoredRef(paymentRef: Option<string>): (r: Option<string>)
    ensures r.Some? <==> Truthy(paymentRef)
    ensures r.Some? ==> r == paymentRef && r.value != ""
  {
    if Truthy(paymentRef) then paymentRef else None
  }

  /** POST /api/admin/orders/:id/mark-paid. The status is overwritten with
      `paid` whatever it was before. */
  function MarkPaid(orders: map<OrderId, Order>, adminKey: string, authHeader: Option<string>,
                    rawId: string, paymentRef: Option<string>): (r: Outcome)
    ensures !AdminAuthorized(adminKey, authHeader) ==> r == Outcome(Unauthorized, orders)
    ensures adminKey == "" ==> r == Outcome(Unauthorized, orders)
    ensures AdminAuthorized(adminKey, authHeader) && FindById(orders, rawId).CastError? ==>
              r == Outcome(InternalError, orders)
    ensures AdminAuthorized(adminKey, authHeader) && FindById(orders, rawId).Absent? ==>
              r == Outcome(NotFound, orders)
    ensures r.response != MarkedPaid ==> r.orders == orders
    ensures r.response == MarkedPaid <==> AdminAuthorized(adminKey, authHeader) && FindById(orders, rawId).Found?
    ensures r.response == MarkedPaid ==>
              var id := FindById(orders, rawId).id;
              && r.orders.Keys == orders.Keys
              && (forall k :: k in orders && k != id ==> r.orders[k] == orders[k])
              && r.orders[id].status == Paid
              && r.orders[id].paymentRef == (if Truthy(paymentRef) then paymentRef else None)
              && r.orders[id] == orders[id].(status := Paid, paymentRef := r.orders[id].paymentRef)
  {
    if !AdminAuthorized(adminKey, authHeader) then Outcome(Unauthorized, orders)
    else match FindById(orders, rawId)
      case CastError => Outcome(InternalError, orders)
      case Absent => Outcome(NotFound, orders)
      case Found(id) =>
        Outcome(MarkedPaid, orders[id := orders[id].(status := Paid, paymentRef := StoredRef(paymentRef))])
  }

  /** The artifact URLs of an order, served from local storage. */
  function StorageArtifacts(id: OrderId): (a: Artifacts)
    ensures |a.pdfUrl| == |a.zipUrl| == 37
    ensures a.pdfUrl != a.zipUrl
  {
    var a := Artifacts("/storage/" + id + ".pdf", "/storage/" + id + ".zip");
    assert a.pdfUrl[34] == 'p' && a.zipUrl[34] == 'z';
    a
  }

  /** Distinct orders never share artifact URLs. */
  lemma StorageArtifactsDistinct(a: OrderId, b: OrderId)
    requires a != b
    ensures StorageArtifacts(a).zipUrl != StorageArtifacts(b).zipUrl
    ensures StorageArtifacts(a).pdfUrl != StorageArtifacts(b).pdfUrl
  {
    assert StorageArtifacts(a).zipUrl[9..33] == a && StorageArtifacts(b).zipUrl[9..33] == b;
    assert StorageArtifacts(a).pdfUrl[9..33] == a && StorageArtifacts(b).pdfUrl[9..33] == b;
  }

  /** The final state of the collection after `runOsintAndFinalize(rawId)`.
      `filesWritten` says whether creating the storage directory and writing
      both files succeeded. An unknown or malformed id changes nothing. */
  function RunOsintAndFinalize(orders: map<OrderId, Order>, rawId: string, filesWritten: bool)
    : (r: map<OrderId, Order>)
    ensures r.Keys == orders.Keys
    ensures forall k :: k in orders && FindById(orders, rawId) != Found(k) ==> r[k] == orders[k]
    ensures forall k :: k in orders && orders[k].status != Paid && orders[k].status != Processing ==>
              r[k] == orders[k]
    ensures forall k :: k in orders && r[k] != orders[k] ==>
              if filesWritten then r[k] == orders[k].(status := Ready, artifacts := Some(StorageArtifacts(k)))
              else r[k] == orders[k].(status := Failed)
    ensures forall k :: k in orders && r[k].artifacts != orders[k].artifacts ==> r[k].status == Ready
    ensures FindById(orders, rawId).Found? ==>
              var id := FindById(orders, rawId).id;
              orders[id].status in {Paid, Processing} ==>
                r[id].status == (if filesWritten then Ready else Failed)
  {
    match FindById(orders, rawId)
    case CastError => orders
    case Absent => orders
    case Found(id) =>
      var o := orders[id];
      if o.status != Paid && o.status != Processing then orders
      else if !filesWritten then orders[id := o.(status := Failed)]
      else orders[id := o.(status := Ready, artifacts := Some(StorageArtifacts(id)))]
  }

  /** GET /api/orders/:id */
  function GetStatus(orders: map<OrderId, Order>, authUserId: Option<string>, headerUserId: Option<string>,
                     rawId: string): (r: Response)
    ensures GetUserId(authUserId, headerUserId).None? ==> r == Unauthorized
    ensures GetUserId(authUserId, headerUserId).Some? && FindById(orders, rawId).CastError? ==> r == InternalError
    ensures GetUserId(authUserId, headerUserId).Some? && FindById(orders, rawId).Absent? ==> r == NotFound
    ensures r == Forbidden <==>
              GetUserId(authUserId, headerUserId).Some? && FindById(orders, rawId).Found? &&
              orders[FindById(orders, rawId).id].userId != GetUserId(authUserId, headerUserId).value
    ensures r.StatusView? <==>
              GetUserId(authUserId, headerUserId).Some? && FindById(orders, rawId).Found? &&
              orders[FindById(orders, rawId).id].userId == GetUserId(authUserId, headerUserId).value
    ensures r.StatusView? ==>
              var o := orders[FindById(orders, rawId).id];
              r.status == o.status && r.artifacts == o.artifacts
  {
    match GetUserId(authUserId, headerUserId)
    case None => Unauthorized
    case Some(userId) =>
      match FindById(orders, rawId)
      case CastError => InternalError
      case Absent => NotFound
      case Found(id) =>
        if orders[id].userId != userId then Forbidden
        else StatusView(orders[id].status, orders[id].artifacts)
  }

  /** GET /api/orders/:id/download */
  function Download(orders: map<OrderId, Order>, authUserId: Option<string>, headerUserId: Option<string>,
                    rawId: string): (r: Response)
    ensures r.Redirect? || r in {Unauthorized, InternalError, NotFound, Forbidden, NotReady}
    ensures GetUserId(authUserId, headerUserId).None? ==> r == Unauthorized
    ensures GetUserId(authUserId, headerUserId).Some? && FindById(orders, rawId).CastError? ==> r == InternalError
    ensures GetUserId(authUserId, headerUserId).Some? && FindById(orders, rawId).Absent? ==> r == NotFound
    ensures r == Forbidden <==>
              GetUserId(authUserId, headerUserId).Some? && FindById(orders, rawId).Found? &&
              orders[FindById(orders, rawId).id].userId != GetUserId(authUserId, headerUserId).value
    ensures r.Redirect? <==>
              GetUserId(authUserId, headerUserId).Some? && FindById(orders, rawId).Found? &&
              var o := orders[FindById(orders, rawId).id];
              o.userId == GetUserId(authUserId, headerUserId).value &&
              o.status == Ready && o.artifacts.Some? && o.artifacts.value.zipUrl != ""
    ensures r == NotReady <==>
              GetUserId(authUserId, headerUserId).Some? && FindById(orders, rawId).Found? &&
              var o := orders[FindById(orders, rawId).id];
              o.userId == GetUserId(authUserId, headerUserId).value &&
              !(o.status == Ready && o.artifacts.Some? && o.artifacts.value.zipUrl != "")
    ensures r.Redirect? ==> r.url == orders[FindById(orders, rawId).id].artifacts.value.zipUrl
  {
    match GetUserId(authUserId, headerUserId)
    case None => Unauthorized
    case Some(userId) =>
      match FindById(orders, rawId)
      case CastError => InternalError
      case Absent => NotFound
      case Found(id) =>
        var o := orders[id];
        if o.userId != userId then Forbidden
        else if o.status != Ready || o.artifacts.None? || o.artifacts.value.zipUrl == "" then NotReady
        else Redirect(o.artifacts.value.zipUrl)
  }

  /** What every stored order satisfies under these handlers: a non-empty
      owner, the price of its plan, artifacts only at the order's own storage
      URLs, and artifacts whenever it is ready. */
  predicate OrderWellFormed(id: OrderId, o: Order) {
    && o.userId != ""
    && o.amountMXN == PriceMXN(o.plan)
    && (o.artifacts.Some? ==> o.artifacts == Some(StorageArtifacts(id)))
    && (o.status == Ready ==> o.artifacts.Some?)
  }

  ghost predicate WellFormed(orders: map<OrderId, Order>) {
    forall id :: id in orders ==> OrderWellFormed(id, orders[id])
  }
}

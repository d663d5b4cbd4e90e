/** The life of orders in the main server (server.js) across any sequence of
    requests and fulfilment jobs: what every sequence preserves, what only the
    job can produce, and the guarantees the handlers do NOT give. */
module OrderLifecycle {
  import opened JsText
  import opened Orders

  /** One request or one fulfilment job run. */
  datatype Event =
    | CreateEv(authUserId: Option<string>, headerUserId: Option<string>, plan: PlanField,
               freshId: OrderId, token: string, now: int)
    | MarkPaidEv(authHeader: Option<string>, rawId: string, paymentRef: Option<string>)
    | RunEv(rawId: string, filesWritten: bool)

  function Step(adminKey: string, orders: map<OrderId, Order>, e: Event): map<OrderId, Order> {
    match e
    case CreateEv(a, h, p, id, t, now) => CreateOrder(orders, a, h, p, id, t, now).orders
    case MarkPaidEv(auth, rawId, ref) => MarkPaid(orders, adminKey, auth, rawId, ref).orders
    case RunEv(rawId, ok) => RunOsintAndFinalize(orders, rawId, ok)
  }

  /** The collection after the events, in order. The read-only handlers
      (status query, download) are functions of the collection and do not
      appear: they cannot change it. */
  function Replay(adminKey: string, orders: map<OrderId, Order>, es: seq<Event>): map<OrderId, Order>
    decreases |es|
  {
    if es == [] then orders else Replay(adminKey, Step(adminKey, orders, es[0]), es[1..])
  }

  /** A job run for order `id` whose files were written. */
  predicate SuccessfulRunOf(e: Event, id: OrderId) {
    e.RunEv? && e.filesWritten && CastObjectId(e.rawId).Some? && CastObjectId(e.rawId).value == id
  }

  // ------------------------------------------------------------ invariants

  lemma StepPreservesWellFormed(adminKey: string, orders: map<OrderId, Order>, e: Event)
    requires WellFormed(orders)
    ensures WellFormed(Step(adminKey, orders, e))
  {
    var next := Step(adminKey, orders, e);
    forall id | id in next ensures OrderWellFormed(id, next[id]) {
      if id in orders && next[id] != orders[id] {
        assert next[id].userId == orders[id].userId && next[id].plan == orders[id].plan;
      }
    }
  }

  /** Every sequence of requests and jobs keeps the collection well formed. */
  lemma {:induction false} ReplayPreservesWellFormed(adminKey: string, orders: map<OrderId, Order>, es: seq<Event>)
    requires WellFormed(orders)
    ensures WellFormed(Replay(adminKey, orders, es))
    decreases |es|
  {
    if es != [] {
      StepPreservesWellFormed(adminKey, orders, es[0]);
      ReplayPreservesWellFormed(adminKey, Step(adminKey, orders, es[0]), es[1..]);
    }
  }

  /** Orders are never deleted, and owner, plan and amount never change. */
  lemma {:induction false} ReplayKeepsOwnerAndPlan(adminKey: string, orders: map<OrderId, Order>,
                                                   es: seq<Event>, id: OrderId)
    requires id in orders
    ensures id in Replay(adminKey, orders, es)
    ensures Replay(adminKey, orders, es)[id].userId == orders[id].userId
    ensures Replay(adminKey, orders, es)[id].plan == orders[id].plan
    ensures Replay(adminKey, orders, es)[id].amountMXN == orders[id].amountMXN
    decreases |es|
  {
    if es != [] {
      var next := Step(adminKey, orders, es[0]);
      assert id in next && next[id].userId == orders[id].userId && next[id].plan == orders[id].plan
          && next[id].amountMXN == orders[id].amountMXN;
      ReplayKeepsOwnerAndPlan(adminKey, next, es[1..], id);
    }
  }

  /** Every request answered with an error status (4xx or 5xx) leaves the
      collection as it was. */
  lemma ErrorResponsesChangeNothing(orders: map<OrderId, Order>, adminKey: string, e: Event)
    requires e.CreateEv? || e.MarkPaidEv?
    ensures e.CreateEv? ==>
              var r := CreateOrder(orders, e.authUserId, e.headerUserId, e.plan, e.freshId, e.token, e.now);
              StatusCode(r.response) >= 400 ==> Step(adminKey, orders, e) == orders
    ensures e.MarkPaidEv? ==>
              var r := MarkPaid(orders, adminKey, e.authHeader, e.rawId, e.paymentRef);
              StatusCode(r.response) >= 400 ==> Step(adminKey, orders, e) == orders
  {
  }

  // ------------------------------------------------------- transitions

  /** No single request or job takes an order to `ready` unless it is the
      job, the files were written, and the order was `paid` or `processing`;
      a new order starts in `pending_payment`. In particular nothing goes
      from `pending_payment` straight to `ready`. */
  lemma StepToReady(adminKey: string, orders: map<OrderId, Order>, e: Event, id: OrderId)
    requires id in Step(adminKey, orders, e)
    ensures id !in orders ==> e.CreateEv? && Step(adminKey, orders, e)[id].status == PendingPayment
    ensures id in orders && orders[id].status != Ready && Step(adminKey, orders, e)[id].status == Ready ==>
              && e.RunEv? && e.filesWritten
              && FindById(orders, e.rawId) == Found(id)
              && orders[id].status in {Paid, Processing}
  {
  }

  /** Artifacts come only from a job run that wrote its files: if an order had
      none, and has some after a sequence of events, one of those events was
      such a run for that order. */
  lemma {:induction false} ArtifactsOnlyFromJob(adminKey: string, orders: map<OrderId, Order>,
                                                es: seq<Event>, id: OrderId)
    requires id !in orders || orders[id].artifacts.None?
    requires id in Replay(adminKey, orders, es) && Replay(adminKey, orders, es)[id].artifacts.Some?
    ensures exists i :: 0 <= i < |es| && SuccessfulRunOf(es[i], id)
    decreases |es|
  {
    assert es != [];
    var next := Step(adminKey, orders, es[0]);
    if id in next && next[id].artifacts.Some? {
      assert SuccessfulRunOf(es[0], id);
    } else {
      ArtifactsOnlyFromJob(adminKey, next, es[1..], id);
      var i :| 0 <= i < |es[1..]| && SuccessfulRunOf(es[1..][i], id);
      assert es[i + 1] == es[1..][i];
    }
  }

  /** Hence a download redirect for an order that had no artifacts needs a
      successful job run for it somewhere in between. */
  lemma RedirectOnlyAfterJob(adminKey: string, orders: map<OrderId, Order>, es: seq<Event>,
                             authUserId: Option<string>, headerUserId: Option<string>,
                             rawId: string, id: OrderId)
    requires CastObjectId(rawId).Some? && CastObjectId(rawId).value == id
    requires id !in orders || orders[id].artifacts.None?
    requires Download(Replay(adminKey, orders, es), authUserId, headerUserId, rawId).Redirect?
    ensures exists i :: 0 <= i < |es| && SuccessfulRunOf(es[i], id)
  {
    var after := Replay(adminKey, orders, es);
    assert FindById(after, rawId) == Found(id);
    ArtifactsOnlyFromJob(adminKey, orders, es, id);
  }

  /** In a well-formed collection the redirect target is always the order's
      own ZIP under /storage. */
  lemma RedirectTarget(orders: map<OrderId, Order>, authUserId: Option<string>, headerUserId: Option<string>,
                       rawId: string)
    requires WellFormed(orders)
    requires Download(orders, authUserId, headerUserId, rawId).Redirect?
    ensures Download(orders, authUserId, headerUserId, rawId).url ==
            "/storage/" + FindById(orders, rawId).id + ".zip"
  {
    var id := FindById(orders, rawId).id;
    assert OrderWellFormed(id, orders[id]);
  }

  /** The job is idempotent: a second run for the same id, whatever its file
      outcome, finds the order `ready` or `failed` (or skipped it the first
      time) and changes nothing. */
  lemma RunIdempotent(orders: map<OrderId, Order>, rawId: string, first: bool, second: bool)
    ensures RunOsintAndFinalize(RunOsintAndFinalize(orders, rawId, first), rawId, second)
         == RunOsintAndFinalize(orders, rawId, first)
  {
    var once := RunOsintAndFinalize(orders, rawId, first);
    assert FindById(once, rawId) == FindById(orders, rawId);
  }

  // --------------------------------------------------- what is NOT promised

  /** Mark-paid does not look at the prior status: a `ready` order is sent back
      to `paid`, keeping its artifacts, so "artifacts only when ready" fails,
      the owner's download answers 409 and the status query still shows the
      artifacts. */
  lemma MarkPaidReopensReadyOrder(orders: map<OrderId, Order>, adminKey: string, authHeader: Option<string>,
                                  id: OrderId, ref: Option<string>)
    requires id in orders && orders[id].status == Ready && orders[id].artifacts.Some?
    requires orders[id].userId != ""
    requires AdminAuthorized(adminKey, authHeader)
    ensures var after := MarkPaid(orders, adminKey, authHeader, id, ref).orders;
            && after[id].status == Paid
            && after[id].artifacts == orders[id].artifacts
            && Download(after, None, Some(orders[id].userId), id) == NotReady
            && GetStatus(after, None, Some(orders[id].userId), id) == StatusView(Paid, orders[id].artifacts)
  {
    assert FindById(orders, id) == Found(id);
    var after := MarkPaid(orders, adminKey, authHeader, id, ref).orders;
    assert FindById(after, id) == Found(id);
  }

  /** A re-run after such a mark-paid that cannot write its files leaves a
      `failed` order that still carries the artifacts of the earlier run. */
  lemma FailedOrderKeepsArtifacts(orders: map<OrderId, Order>, adminKey: string, authHeader: Option<string>,
                                  id: OrderId, ref: Option<string>)
    requires id in orders && orders[id].status == Ready && orders[id].artifacts.Some?
    requires orders[id].userId != ""
    requires AdminAuthorized(adminKey, authHeader)
    ensures var after := RunOsintAndFinalize(MarkPaid(orders, adminKey, authHeader, id, ref).orders, id, false);
            after[id].status == Failed && after[id].artifacts == orders[id].artifacts
  {
    MarkPaidReopensReadyOrder(orders, adminKey, authHeader, id, ref);
    var paid := MarkPaid(orders, adminKey, authHeader, id, ref).orders;
    assert FindById(paid, id) == Found(id);
  }

  /** The download token is stored but never consulted: an expired or used
      token does not change what download answers. */
  lemma DownloadIgnoresToken(orders: map<OrderId, Order>, id: OrderId, token: DownloadToken,
                             authUserId: Option<string>, headerUserId: Option<string>, rawId: string)
    requires id in orders
    ensures Download(orders[id := orders[id].(downloadToken := token)], authUserId, headerUserId, rawId)
         == Download(orders, authUserId, headerUserId, rawId)
  {
    var changed := orders[id := orders[id].(downloadToken := token)];
    assert changed.Keys == orders.Keys;
    assert FindById(changed, rawId) == FindById(orders, rawId);
  }

  // ------------------------------------------------------------ plans

  /** The plan check ignores case: any spelling whose upper case is a plan
      name selects that plan, the stored names select themselves, and
      nothing is trimmed. */
  lemma PlanCheckIgnoresCase()
    ensures ParsePlanName(UpperCase("pro")) == Some(PRO)
    ensures ParsePlanName(UpperCase("Basico")) == Some(BASICO)
    ensures ParsePlanName(UpperCase(" pro")) == None
    ensures forall p :: ParsePlanName(UpperCase(PlanName(p))) == Some(p)
  {
    assert UpperCase("pro") == "PRO";
    assert UpperCase("Basico") == "BASICO";
    assert |UpperCase(" pro")| == 4;
    forall p ensures ParsePlanName(UpperCase(PlanName(p))) == Some(p) {
      UpperCaseFixesUpper(PlanName(p));
    }
  }

  // ------------------------------------------------------------ scenario

  /** The order "u1" creates by asking for plan "pro". */
  function PendingProOrder(token: string, now: int): Order {
    NewOrder("u1", PRO, token, now)
  }

  lemma ScenarioCreate(id: OrderId, token: string, now: int)
    ensures CreateOrder(map[], None, Some("u1"), Text("pro"), id, token, now)
         == Outcome(Created(id, PendingPayment, 20), map[id := PendingProOrder(token, now)])
  {
    assert UpperCase("pro") == "PRO";
  }

  lemma ScenarioMarkPaid(id: OrderId, token: string, now: int)
    ensures var s := map[id := PendingProOrder(token, now)];
            MarkPaid(s, "s3cret", Some("Bearer wrong"), id, None) == Outcome(Unauthorized, s)
    ensures var s := map[id := PendingProOrder(token, now)];
            var paid := PendingProOrder(token, now).(status := Paid, paymentRef := Some("folio-1"));
            MarkPaid(s, "s3cret", Some("Bearer s3cret"), id, Some("folio-1")) == Outcome(MarkedPaid, map[id := paid])
  {
    ReplaceFirstPrefix("Bearer ", "wrong", "");
    assert "Bearer " + "wrong" == "Bearer wrong";
    assert !AdminAuthorized("s3cret", Some("Bearer wrong"));
    BearerKeyAuthorizes("s3cret");
    assert "Bearer " + "s3cret" == "Bearer s3cret";
    assert FindById(map[id := PendingProOrder(token, now)], id) == Found(id);
  }

  lemma ScenarioDeliver(id: OrderId, o: Order)
    requires o.userId == "u1" && o.status == Paid
    ensures var done := RunOsintAndFinalize(map[id := o], id, true);
            && done == map[id := o.(status := Ready, artifacts := Some(StorageArtifacts(id)))]
            && Download(done, None, Some("u1"), id) == Redirect("/storage/" + id + ".zip")
            && Download(done, None, Some("u2"), id) == Forbidden
  {
    assert FindById(map[id := o], id) == Found(id);
    var done := map[id := o.(status := Ready, artifacts := Some(StorageArtifacts(id)))];
    assert FindById(done, id) == Found(id);
  }

  /** The purchase of a PRO plan by "u1": the order starts pending at 20 MXN,
      a wrong admin key is refused with 401 and changes nothing, the right one
      marks it paid, the job makes it ready, and the download redirects the
      owner to the ZIP while "u2" is refused. */
  lemma PurchaseScenario(id: OrderId, token: string, now: int)
    ensures var c := CreateOrder(map[], None, Some("u1"), Text("pro"), id, token, now);
            var bad := MarkPaid(c.orders, "s3cret", Some("Bearer wrong"), id, None);
            var good := MarkPaid(c.orders, "s3cret", Some("Bearer s3cret"), id, Some("folio-1"));
            var done := RunOsintAndFinalize(good.orders, id, true);
            && c.response == Created(id, PendingPayment, 20)
            && bad == Outcome(Unauthorized, c.orders)
            && good.response == MarkedPaid && good.orders[id].status == Paid
            && done[id].status == Ready
            && Download(done, None, Some("u1"), id) == Redirect("/storage/" + id + ".zip")
            && Download(done, None, Some("u2"), id) == Forbidden
  {
    ScenarioCreate(id, token, now);
    ScenarioMarkPaid(id, token, now);
    ScenarioDeliver(id, PendingProOrder(token, now).(status := Paid, paymentRef := Some("folio-1")));
  }
}

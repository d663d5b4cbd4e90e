# BauzaGPT order lifecycle, modelled in Dafny

This project models how the BauzaGPT backend handles orders. A client orders a
report plan. An administrator marks the order paid. A background job writes the
report files and marks the order `ready`. The owner then queries its status and
downloads the ZIP. The repository has two servers, and both are modelled, each
as written:

- **The main server** (`server.js`) keeps a collection of orders keyed by
  ObjectId. Each order has `userId`, `plan` (`BASICO` or `PRO`), `status`
  (`pending_payment`, `paid`, `processing`, `ready`, `failed`), `amountMXN`,
  `paymentRef`, `artifacts {pdfUrl, zipUrl}` and `downloadToken {value,
  expiresAt, used}`.
  - Module `Orders` holds the data model and one function per route handler.
    Each function takes the collection and the request and returns the
    response and the new collection.
  - Module `OrderStore` holds the class `Store`. It owns the collection and
    updates it step by step, as the handlers do before `save()`. Each method is
    proved equal to its handler function and to keep the collection well
    formed.
  - Module `OrderLifecycle` replays any sequence of requests and job runs.
    It proves what every sequence preserves and what only the job can produce.
    It also proves guarantees the code does *not* give.
- **The older in-memory server** (`bauzagpt-backend-master/server.js`) keeps a
  global `Map` whose records carry `query`, `plan`, `status` (`pending` or
  `completed`), `proof` and `result`.
  - Module `LegacyOrders` holds the record, the four handlers as functions,
    and the replay lemmas.
  - Module `LegacyBook` holds the class `OrderBook`, which updates the map in
    place.
- Module `JsText` models the JavaScript string behaviour the handlers depend
  on:
  - truthiness of request fields (`""` counts as missing);
  - `toUpperCase`;
  - `String.prototype.replace` with a string pattern, which replaces only the
    first occurrence;
  - how a path parameter is cast to an ObjectId. A string of 24 hexadecimal
    digits, in either case, names the id written in lower case. Anything else
    is a cast error, and the handler answers 500.

The clock, the random token, the generated ids, the uploaded file name and
whether a disk write succeeds are parameters. The database is the map.

Several behaviours are modelled exactly as the code does them:

- **Plan before user id.** `POST /api/orders` upper-cases the plan (line 127)
  before it checks the user id (line 129). A truthy plan that is not a string
  makes `toUpperCase` throw, so the answer is 500 even when no user id is
  given. Otherwise a missing user id gives 401 before the plan is judged.
- **Mark-paid.** A wrong admin key gets 401. Mark-paid overwrites `status`
  whatever it was. There is no compare-and-set and no `proof_submitted` state.
- **The job.** It runs again on an order left in `processing`.
- **Artifacts and `ready`.** `ready` implies artifacts. Artifacts do not
  imply `ready`: mark-paid on a ready order keeps them
  (`MarkPaidReopensReadyOrder`).
- **Admin header.** Mark-paid removes the first "Bearer " wherever it occurs
  in the Authorization header, so the bare key is accepted, and so is the key
  with "Bearer " inserted inside it (`BearerInsideKeyIsCut`).
- **Download token.** Download never looks at it.
- **No query.** The main server takes no query, so it checks none.
- **Legacy confirm.** It requires neither a proof nor any prior status.

## Model

| member | source | states |
|---|---|---|
| `JsText.UpperCase` | server.js:127 | the model's upper case maps each character to one character (JavaScript's can lengthen a string, see "Left out"): ASCII letters are upper-cased, U+0131 becomes I and U+017F becomes S |
| `JsText.UpperCaseFixesUpper` | server.js:130 | a string of upper-case ASCII letters, such as a stored plan name, is its own upper case |
| `JsText.ReplaceFirst` | server.js:167 | `replace(pat, rep)` leaves a string without `pat` unchanged; with `pat` present its length changes by the length of `rep` minus that of `pat` |
| `JsText.ReplaceFirstAt` | server.js:167 | `replace(pat, rep)` replaces the occurrence at the least index where `pat` occurs, keeping everything before and after it |
| `JsText.ContainsIffOccurs` | server.js:167 | the pattern occurs somewhere exactly when it occurs at some index |
| `JsText.FirstOccurrence` | server.js:167 | every occurrence has a first occurrence at or before it |
| `JsText.ReplaceFirstCases` | server.js:167 | every string is covered: without the pattern it is kept, otherwise the occurrence at the least index is replaced |
| `JsText.ReplaceFirstPrefix` | server.js:167 | `replace('Bearer ', '')` strips a leading "Bearer " and keeps the rest exactly |
| `JsText.CastObjectId` | server.js:174-175 | a raw id casts exactly when it is 24 hex digits; the result is that id lower-cased, so it is canonical; a canonical id casts to itself |
| `Orders.GetUserId` | server.js:77-80 | the authenticated id wins, else the `x-user-id` header, else none; an empty string counts as missing; a returned id is never empty |
| `Orders.UpperCasedPlan` | server.js:127 | an absent or falsy plan becomes `""`, a string is upper-cased, and only a truthy non-string throws |
| `Orders.ParsePlanName` | server.js:130 | exactly "BASICO" and "PRO" are accepted, each as its own plan (both directions of the round trip) |
| `Orders.NewOrder` | server.js:132-140 | a new order holds the caller and the plan, is `pending_payment`, costs 20 MXN for PRO and 10 for BASICO, has no payment ref or artifacts, and an unused token expiring at now + 4 h; with a non-empty owner it is well formed |
| `Orders.CreateOrder` | server.js:124-162 | the fixed check order is 500 for a throwing plan, then 401, then 400, then 500 on a duplicate id, and no failure changes the store; on success exactly the fresh id is added, as `pending_payment`, owned by the caller, with amount 20 for PRO and 10 for BASICO, no payment ref or artifacts, and an unused token expiring at now + 4 h; every other order is untouched |
| `Orders.AdminAuthorized` | server.js:167-170 | an empty ADMIN_API_KEY authorizes nothing; authorization means the header with its first "Bearer " removed equals the key |
| `Orders.BearerKeyAuthorizes` | server.js:167-168 | `Bearer <key>` is accepted for any non-empty key |
| `Orders.BareKeyAuthorizes` | server.js:167-168 | the bare key, without "Bearer ", is accepted too (when the key itself has no "Bearer ") |
| `Orders.BearerInsideKeyIsCut` | server.js:167-168 | not promised by the code: the key with "Bearer " inserted anywhere before any other occurrence is accepted |
| `Orders.SplitKeyAuthorizes` | server.js:167-168 | not promised by the code: the header "s3cBearer ret" is accepted for the key "s3cret" |
| `Orders.FindById` | server.js:197-198 | `findById` reports a cast error exactly for malformed ids, "absent" exactly for well-formed ids not stored, and otherwise the stored id the raw id names |
| `Orders.StoredRef` | server.js:172 | the stored payment ref is the request's ref when truthy, else null; a stored ref is never empty |
| `Orders.MarkPaid` | server.js:165-189 | 401 with no change when unauthorized (always, for an empty key), then 500 for a malformed id, then 404 with no change; otherwise exactly that order's status becomes `paid` whatever it was, its paymentRef becomes the ref or null, and no other order or field changes |
| `Orders.StorageArtifacts` | server.js:106-107 | an order's PDF and ZIP URLs are distinct and each 37 characters long |
| `Orders.StorageArtifactsDistinct` | server.js:106-107 | distinct orders never share a PDF URL or a ZIP URL |
| `Orders.RunOsintAndFinalize` | server.js:84-118 | no order is added or removed and only the named order can change; an order neither `paid` nor `processing` is left alone; otherwise the order ends `ready` with artifacts `/storage/<id>.pdf` and `/storage/<id>.zip`, or `failed` with nothing else changed when the files could not be written; artifacts change only together with `ready` |
| `Orders.GetStatus` | server.js:192-206 | 401, then 500 for a malformed id, then 404, then 403 exactly on an owner mismatch; the view is given exactly to the owner and shows the order's status and artifacts (or null) |
| `Orders.Download` | server.js:209-225 | 401, then 500, then 404, then 403 exactly on an owner mismatch (whatever the status), then 409 exactly for the owner of an order that is not `ready` or has no zipUrl; a redirect is given exactly to the owner of a `ready` order with a zipUrl, and goes to that zipUrl |
| `OrderStore.Store.constructor` | server.js:18-25 | an empty collection, which is well formed, holding the configured ADMIN_API_KEY |
| `OrderStore.Store.CreateOrder` | server.js:124-140 | the in-place handler produces exactly the response and collection of `Orders.CreateOrder` and keeps the collection well formed |
| `OrderStore.Store.MarkPaid` | server.js:165-182 | the in-place handler produces exactly the response and collection of `Orders.MarkPaid` and keeps the collection well formed |
| `OrderStore.Store.RunOsintAndFinalize` | server.js:84-118 | the body first stores `processing`; the contract gives the final collection, exactly `Orders.RunOsintAndFinalize`'s, and keeps it well formed |
| `OrderLifecycle.StepPreservesWellFormed` | server.js:124-179 | every request or job run keeps each order's owner non-empty, its amount the price of its plan, its artifacts (if any) at its own storage URLs, and artifacts on every `ready` order |
| `OrderLifecycle.ReplayPreservesWellFormed` | server.js:84-179 | any sequence of requests and job runs keeps the collection well formed |
| `OrderLifecycle.ReplayKeepsOwnerAndPlan` | server.js:136-140 | orders are never deleted, and owner, plan and amount never change along any sequence |
| `OrderLifecycle.ErrorResponsesChangeNothing` | server.js:124-189 | a create or mark-paid request answered with a 4xx or 5xx status leaves the collection as it was |
| `OrderLifecycle.StepToReady` | server.js:88-110 | a new order starts `pending_payment`; only a job run that wrote its files can make an order `ready`, and only from `paid` or `processing`; nothing goes from `pending_payment` to `ready` in one step |
| `OrderLifecycle.ArtifactsOnlyFromJob` | server.js:106-110 | an order that gains artifacts over a sequence had a successful job run for it in that sequence |
| `OrderLifecycle.RedirectOnlyAfterJob` | server.js:217-220 | a download redirect for an order that had no artifacts, requested by any raw id naming it (upper-case hex included), requires a successful job run for it in between |
| `OrderLifecycle.RedirectTarget` | server.js:106-110 | in a well-formed collection the redirect goes to `/storage/<id>.zip` |
| `OrderLifecycle.RunIdempotent` | server.js:88-111 | a second job run for the same id changes nothing, whatever either run's file outcome |
| `OrderLifecycle.MarkPaidReopensReadyOrder` | server.js:177-178 | not promised by the code: mark-paid sends a `ready` order back to `paid` with its artifacts kept. The owner's download then answers 409 while the status query still shows the artifacts |
| `OrderLifecycle.FailedOrderKeepsArtifacts` | server.js:116 | not promised by the code: after such a mark-paid, a job whose write fails leaves a `failed` order that still carries the old artifacts |
| `OrderLifecycle.DownloadIgnoresToken` | server.js:217-220 | not promised by the code: download's answer does not depend on the download token (expired or used) |
| `OrderLifecycle.PlanCheckIgnoresCase` | server.js:127-130 | "pro" and "Basico" are accepted as PRO and BASICO, stored names select themselves, and " pro" is rejected (nothing is trimmed) |
| `OrderLifecycle.PurchaseScenario` | server.js:124-220 | create with "pro" gives `pending_payment` at 20 MXN. A wrong admin key gives 401 and changes nothing. The right key gives `paid`, and the job gives `ready`. The owner is redirected to `/storage/<id>.zip` and another user gets 403 |
| `LegacyOrders.BaseUrl` | bauzagpt-backend-master/server.js:18-19 | BASE_URL is the environment's when set, else `http://localhost:<PORT>` with the environment's PORT, else `http://localhost:8080` |
| `LegacyOrders.Init` | bauzagpt-backend-master/server.js:36-44 | 400 with no change when query or plan is missing or empty; otherwise exactly the drawn id is (re)set to a `pending` record holding the query and plan, other entries untouched |
| `LegacyOrders.AttachProof` | bauzagpt-backend-master/server.js:47-57 | 400 for an unknown order first, even without a file, then 400 for a missing file; otherwise only that order's `proof` changes, its status stays, other entries untouched |
| `LegacyOrders.Confirm` | bauzagpt-backend-master/server.js:60-79 | 400 for an unknown order; 500 with no change when the write fails; otherwise that order becomes `completed` with result `<id>.txt` regardless of proof or prior status, nothing else changes, and the answer is `BASE_URL + "/api/download/" + id` |
| `LegacyOrders.Download` | bauzagpt-backend-master/server.js:82-90 | 404 unless the order exists and has a result; otherwise the result file is sent |
| `LegacyOrders.ConfirmIdempotent` | bauzagpt-backend-master/server.js:65-78 | a second successful confirm answers the same and leaves the map as the first left it |
| `LegacyOrders.StepPreservesWellFormed` | bauzagpt-backend-master/server.js:41-73 | every request keeps each record's result present exactly when `completed`, and equal to `<id>.txt` |
| `LegacyOrders.ReplayPreservesWellFormed` | bauzagpt-backend-master/server.js:36-79 | any sequence of requests keeps the map well formed |
| `LegacyOrders.DownloadOnlyAfterConfirm` | bauzagpt-backend-master/server.js:84-89 | a successful download of an order that had no result requires a successful confirm of that order in between |
| `LegacyOrders.DownloadSendsOwnFile` | bauzagpt-backend-master/server.js:65-89 | in a well-formed map a successful download sends `<id>.txt` of a `completed` order |
| `LegacyOrders.PurchaseScenario` | bauzagpt-backend-master/server.js:36-90 | after init and proof, download answers 404. After confirm it sends `<id>.txt`, and confirm gives the download URL. Confirming without a proof works too |
| `LegacyBook.OrderBook.constructor` | bauzagpt-backend-master/server.js:18-29 | an empty map, well formed, with BASE_URL computed from the environment |
| `LegacyBook.OrderBook.Init` | bauzagpt-backend-master/server.js:36-44 | the in-place handler matches `LegacyOrders.Init` and keeps the map well formed |
| `LegacyBook.OrderBook.AttachProof` | bauzagpt-backend-master/server.js:47-57 | the in-place handler matches `LegacyOrders.AttachProof` and keeps the map well formed |
| `LegacyBook.OrderBook.Confirm` | bauzagpt-backend-master/server.js:60-79 | the in-place handler matches `LegacyOrders.Confirm` and keeps the map well formed |
| `LegacyBook.OrderBook.Download` | bauzagpt-backend-master/server.js:82-90 | changes nothing; a file is sent exactly for a `completed` order, and it is `<id>.txt` |

## Left out

- Framework plumbing is not modelled: Express routing, CORS, the request
  logger, static serving of `/storage`, `/health`, `start()`, the mongoose
  connection, the process error handlers, multer's upload machinery and
  `app.listen`.
- Database failures are not modelled: a rejected `save()`, `create()` or
  `findById()` for any reason other than a malformed id or a duplicate id
  (those two give 500). The `createdAt`/`updatedAt` timestamps are left out
  because no handler reads them.
- An unset nested `artifacts` path is modelled as absent. The status query
  then answers null, without modelling how mongoose represents the unset
  path.
- Ids of 12 characters, which some ObjectId versions also accept, are treated
  as malformed.
- Asynchrony is not modelled. The `setImmediate` dispatch after mark-paid is
  the caller invoking `RunOsintAndFinalize` later. The intermediate
  `processing` save is performed but is observable only to concurrent
  requests, and concurrent job runs are not modelled.
- Disk writes are one boolean per job run or confirm. A partial job write
  (the PDF written, the ZIP not) ends `failed` as modelled, but the stray
  file on disk is not modelled. Multer stores an uploaded proof even when the
  order is invalid, and `res.download` can fail on a missing file; neither
  is modelled.
- Request fields are modelled as strings or absent. This covers the user
  id, `paymentRef`, `order_id`, and the legacy `query` and `plan`. Other
  JSON types (numbers, arrays, objects) are left out. The exception is the
  main server's `plan`, where a non-string changes the outcome.
- `JsText.UpperCase` maps non-ASCII characters other than U+0131 and U+017F
  to themselves, and always keeps the length. JavaScript's `toUpperCase` can
  lengthen a string (ß becomes SS, the ligatures ﬀ, ﬁ, ﬂ, ﬃ, ﬄ, ﬅ and ﬆ become
  FF, FI, FL, FFI, FFL, ST and ST), and other letters map to non-ASCII upper
  case. None of SS, FF, FI, FL or ST occurs in BASICO or PRO, so the plan
  check is decided as JavaScript decides it.
- The constant `paymentMethods` list, `downloadTokenPreview`, and the message
  texts of the responses are left out.
- The legacy server's use of `crypto.randomUUID` without an import is not
  modelled: the id is a parameter. On runtimes without a global `crypto`,
  that would throw.
- pdf.js, mailer.js, storage.js and osint.js are not part of this model.
  They cover PDF rendering, SMTP mail, cloud upload with signed URLs, and a
  stub report generator built from the clock.
- Neither server has a compare-and-set on `status`, a `proof_submitted`
  state, idempotency keys, payment-gateway events or a notifier, so none is
  modelled.

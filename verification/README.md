# Checkout backend: charge orchestration, notification reconciliation, transaction table

This project models the backend core of a checkout demo that relays payments
to the Midtrans gateway. The core has two parts. `PaymentController` builds a
charge request for one of four payment methods (`credit_card`,
`bank_transfer`, `gopay`, `qris`) and sends it. It normalises the gateway's
reply and stores one transaction row. It maps the gateway's asynchronous
notifications to a canonical status and lists stored transactions page by
page. The `Transaction` model runs the SQL statements behind those steps
against one `transactions` table.

Modules, one per component:

- `Wrappers`: `Option` and `Result`.
- `GatewayMessages`: the shapes of the gateway's replies and notifications.
- `PaymentAdapter`: the gross amount, the per-method charge request with its
  validation and defaults, and the normalised `payment_details`.
- `GatewayClient`: the charge call. `Gateway.respond` stands for the gateway's
  unknown answer to a request. `Gateway.charged` logs every request sent.
- `TransactionModel`: `backend/src/models/Transaction.js` as a class,
  `TransactionTable`, whose `rows` sequence `Create` appends to and
  `UpdateStatus` rewrites in place. `GetByOrderId`, `Find` and `Count` only
  read it.
- `Reconciler`: the notification decision table and what applying it does to
  the table.
- `Listing`: page and limit defaults, offset, page count, and the per-row QR
  projection.
- `PaymentController`: the four handlers as methods over the table and the
  gateway. `QrisCheckoutScenario` proves from the handlers' contracts
  that one QRIS checkout (charge, store as pending, settle) ends with status
  success.

The inputs that come from outside are parameters:

- the gateway's replies (`Gateway.respond`, the checked notification, the
  status reply);
- the order id, which the source builds from `Date.now()`;
- the configured gopay callback URL.

The `INSERT` sets neither `created_at` nor `updated_at`. The table's schema
is not part of this model, so `Create` assumes that both columns default to the
database's `CURRENT_TIMESTAMP` at insert time. That timestamp is a logical
clock, `TransactionTable.clock`, that advances on every write. So
`ORDER BY created_at DESC` lists the newest insert first.

Three behaviours of the source that the model keeps:

- `Transaction.create` runs a plain `INSERT` and checks nothing about the order
  id itself. The table's schema is not part of this model, so `Create` assumes
  it has no uniqueness constraint on `order_id` and appends regardless.
- `handleNotification` does not check that the order exists. It calls
  `updateStatus` and answers success even when no row matched.
  `HandleNotification` does the same and leaves the table unchanged.
- Validation errors are thrown inside the handler's `try`, so they are answered
  with HTTP 500, not 400. `ApiError.ServerError` is 500.

## Model

| member | source | states |
|---|---|---|
| `PaymentAdapter.GrossAmount` | backend/src/controllers/PaymentController.js:66-68 | the left-to-right `reduce` from 0 equals Σ price × quantity over the items, a sum defined independently from the first item |
| `PaymentAdapter.GrossAmountNonNegative` | backend/src/controllers/PaymentController.js:66-68 | with non-negative prices and quantities the gross amount is non-negative |
| `PaymentAdapter.MethodFor` | backend/src/controllers/PaymentController.js:82-119 | the method block is built exactly when the type is one of the four and a card has a non-empty token and a transfer a non-empty bank; a built block has the requested type; a transfer carries the caller's non-empty bank code |
| `PaymentAdapter.BuildRequest` | backend/src/controllers/PaymentController.js:65-119 | the request is built exactly when the type is one of the four and a card has a non-empty token and a transfer a non-empty bank; otherwise the error is 'Invalid payment type', the missing-token or the missing-bank error, in that priority; a built request carries the order id, items, customer, the requested tag and gross amount Σ price × quantity, and a transfer request the caller's bank |
| `PaymentAdapter.CardRequestPolicy` | backend/src/controllers/PaymentController.js:83-93 | a card request always has `authentication` and `secure` true, forwards the token, and `save_token_id` is false unless given as true |
| `PaymentAdapter.BankTransferForwardsBank` | backend/src/controllers/PaymentController.js:94-101 | a bank transfer with a non-empty bank is built, and its block is exactly that bank code |
| `PaymentAdapter.GopayCallbackFallback` | backend/src/controllers/PaymentController.js:104-109 | gopay always enables the callback; its URL is the caller's non-empty one, else the configured default |
| `PaymentAdapter.QrisAcquirerFallback` | backend/src/controllers/PaymentController.js:111-115 | the QRIS acquirer is the caller's non-empty one, else "gopay" |
| `PaymentAdapter.FindAction` | backend/src/controllers/PaymentController.js:165-167 | `find` by name gives the first action with that name, and nothing exactly when no action has it |
| `PaymentAdapter.ActionUrlIsFirst` | backend/src/controllers/PaymentController.js:165-167 | `actions?.find(...)?.url` is the URL of the first action of that name, and absent exactly when there is no list or no such action |
| `PaymentAdapter.NormaliseResponse` | backend/src/controllers/PaymentController.js:126-179 | total (a missing field is not an error); details have the request's method tag and the six common reply fields; card keeps token and card fields; bank transfer keeps `va_numbers`, `payment_code`, `bill_key`, `biller_code`; gopay's QR, deeplink and status URLs come from the first action of each name, absent when missing; QRIS keeps `qr_string`, `acquirer` and the whole actions list |
| `GatewayClient.Gateway.Charge` | backend/src/controllers/PaymentController.js:122 | sending a request logs it and returns the gateway's answer to it |
| `TransactionModel.Serialise` | backend/src/models/Transaction.js:29-31 | an object is stored as its JSON form and text as it is; the stored form tells which it was and loses nothing |
| `TransactionModel.FirstWithId` | backend/src/models/Transaction.js:62-65 | a row with that order id, and nothing exactly when no row has it |
| `TransactionModel.WithStatus` | backend/src/models/Transaction.js:50-56 | the `UPDATE` keeps the number of rows |
| `TransactionModel.UpdateTouchesOnlyStatus` | backend/src/models/Transaction.js:50-56 | rows with another order id are unchanged; matching rows change only `status` and `updated_at` |
| `TransactionModel.UnknownOrderUntouched` | backend/src/models/Transaction.js:50-59 | an update for an unknown order id leaves the table unchanged and creates no placeholder |
| `TransactionModel.LastWriteWins` | backend/src/models/Transaction.js:50-56 | a second status update of the same order overwrites the first completely |
| `TransactionModel.NewestFirst` | backend/src/models/Transaction.js:77-84 | the `created_at DESC` order keeps the number of rows |
| `TransactionModel.Window` | backend/src/models/Transaction.js:77-84 | `LIMIT`/`OFFSET`: the rows from position `offset` on, at most `limit` of them, none when the offset is past the end |
| `TransactionModel.TransactionTable.Create` | backend/src/models/Transaction.js:15-48 | appends exactly one row with the given order id, amount, payment type, details (objects serialised, text unchanged) and status ("pending" when omitted), stamped with the clock, and returns it |
| `TransactionModel.TransactionTable.UpdateStatus` | backend/src/models/Transaction.js:50-60 | sets status and `updated_at` of the matching rows only; returns an updated row, or nothing and no change for an unknown order id |
| `TransactionModel.TransactionTable.GetByOrderId` | backend/src/models/Transaction.js:62-66 | a stored row with that order id if one exists, otherwise nothing; reads only |
| `TransactionModel.TransactionTable.Find` | backend/src/models/Transaction.js:77-85 | at most `limit` rows, skipping the `offset` newest, strictly descending by `created_at`; reads only |
| `TransactionModel.TransactionTable.Count` | backend/src/models/Transaction.js:87-91 | the number of stored rows; reads only |
| `Reconciler.FinalStatus` | backend/src/controllers/PaymentController.js:222-247 | the status passes through unchanged exactly when it is not capture, settlement, deny, cancel or expire; every mapped status ends up success, failure, challenge or pending |
| `Reconciler.DecisionTable` | backend/src/controllers/PaymentController.js:225-247 | capture+challenge→challenge, capture+accept→success, capture+other→failure, settlement→success, deny/cancel/expire→failure, pending→pending, refund→refund |
| `Reconciler.FraudOnlyMattersForCapture` | backend/src/controllers/PaymentController.js:226-229 | the fraud status changes the outcome only for a capture |
| `Reconciler.SuccessExactly` | backend/src/controllers/PaymentController.js:225-247 | "success" exactly for a settlement, an accepted capture, or a raw "success" passed through |
| `Reconciler.FailureExactly` | backend/src/controllers/PaymentController.js:225-247 | "failure" exactly for deny/cancel/expire, a capture neither challenged nor accepted, or a raw "failure" passed through |
| `Reconciler.FinalStatusIsFixed` | backend/src/controllers/PaymentController.js:225-247 | feeding a produced status through the table again leaves it unchanged |
| `Reconciler.Reconcile` | backend/src/controllers/PaymentController.js:225-250 | the table keeps its size; every row of the notified order gets the table's status and `updated_at` = now and keeps every other column as it was; every other row is unchanged |
| `Reconciler.ReconcileIdempotent` | backend/src/controllers/PaymentController.js:225-250 | handling the same notification twice leaves the table as handling it once does; every stored status is the single-delivery one |
| `Reconciler.ReconcileUnknownOrder` | backend/src/controllers/PaymentController.js:218-250 | a notification for an unknown order id changes nothing |
| `Reconciler.StaleNotificationReverts` | backend/src/controllers/PaymentController.js:225-250 | delivery order is unchecked: a pending notification after a settlement takes the status back to pending |
| `Listing.OrDefault` | backend/src/controllers/PaymentController.js:312-313 | the parsed parameter or its default: a given non-zero value wins; a missing, unparsable or zero value gives the default; so the result is never 0 when the default is not |
| `Listing.TotalPages` | backend/src/controllers/PaymentController.js:367-368 | `Math.ceil(total / limit)`: the fewest pages of `limit` rows that hold `total` rows |
| `Listing.PageNonEmptyExactly` | backend/src/controllers/PaymentController.js:312-368 | the page at offset `(page - 1) * limit` holds rows exactly when `page` ≤ the page count |
| `Listing.EachRowOnOnePage` | backend/src/controllers/PaymentController.js:312-321 | the k-th newest row is on page `k / limit + 1`, within the page count, at position `k % limit`, and on no other page |
| `Listing.Project` | backend/src/controllers/PaymentController.js:324-365 | bank-transfer rows get no `qr_code`, `qr_string` or `payment_actions`; other rows get `qr_code` {url, method} exactly when their details' actions hold a `generate-qr-code` entry (the first one), QRIS rows get a non-empty `qr_string`, and the actions list is copied |
| `Listing.OnlyQrisRowsGetQrCode` | backend/src/controllers/PaymentController.js:338-351 | only rows whose stored details are QRIS details can get `qr_code` (gopay details keep no actions list) |
| `PaymentController.StatusOrPending` | backend/src/controllers/PaymentController.js:187 | the status stored for a new row: the reply's status when non-empty, else "pending"; never empty |
| `PaymentController.CreateTransaction` | backend/src/controllers/PaymentController.js:48-212 | a validation failure answers its message with neither a gateway call nor a table change; a refused charge writes nothing; a successful charge appends exactly one row with the order id, the requested type, the normalised details, status = reply status or "pending", and amount = the amount sent = Σ price × quantity |
| `PaymentController.HandleNotification` | backend/src/controllers/PaymentController.js:214-269 | stores the table's status for the notification by plain overwrite and acknowledges it; unknown order ids leave the table unchanged; a rejected notification changes nothing |
| `PaymentController.GetStatus` | backend/src/controllers/PaymentController.js:271-308 | a gateway failure gives 500; otherwise 404 exactly when no row has the order id; otherwise the gateway's status fields for that order |
| `PaymentController.GetTransactions` | backend/src/controllers/PaymentController.js:310-386 | page and limit default to 1 and 10 when missing or zero; fails, always with a 500 server error, exactly when limit or `(page - 1) * limit` is negative or beyond PostgreSQL's `bigint` range (2^63 - 1); otherwise returns the projected rows of that window, at most `limit`, with the page count ⌈total / limit⌉ and the total |

## Left out

- The gateway SDK (`core.charge`, `core.transaction.notification`,
  `core.transaction.status`, `coreApi.cardToken`) and
  backend/src/config/midtrans.js are a foreign library and a network service.
  Their answers are parameters.
- `getCardToken` (backend/src/controllers/PaymentController.js:6-46) only
  forwards card fields to the SDK's tokenisation call. The model has no logic
  to take from it.
- `ChargeInput.items`: `item_details` is assumed present. Without it the source
  fails at backend/src/controllers/PaymentController.js:66 with a `TypeError`
  (answered 500 with that message) before any payment-type check, and calls
  neither the gateway nor the store; the error order `BuildRequest` states
  holds only for bodies that have `item_details`.
- `Date.now()` order-id generation: the order id is an input.
- Amounts are integers. `parseFloat` and JavaScript's floating-point arithmetic
  on prices are not modelled.
- `validationResult(req)`: no validator is attached to these routes, so it
  never fails. Express routing (backend/src/routes/paymentRoutes.js,
  backend/src/index.js) is wiring.
- Response envelopes, `console` logging and the development-only stack trace
  are I/O. Errors keep only their message and HTTP status.
- The `Promise.all`/`async` plumbing in `getTransactions`. The per-row
  transform is a sequential loop.
- `JSON.parse` of stored details in the listing and the exact text
  `JSON.stringify` writes. Stored details are either a `JsonText` record or
  `RawText`. Raw text yields no QR fields in the listing.
- `Find`: the option defaults (`limit = 10`, `offset = 0`) are not modelled,
  because its only caller always passes both. The string-interpolated
  `ORDER BY` is fixed to `created_at DESC`.
- `TransactionTable.Find`: real timestamps can tie, and SQL leaves the order
  of tied rows open. The logical clock never ties.
- `getByUserId` (backend/src/models/Transaction.js:68-75) ignores its
  argument and is unused.
- The database's own failures are not modelled: connection errors and the
  `INSERT` failure after a successful charge. The database driver,
  `config/database.js`, is not part of this model. The one database error
  modelled is PostgreSQL rejecting a `LIMIT` or `OFFSET` that is negative or
  beyond the `bigint` range.
- GetTransactions: the double-precision arithmetic of `(page - 1) * limit` and
  of `parseInt` is not modelled. The offset is the exact integer product, and
  the `bigint` bound is applied to it. Above 2^53 the source's double can
  differ from that product, so the two can disagree near the bound.
- Query parameters arrive already parsed: `parseInt` of text is not modelled.
  A missing or unparsable value is `None`.
- The frontend (React pages, components, hooks, HTTP services,
  `utils/helpers.js` formatting) is UI.

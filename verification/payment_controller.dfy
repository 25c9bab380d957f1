/**
 * The payment controller's handlers: create a transaction, reconcile a
 * notification, look up a status, list transactions. The gateway's replies
 * are inputs (`Gateway.respond`, the checked notification, the status reply);
 * the transaction table is the stateful collaborator.
 */
module PaymentController {
  import opened Wrappers
  import opened GatewayMessages
  import opened PaymentAdapter
  import opened GatewayClient
  import opened TransactionModel
  import opened Reconciler
  import opened Listing

  const NotFoundMessage := "Transaction not found"

  /** The error envelope a handler answers with. */
  datatype ApiError = ServerError(message: string) | NotFound(message: string) {
    function HttpStatus(): int {
      if ServerError? then 500 else 404
    }
  }

  /** The `data` of a successful create: the gateway's reply plus the normalised fields. */
  datatype Created = Created(
    response: ChargeResponse,
    orderId: string,
    paymentType: string,
    amount: int,
    paymentDetails: PaymentDetails)

  /** The `data` of a processed notification. */
  datatype NotificationAck = NotificationAck(
    orderId: string,
    transactionStatus: string,
    fraudStatus: Option<string>,
    finalStatus: string)

  /** The `data` of a status query: the order id and the gateway's view of the transaction. */
  datatype StatusSummary = StatusSummary(orderId: string, reply: StatusReply)

  datatype PageMeta = PageMeta(currentPage: int, totalPages: nat, totalRecords: nat, perPage: int)
  datatype TransactionPage = TransactionPage(data: seq<ListedRow>, meta: PageMeta)

  /** `chargeResponse.transaction_status || 'pending'`: the stored status is never empty. */
  function StatusOrPending(s: Option<string>): (r: string)
    ensures r != ""
    ensures Truthy(s) ==> r == s.value
    ensures !Truthy(s) ==> r == DefaultStatus
  {
    if Truthy(s) then s.value else DefaultStatus
  }

  /**
   * `createTransaction`. A request that fails validation is answered with its
   * error before the gateway is called and before the table is touched. A
   * charge the gateway refuses writes no row. A charge that succeeds writes
   * exactly one row, whose amount is the amount sent, Σ price × quantity.
   */
  method CreateTransaction(store: TransactionTable, gateway: Gateway, input: ChargeInput, orderId: string, config: Config)
    returns (r: Result<Created, ApiError>)
    requires store.Valid()
    modifies store, gateway
    ensures store.Valid()
    ensures BuildRequest(input, orderId, config).Failure? ==>
      && r == Failure(ServerError(BuildRequest(input, orderId, config).error.Message()))
      && gateway.charged == old(gateway.charged)
      && store.rows == old(store.rows) && store.clock == old(store.clock)
    ensures BuildRequest(input, orderId, config).Success? ==>
      var request := BuildRequest(input, orderId, config).value;
      && gateway.charged == old(gateway.charged) + [request]
      && (gateway.respond(request).ChargeFailed? ==>
            && r == Failure(ServerError(gateway.respond(request).message))
            && store.rows == old(store.rows) && store.clock == old(store.clock))
      && (gateway.respond(request).Charged? ==>
            var response := gateway.respond(request).response;
            var details := NormaliseResponse(request.payment, response);
            && store.rows == old(store.rows) + [Row(orderId, request.grossAmount, input.paymentType, JsonText(details),
                                                    StatusOrPending(response.transactionStatus),
                                                    old(store.clock), old(store.clock))]
            && store.clock == old(store.clock) + 1
            && r == Success(Created(response, orderId, input.paymentType, request.grossAmount, details)))
    ensures r.Success? ==>
      && |store.rows| == |old(store.rows)| + 1
      && store.rows[|old(store.rows)|].amount == r.value.amount == SumOfLines(input.items)
  {
    var built := BuildRequest(input, orderId, config);
    if built.Failure? {
      return Failure(ServerError(built.error.Message()));
    }
    var request := built.value;
    var outcome := gateway.Charge(request);
    if outcome.ChargeFailed? {
      return Failure(ServerError(outcome.message));
    }
    var response := outcome.response;
    var details := NormaliseResponse(request.payment, response);
    var _ := store.Create(orderId, request.grossAmount, input.paymentType, ObjectArg(details),
                          Some(StatusOrPending(response.transactionStatus)));
    r := Success(Created(response, orderId, input.paymentType, request.grossAmount, details));
  }

  /**
   * `handleNotification`: maps the notification through the decision table and
   * overwrites the stored status of that order. An unknown order id leaves the
   * table as it is and is still acknowledged.
   */
  method HandleNotification(store: TransactionTable, notice: Result<Notification, string>)
    returns (r: Result<NotificationAck, ApiError>)
    requires store.Valid()
    modifies store
    ensures store.Valid()
    ensures notice.Failure? ==>
      r == Failure(ServerError(notice.error)) && store.rows == old(store.rows) && store.clock == old(store.clock)
    ensures notice.Success? ==>
      var n := notice.value;
      && r == Success(NotificationAck(n.orderId, n.transactionStatus, n.fraudStatus,
                                      FinalStatus(n.transactionStatus, n.fraudStatus)))
      && store.rows == Reconcile(old(store.rows), n, old(store.clock))
      && (!HasOrder(old(store.rows), n.orderId) ==> store.rows == old(store.rows))
      && store.clock == if HasOrder(old(store.rows), n.orderId) then old(store.clock) + 1 else old(store.clock)
  {
    if notice.Failure? {
      return Failure(ServerError(notice.error));
    }
    var n := notice.value;
    var finalStatus := FinalStatus(n.transactionStatus, n.fraudStatus);
    var _ := store.UpdateStatus(n.orderId, finalStatus);
    if !HasOrder(old(store.rows), n.orderId) {
      ReconcileUnknownOrder(old(store.rows), n, old(store.clock));
    }
    r := Success(NotificationAck(n.orderId, n.transactionStatus, n.fraudStatus, finalStatus));
  }

  /**
   * `getStatus`: the gateway's status for the order, or 404 when the table has
   * no row for it. The gateway is asked first, so its failure wins.
   */
  method GetStatus(store: TransactionTable, orderId: string, reply: Result<StatusReply, string>)
    returns (r: Result<StatusSummary, ApiError>)
    ensures reply.Failure? ==> r == Failure(ServerError(reply.error))
    ensures reply.Success? && !HasOrder(store.rows, orderId) ==> r == Failure(NotFound(NotFoundMessage))
    ensures reply.Success? && HasOrder(store.rows, orderId) ==> r == Success(StatusSummary(orderId, reply.value))
    ensures r.Failure? ==> r.error.HttpStatus() == (if reply.Failure? then 500 else 404)
  {
    if reply.Failure? {
      return Failure(ServerError(reply.error));
    }
    var found := store.GetByOrderId(orderId);
    if found.None? {
      return Failure(NotFound(NotFoundMessage));
    }
    r := Success(StatusSummary(orderId, reply.value));
  }

  /**
   * `getTransactions`: page and limit default to 1 and 10 when missing or zero;
   * the page of rows starts `(page - 1) * limit` rows from the newest; each row
   * is projected; the page count is ⌈total / limit⌉. The database rejects a
   * negative LIMIT or OFFSET, and one beyond the `bigint` range, which the
   * handler reports as a server error.
   */
  method GetTransactions(store: TransactionTable, pageParam: Option<int>, limitParam: Option<int>)
    returns (r: Result<TransactionPage, ApiError>)
    requires store.Valid()
    ensures var page := OrDefault(pageParam, DefaultPage);
      var limit := OrDefault(limitParam, DefaultLimit);
      var offset := PageOffset(page, limit);
      && (r.Failure? <==> limit < 0 || offset < 0 || limit > MaxBigint || offset > MaxBigint)
      && (r.Failure? ==> r.error.ServerError? && r.error.HttpStatus() == 500)
      && (r.Success? ==>
            && 0 < limit <= MaxBigint && 0 <= offset <= MaxBigint
            && r.value.meta == PageMeta(page, TotalPages(|store.rows|, limit), |store.rows|, limit)
            && |r.value.data| == |Window(NewestFirst(store.rows), offset, limit)| <= limit
            && forall k :: 0 <= k < |r.value.data| ==>
                 r.value.data[k] == Project(Window(NewestFirst(store.rows), offset, limit)[k]))
  {
    var page := OrDefault(pageParam, DefaultPage);
    var limit := OrDefault(limitParam, DefaultLimit);
    var offset := PageOffset(page, limit);
    if offset < 0 {
      return Failure(ServerError("OFFSET must not be negative"));
    }
    if limit < 0 {
      return Failure(ServerError("LIMIT must not be negative"));
    }
    if offset > MaxBigint || limit > MaxBigint {
      return Failure(ServerError("value is out of range for type bigint"));
    }
    var rows := store.Find(limit, offset);
    var data: seq<ListedRow> := [];
    var i := 0;
    while i < |rows|
      invariant 0 <= i <= |rows|
      invariant |data| == i
      invariant forall k :: 0 <= k < i ==> data[k] == Project(rows[k])
    {
      data := data + [Project(rows[i])];
      i := i + 1;
    }
    var total := store.Count();
    r := Success(TransactionPage(data, PageMeta(page, TotalPages(total, limit), total, limit)));
  }

  /**
   * One checkout end to end: a QRIS order of one item at 100000 is charged,
   * stored as pending, and a settlement notification then marks it a success.
   */
  method QrisCheckoutScenario(orderId: string, reply: ChargeResponse)
    requires reply.transactionStatus == Some(Pending)
  {
    var store := new TransactionTable();
    var gateway := new Gateway(_ => Charged(reply));
    var input := ChargeInput(QrisType, [Item("p1", "Product", 100000, 1)], Customer("A", "B", "a@b.c", "0812"),
                             None, None, None, None);
    var created := CreateTransaction(store, gateway, input, orderId, Config(None));
    assert [Item("p1", "Product", 100000, 1)][1..] == [];
    assert created.Success? && created.value.amount == 100000;
    assert |store.rows| == 1 && store.rows[0].paymentType == QrisType && store.rows[0].status == Pending;
    var ack := HandleNotification(store, Success(Notification(orderId, Settlement, None)));
    assert ack.Success? && ack.value.finalStatus == StatusSuccess;
    assert store.rows[0].status == StatusSuccess;
  }
}

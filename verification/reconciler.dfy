/**
 * The notification reconciler: the fixed table that maps the gateway's
 * (transaction_status, fraud_status) pair to the status stored for the order,
 * and what applying it to the table does.
 */
module Reconciler {
  import opened Wrappers
  import opened GatewayMessages
  import opened TransactionModel

  // Gateway transaction statuses that the table maps.
  const Capture := "capture"
  const Settlement := "settlement"
  const Deny := "deny"
  const Cancel := "cancel"
  const Expire := "expire"
  const Pending := "pending"

  // Fraud statuses that matter for a capture.
  const FraudChallenge := "challenge"
  const FraudAccept := "accept"

  // Canonical statuses.
  const StatusSuccess := "success"
  const StatusFailure := "failure"
  const StatusChallenge := "challenge"

  /** The gateway statuses the table rewrites; every other status is stored as it came. */
  predicate Rewritten(transactionStatus: string) {
    transactionStatus in {Capture, Settlement, Deny, Cancel, Expire}
  }

  /**
   * The decision table of `handleNotification`. A status it maps ends up as one
   * of the four canonical statuses; any other status passes through unchanged.
   */
  function FinalStatus(transactionStatus: string, fraudStatus: Option<string>): (r: string)
    ensures r == transactionStatus <==> !Rewritten(transactionStatus)
    ensures Rewritten(transactionStatus) || transactionStatus == Pending ==>
      r in {StatusSuccess, StatusFailure, StatusChallenge, Pending}
  {
    if transactionStatus == Capture then
      if fraudStatus == Some(FraudChallenge) then StatusChallenge
      else if fraudStatus == Some(FraudAccept) then StatusSuccess
      else StatusFailure
    else if transactionStatus == Settlement then StatusSuccess
    else if transactionStatus == Deny || transactionStatus == Cancel || transactionStatus == Expire then StatusFailure
    else if transactionStatus == Pending then Pending
    else transactionStatus
  }

  /** The table, row by row, for any fraud status. */
  lemma DecisionTable(fraudStatus: Option<string>)
    ensures FinalStatus(Capture, Some(FraudChallenge)) == StatusChallenge
    ensures FinalStatus(Capture, Some(FraudAccept)) == StatusSuccess
    ensures fraudStatus != Some(FraudChallenge) && fraudStatus != Some(FraudAccept) ==>
      FinalStatus(Capture, fraudStatus) == StatusFailure
    ensures FinalStatus(Settlement, fraudStatus) == StatusSuccess
    ensures FinalStatus(Deny, fraudStatus) == StatusFailure
    ensures FinalStatus(Cancel, fraudStatus) == StatusFailure
    ensures FinalStatus(Expire, fraudStatus) == StatusFailure
    ensures FinalStatus(Pending, fraudStatus) == Pending
    ensures FinalStatus("refund", fraudStatus) == "refund"
  {
  }

  /** The fraud status is read only for a capture. */
  lemma FraudOnlyMattersForCapture(transactionStatus: string, f1: Option<string>, f2: Option<string>)
    requires transactionStatus != Capture
    ensures FinalStatus(transactionStatus, f1) == FinalStatus(transactionStatus, f2)
  {
  }

  /** When the stored status is "success": a settlement, an accepted capture, or a raw "success". */
  lemma SuccessExactly(transactionStatus: string, fraudStatus: Option<string>)
    ensures FinalStatus(transactionStatus, fraudStatus) == StatusSuccess <==>
      transactionStatus == Settlement
      || (transactionStatus == Capture && fraudStatus == Some(FraudAccept))
      || transactionStatus == StatusSuccess
  {
  }

  /**
   * When the stored status is "failure": a deny, cancel or expire, a capture
   * that is neither challenged nor accepted, or a raw "failure".
   */
  lemma FailureExactly(transactionStatus: string, fraudStatus: Option<string>)
    ensures FinalStatus(transactionStatus, fraudStatus) == StatusFailure <==>
      transactionStatus in {Deny, Cancel, Expire}
      || (transactionStatus == Capture && fraudStatus != Some(FraudChallenge) && fraudStatus != Some(FraudAccept))
      || transactionStatus == StatusFailure
  {
  }

  /** A status the table produced is left as it is if it is fed through the table again. */
  lemma FinalStatusIsFixed(transactionStatus: string, f1: Option<string>, f2: Option<string>)
    ensures FinalStatus(FinalStatus(transactionStatus, f1), f2) == FinalStatus(transactionStatus, f1)
  {
  }

  /**
   * The table after handling notification `n` at time `now`: every row of that
   * order carries the table's status, stamped `now`, and is otherwise as it
   * was; every other row is as it was.
   */
  function Reconcile(rows: seq<Row>, n: Notification, now: nat): (r: seq<Row>)
    ensures |r| == |rows|
    ensures forall i :: 0 <= i < |rows| && rows[i].orderId == n.orderId ==>
      r[i] == rows[i].(status := FinalStatus(n.transactionStatus, n.fraudStatus), updatedAt := now)
    ensures forall i :: 0 <= i < |rows| && rows[i].orderId != n.orderId ==> r[i] == rows[i]
  {
    WithStatus(rows, n.orderId, FinalStatus(n.transactionStatus, n.fraudStatus), now)
  }

  /**
   * Redelivery is harmless: handling the same notification twice leaves the
   * table as handling it once (at the later time) does, so every stored
   * status is the one a single delivery writes.
   */
  lemma ReconcileIdempotent(rows: seq<Row>, n: Notification, t1: nat, t2: nat)
    ensures Reconcile(Reconcile(rows, n, t1), n, t2) == Reconcile(rows, n, t2)
    ensures forall i :: 0 <= i < |rows| ==>
      Reconcile(Reconcile(rows, n, t1), n, t2)[i].status == Reconcile(rows, n, t1)[i].status
  {
    var s := FinalStatus(n.transactionStatus, n.fraudStatus);
    LastWriteWins(rows, n.orderId, s, t1, s, t2);
  }

  /** A notification for an order id that no row has changes nothing. */
  lemma ReconcileUnknownOrder(rows: seq<Row>, n: Notification, now: nat)
    requires !HasOrder(rows, n.orderId)
    ensures Reconcile(rows, n, now) == rows
  {
    UnknownOrderUntouched(rows, n.orderId, FinalStatus(n.transactionStatus, n.fraudStatus), now);
  }

  /**
   * Delivery order is not checked: a stale "pending" notification that arrives
   * after a "settlement" one takes the stored status back to "pending".
   */
  lemma StaleNotificationReverts(rows: seq<Row>, orderId: string, t1: nat, t2: nat)
    requires |rows| == 1 && rows[0].orderId == orderId
    ensures var settled := Reconcile(rows, Notification(orderId, Settlement, None), t1);
      settled[0].status == StatusSuccess
      && Reconcile(settled, Notification(orderId, Pending, None), t2)[0].status == Pending
  {
  }
}

/**
 * The `transactions` table and the statements the Transaction model runs
 * against it, as an in-memory table of rows. The database's
 * `CURRENT_TIMESTAMP` is a logical clock that advances on every write, so
 * `ORDER BY created_at DESC` is newest-inserted first.
 */
module TransactionModel {
  import opened Wrappers
  import opened PaymentAdapter

  /** The largest value of PostgreSQL's `bigint`, the type of a `LIMIT` or `OFFSET` argument. */
  const MaxBigint := 0x7fff_ffff_ffff_ffff

  /** The status a row gets when the caller gives none. */
  const DefaultStatus := "pending"

  /** `payment_details` as handed to `create`: an object, or text that is stored as it is. */
  datatype DetailsArg = ObjectArg(details: PaymentDetails) | StringArg(text: string)

  /**
   * The `payment_details` column: the JSON text of an object (its exact
   * characters are not modelled), or text that was given as text.
   */
  datatype StoredDetails = JsonText(details: PaymentDetails) | RawText(text: string)

  /** Objects are serialised, text is stored unchanged; either way nothing is lost. */
  function Serialise(d: DetailsArg): (r: StoredDetails)
    ensures r.JsonText? <==> d.ObjectArg?
    ensures r.JsonText? ==> d == ObjectArg(r.details)
    ensures r.RawText? ==> d == StringArg(r.text)
  {
    match d
    case ObjectArg(x) => JsonText(x)
    case StringArg(s) => RawText(s)
  }

  /** One row of the `transactions` table. */
  datatype Row = Row(
    orderId: string,
    amount: int,
    paymentType: string,
    paymentDetails: StoredDetails,
    status: string,
    createdAt: nat,
    updatedAt: nat)

  predicate HasOrder(rows: seq<Row>, orderId: string) {
    exists i :: 0 <= i < |rows| && rows[i].orderId == orderId
  }

  /** The first row with that order id, if any. */
  function FirstWithId(rows: seq<Row>, orderId: string): (r: Option<Row>)
    ensures r.None? <==> !HasOrder(rows, orderId)
    ensures r.Some? ==> r.value in rows && r.value.orderId == orderId
  {
    if rows == [] then None
    else if rows[0].orderId == orderId then Some(rows[0])
    else
      assert HasOrder(rows, orderId) ==> rows[1..][IndexOf(rows, orderId) - 1].orderId == orderId;
      FirstWithId(rows[1..], orderId)
  }

  /** An index of a row with that order id. */
  ghost function IndexOf(rows: seq<Row>, orderId: string): (i: nat)
    requires HasOrder(rows, orderId)
    ensures i < |rows| && rows[i].orderId == orderId
  {
    var i :| 0 <= i < |rows| && rows[i].orderId == orderId; i
  }

  /** The table after `UPDATE ... SET status, updated_at WHERE order_id = orderId`. */
  function WithStatus(rows: seq<Row>, orderId: string, status: string, now: nat): (r: seq<Row>)
    ensures |r| == |rows|
  {
    seq(|rows|, i requires 0 <= i < |rows| =>
      if rows[i].orderId == orderId then rows[i].(status := status, updatedAt := now) else rows[i])
  }

  /** A status update changes only `status` and `updated_at`, and only of the rows with that order id. */
  lemma UpdateTouchesOnlyStatus(rows: seq<Row>, orderId: string, status: string, now: nat)
    ensures var r := WithStatus(rows, orderId, status, now);
      && |r| == |rows|
      && (forall i :: 0 <= i < |rows| && rows[i].orderId != orderId ==> r[i] == rows[i])
      && (forall i :: 0 <= i < |rows| && rows[i].orderId == orderId ==>
            r[i].status == status && r[i].updatedAt == now
            && r[i].(status := rows[i].status, updatedAt := rows[i].updatedAt) == rows[i])
  {
  }

  /** An update for an order id that no row has changes nothing; in particular it adds no row. */
  lemma UnknownOrderUntouched(rows: seq<Row>, orderId: string, status: string, now: nat)
    requires !HasOrder(rows, orderId)
    ensures WithStatus(rows, orderId, status, now) == rows
  {
  }

  /** Two updates of the same order id: the second overwrites the first completely. */
  lemma LastWriteWins(rows: seq<Row>, orderId: string, s1: string, t1: nat, s2: string, t2: nat)
    ensures WithStatus(WithStatus(rows, orderId, s1, t1), orderId, s2, t2) == WithStatus(rows, orderId, s2, t2)
  {
  }

  /** The rows in the order `ORDER BY created_at DESC` gives them. */
  function NewestFirst(rows: seq<Row>): (r: seq<Row>)
    ensures |r| == |rows|
  {
    seq(|rows|, i requires 0 <= i < |rows| => rows[|rows| - 1 - i])
  }

  /** `LIMIT limit OFFSET offset` applied to an ordered result. */
  function Window(rows: seq<Row>, offset: nat, limit: nat): (w: seq<Row>)
    ensures |w| == if offset >= |rows| then 0 else Min(limit, |rows| - offset)
    ensures forall k :: 0 <= k < |w| ==> w[k] == rows[offset + k]
  {
    if offset >= |rows| then [] else rows[offset .. offset + Min(limit, |rows| - offset)]
  }

  function Min(a: int, b: int): int {
    if a <= b then a else b
  }

  class TransactionTable {
    var rows: seq<Row>
    /** The database clock: the timestamp the next write will carry. */
    var clock: nat

    /** Rows are stamped in insertion order, and every stamp is in the past. */
    ghost predicate Valid()
      reads this
    {
      && (forall i, j :: 0 <= i < j < |rows| ==> rows[i].createdAt < rows[j].createdAt)
      && (forall i :: 0 <= i < |rows| ==> rows[i].createdAt < clock)
    }

    constructor ()
      ensures Valid() && rows == [] && clock == 0
    {
      rows := [];
      clock := 0;
    }

    /**
     * `Transaction.create`: inserts exactly one row with the given fields, a
     * `status` of "pending" when none is given, and returns that row. The
     * INSERT names neither timestamp column; both are taken to default to the
     * insert time, an assumption about the table's schema.
     */
    method Create(orderId: string, amount: int, paymentType: string, details: DetailsArg, status: Option<string>)
      returns (row: Row)
      requires Valid()
      modifies this
      ensures Valid()
      ensures rows == old(rows) + [row] && clock == old(clock) + 1
      ensures row == Row(orderId, amount, paymentType, Serialise(details), status.GetOr(DefaultStatus),
                         old(clock), old(clock))
    {
      row := Row(orderId, amount, paymentType, Serialise(details), status.GetOr(DefaultStatus), clock, clock);
      rows := rows + [row];
      clock := clock + 1;
    }

    /**
     * `Transaction.updateStatus`: sets `status` and `updated_at` of every row
     * with that order id and returns one of them; for an unknown order id it
     * changes nothing and returns nothing.
     */
    method UpdateStatus(orderId: string, status: string) returns (updated: Option<Row>)
      requires Valid()
      modifies this
      ensures Valid()
      ensures rows == WithStatus(old(rows), orderId, status, old(clock))
      ensures clock == if HasOrder(old(rows), orderId) then old(clock) + 1 else old(clock)
      ensures updated.None? <==> !HasOrder(old(rows), orderId)
      ensures updated.Some? ==>
        updated.value in rows && updated.value.orderId == orderId
        && updated.value.status == status && updated.value.updatedAt == old(clock)
    {
      var before := rows;
      if FirstWithId(rows, orderId).Some? {
        rows := WithStatus(rows, orderId, status, clock);
        clock := clock + 1;
        assert HasOrder(rows, orderId) by {
          var i := IndexOf(before, orderId);
          assert rows[i].orderId == orderId;
        }
        updated := FirstWithId(rows, orderId);
      } else {
        UnknownOrderUntouched(rows, orderId, status, clock);
        updated := None;
      }
    }

    /** `Transaction.getByOrderId`: a row with that order id if there is one; changes nothing. */
    method GetByOrderId(orderId: string) returns (r: Option<Row>)
      ensures r.None? <==> !HasOrder(rows, orderId)
      ensures r.Some? ==> r.value in rows && r.value.orderId == orderId
    {
      r := FirstWithId(rows, orderId);
    }

    /**
     * `Transaction.find` ordered by `created_at DESC`: skips the `offset`
     * newest rows, returns at most `limit` rows, newest first.
     */
    method Find(limit: nat, offset: nat) returns (page: seq<Row>)
      requires Valid()
      ensures page == Window(NewestFirst(rows), offset, limit)
      ensures |page| <= limit
      ensures |page| == if offset >= |rows| then 0 else Min(limit, |rows| - offset)
      ensures forall k :: 0 <= k < |page| ==> page[k] == rows[|rows| - 1 - offset - k]
      ensures forall i, j :: 0 <= i < j < |page| ==> page[i].createdAt > page[j].createdAt
    {
      page := Window(NewestFirst(rows), offset, limit);
    }

    /** `Transaction.count`: the number of stored rows. */
    method Count() returns (n: nat)
      ensures n == |rows|
    {
      n := |rows|;
    }
  }
}

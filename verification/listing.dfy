/**
 * The arithmetic and the per-row projection of the transaction listing:
 * page and limit defaults, the offset, the page count, and the QR details
 * pulled out of each stored row.
 */
module Listing {
  import opened Wrappers
  import opened GatewayMessages
  import opened PaymentAdapter
  import opened TransactionModel

  const DefaultPage := 1
  const DefaultLimit := 10

  /**
   * `parseInt(param) || fallback`: a missing or unparsable parameter is `None`,
   * and zero is falsy, so both give the fallback.
   */
  function OrDefault(param: Option<int>, fallback: int): (r: int)
    ensures param.Some? && param.value != 0 ==> r == param.value
    ensures param.None? || param.value == 0 ==> r == fallback
    ensures fallback != 0 ==> r != 0
  {
    if param.Some? && param.value != 0 then param.value else fallback
  }

  /** `(page - 1) * limit`. */
  function PageOffset(page: int, limit: int): int {
    (page - 1) * limit
  }

  /** `Math.ceil(total / limit)`: the fewest pages of `limit` rows that hold `total` rows. */
  function TotalPages(total: nat, limit: int): (pages: nat)
    requires limit > 0
    ensures (pages - 1) * limit < total <= pages * limit
  {
    var q := (total + limit - 1) / limit;
    assert q * limit + (total + limit - 1) % limit == total + limit - 1;
    q
  }

  lemma MulMonotone(a: int, b: int, c: int)
    requires a <= b && c >= 0
    ensures a * c <= b * c
  {
  }

  /** A page holds rows exactly when its number is between 1 and the page count. */
  lemma PageNonEmptyExactly(rows: seq<Row>, limit: int, page: int)
    requires limit > 0 && page >= 1
    ensures Window(NewestFirst(rows), PageOffset(page, limit), limit) != [] <==>
      page <= TotalPages(|rows|, limit)
  {
  }

  /**
   * Every row is on exactly one page: the k-th newest row is row `k % limit`
   * of page `k / limit + 1`, which is within the page count, and no other page
   * holds position k.
   */
  lemma EachRowOnOnePage(rows: seq<Row>, limit: int, k: nat)
    requires limit > 0 && k < |rows|
    ensures var page := k / limit + 1;
      && 1 <= page <= TotalPages(|rows|, limit)
      && PageOffset(page, limit) <= k < PageOffset(page, limit) + limit
      && Window(NewestFirst(rows), PageOffset(page, limit), limit)[k - PageOffset(page, limit)] == NewestFirst(rows)[k]
    ensures forall p :: 1 <= p && PageOffset(p, limit) <= k < PageOffset(p, limit) + limit ==> p == k / limit + 1
  {
    var page := k / limit + 1;
    assert PageOffset(page, limit) == k - k % limit;
    PageNonEmptyExactly(rows, limit, page);
    forall p | 1 <= p && PageOffset(p, limit) <= k < PageOffset(p, limit) + limit
      ensures p == page
    {
      if p < page {
        MulMonotone(p, page - 1, limit);
      } else if p > page {
        MulMonotone(page, p - 1, limit);
      }
    }
  }

  /** The `qr_code` a listed row may carry. */
  datatype QrCode = QrCode(url: string, httpMethod: string)

  /** A row as the listing returns it: the stored row and the extras pulled out of its details. */
  datatype ListedRow = ListedRow(
    row: Row,
    qrCode: Option<QrCode>,
    qrString: Option<string>,
    paymentActions: Option<seq<Action>>)

  /** `paymentDetails.actions`: only QRIS details keep the gateway's actions list. */
  function StoredActions(d: StoredDetails): Option<seq<Action>> {
    if d.JsonText? && d.details.QrisDetails? then d.details.actions else None
  }

  /** `paymentDetails.qr_string`. */
  function StoredQrString(d: StoredDetails): Option<string> {
    if d.JsonText? && d.details.QrisDetails? then d.details.qrString else None
  }

  /**
   * The per-row transform of the listing. A row that is not a bank transfer and
   * whose details hold an actions list with a `generate-qr-code` entry gets
   * `qr_code` from the first such entry; a QRIS row with a QR string gets
   * `qr_string`; the actions list is copied as `payment_actions`. A bank-transfer
   * row gets none of the three.
   */
  function Project(row: Row): (r: ListedRow)
    ensures r.row == row
    ensures row.paymentType == BankTransferType ==>
      r.qrCode.None? && r.qrString.None? && r.paymentActions.None?
    ensures r.qrCode.Some? <==>
      row.paymentType != BankTransferType && StoredActions(row.paymentDetails).Some?
      && exists i :: 0 <= i < |StoredActions(row.paymentDetails).value|
                     && StoredActions(row.paymentDetails).value[i].name == QrCodeAction
    ensures r.qrCode.Some? ==>
      var actions := StoredActions(row.paymentDetails).value;
      exists i :: 0 <= i < |actions| && actions[i].name == QrCodeAction
        && r.qrCode.value == QrCode(actions[i].url, actions[i].httpMethod)
        && forall j :: 0 <= j < i ==> actions[j].name != QrCodeAction
    ensures r.qrString.Some? <==>
      row.paymentType == QrisType && Truthy(StoredQrString(row.paymentDetails))
    ensures r.qrString.Some? ==> r.qrString == StoredQrString(row.paymentDetails)
    ensures r.paymentActions == if row.paymentType != BankTransferType then StoredActions(row.paymentDetails) else None
  {
    var actions := StoredActions(row.paymentDetails);
    if row.paymentType == BankTransferType then
      ListedRow(row, None, None, None)
    else
      var qr :=
        if actions.None? then None
        else match FindAction(actions.value, QrCodeAction)
          case None => None
          case Some(a) => Some(QrCode(a.url, a.httpMethod));
      var qrString :=
        if row.paymentType == QrisType && Truthy(StoredQrString(row.paymentDetails))
        then StoredQrString(row.paymentDetails) else None;
      ListedRow(row, qr, qrString, actions)
  }

  /**
   * Gopay details keep the QR URL under `qr_code_url` and no actions list, so a
   * gopay row never gets `qr_code` in the listing; only QRIS rows can.
   */
  lemma OnlyQrisRowsGetQrCode(row: Row)
    requires Project(row).qrCode.Some?
    ensures row.paymentDetails.JsonText? && row.paymentDetails.details.QrisDetails?
  {
  }
}

/**
 * The pure half of `createTransaction`: the gross amount, the per-method charge
 * request with its validation and defaults, and the normalisation of the
 * gateway's reply into a per-method `payment_details` record.
 */
module PaymentAdapter {
  import opened Wrappers
  import opened GatewayMessages

  const CreditCardType := "credit_card"
  const BankTransferType := "bank_transfer"
  const GopayType := "gopay"
  const QrisType := "qris"

  /** The QRIS acquirer used when the caller names none. */
  const DefaultAcquirer := "gopay"

  /** Names of the gateway actions the controller looks for. */
  const QrCodeAction := "generate-qr-code"
  const DeeplinkAction := "deeplink-redirect"
  const StatusAction := "get-status"

  /** The four payment types the controller accepts. */
  predicate IsPaymentType(t: string) {
    t == CreditCardType || t == BankTransferType || t == GopayType || t == QrisType
  }

  /** JavaScript truthiness of an optional string field: present and not empty. */
  predicate Truthy(s: Option<string>) {
    s.Some? && s.value != ""
  }

  // ---------------------------------------------------------------------------
  // Items and the gross amount

  datatype Item = Item(id: string, name: string, price: int, quantity: int)

  function LineTotal(item: Item): int {
    item.price * item.quantity
  }

  /** The same amount written as the sum over the items from the first: Σ price × quantity. */
  function SumOfLines(items: seq<Item>): int {
    if items == [] then 0 else LineTotal(items[0]) + SumOfLines(items[1..])
  }

  lemma {:induction false} SumOfLinesAppend(a: seq<Item>, b: seq<Item>)
    ensures SumOfLines(a + b) == SumOfLines(a) + SumOfLines(b)
  {
    if a == [] {
      assert a + b == b;
    } else {
      assert (a + b)[1..] == a[1..] + b;
      SumOfLinesAppend(a[1..], b);
    }
  }

  /**
   * The amount as the controller computes it: a left-to-right reduce that
   * starts from 0. It is Σ price × quantity taken from the first item.
   */
  function GrossAmount(items: seq<Item>): (r: int)
    ensures r == SumOfLines(items)
  {
    if items == [] then 0
    else
      var init := items[..|items| - 1];
      var last := items[|items| - 1];
      SumOfLinesAppend(init, [last]);
      assert init + [last] == items;
      assert SumOfLines([last]) == LineTotal(last);
      GrossAmount(init) + LineTotal(last)
  }

  /** With prices and quantities that are not negative, neither is the amount. */
  lemma {:induction false} GrossAmountNonNegative(items: seq<Item>)
    requires forall k :: 0 <= k < |items| ==> items[k].price >= 0 && items[k].quantity >= 0
    ensures GrossAmount(items) >= 0
  {
    if items != [] {
      GrossAmountNonNegative(items[..|items| - 1]);
      var last := items[|items| - 1];
      assert last.price >= 0 && last.quantity >= 0;
      assert LineTotal(last) >= 0;
    }
  }

  // ---------------------------------------------------------------------------
  // The request body and the per-method charge request

  datatype Customer = Customer(firstName: string, lastName: string, email: string, phone: string)

  datatype CreditCardFields = CreditCardFields(tokenId: Option<string>, saveTokenId: Option<bool>)
  datatype BankTransferFields = BankTransferFields(bank: Option<string>)
  datatype GopayFields = GopayFields(callbackUrl: Option<string>)
  datatype QrisFields = QrisFields(acquirer: Option<string>)

  /** The body of a create-transaction request; each method block may be absent. */
  datatype ChargeInput = ChargeInput(
    paymentType: string,
    items: seq<Item>,
    customer: Customer,
    creditCard: Option<CreditCardFields>,
    bankTransfer: Option<BankTransferFields>,
    gopay: Option<GopayFields>,
    qris: Option<QrisFields>)

  /** Deployment configuration: the default gopay callback URL, which may itself be unset. */
  datatype Config = Config(gopayCallbackUrl: Option<string>)

  function CardToken(input: ChargeInput): Option<string> {
    if input.creditCard.Some? then input.creditCard.value.tokenId else None
  }

  /** `save_token_id || false`. */
  function SaveToken(input: ChargeInput): bool {
    input.creditCard.Some? && input.creditCard.value.saveTokenId == Some(true)
  }

  function BankCode(input: ChargeInput): Option<string> {
    if input.bankTransfer.Some? then input.bankTransfer.value.bank else None
  }

  function CallbackUrl(input: ChargeInput): Option<string> {
    if input.gopay.Some? then input.gopay.value.callbackUrl else None
  }

  function AcquirerOf(input: ChargeInput): Option<string> {
    if input.qris.Some? then input.qris.value.acquirer else None
  }

  /** The method-specific block of a charge request: exactly one per order. */
  datatype MethodRequest =
    | CreditCard(tokenId: string, authentication: bool, secure: bool, saveTokenId: bool)
    | BankTransfer(bank: string)
    | Gopay(enableCallback: bool, callbackUrl: Option<string>)
    | Qris(acquirer: string)

  function Tag(m: MethodRequest): string {
    match m
    case CreditCard(_, _, _, _) => CreditCardType
    case BankTransfer(_) => BankTransferType
    case Gopay(_, _) => GopayType
    case Qris(_) => QrisType
  }

  /** The charge request sent to the gateway. */
  datatype ChargeRequest = ChargeRequest(
    paymentType: string,
    orderId: string,
    grossAmount: int,
    items: seq<Item>,
    customer: Customer,
    payment: MethodRequest)

  /** The errors thrown while the request is built, before anything is sent. */
  datatype ValidationError = MissingCardToken | MissingBank | InvalidPaymentType {
    function Message(): string {
      match this
      case MissingCardToken => "Credit card token is required"
      case MissingBank => "Bank selection is required"
      case InvalidPaymentType => "Invalid payment type"
    }
  }

  /**
   * The `switch (payment_type)` that fills in the method block. A card needs a
   * non-empty token and a transfer a non-empty bank; an unknown type is
   * refused. A block that is built has the requested type, and a transfer
   * carries the caller's bank code.
   */
  function MethodFor(input: ChargeInput, config: Config): (r: Result<MethodRequest, ValidationError>)
    ensures r.Success? <==>
      IsPaymentType(input.paymentType)
      && (input.paymentType == CreditCardType ==> Truthy(CardToken(input)))
      && (input.paymentType == BankTransferType ==> Truthy(BankCode(input)))
    ensures r.Success? ==> Tag(r.value) == input.paymentType
    ensures r.Success? && r.value.BankTransfer? ==> r.value.bank == BankCode(input).value && r.value.bank != ""
  {
    if input.paymentType == CreditCardType then
      if Truthy(CardToken(input)) then Success(CreditCard(CardToken(input).value, true, true, SaveToken(input)))
      else Failure(MissingCardToken)
    else if input.paymentType == BankTransferType then
      if Truthy(BankCode(input)) then Success(BankTransfer(BankCode(input).value))
      else Failure(MissingBank)
    else if input.paymentType == GopayType then
      Success(Gopay(true, if Truthy(CallbackUrl(input)) then CallbackUrl(input) else config.gopayCallbackUrl))
    else if input.paymentType == QrisType then
      Success(Qris(if Truthy(AcquirerOf(input)) then AcquirerOf(input).value else DefaultAcquirer))
    else
      Failure(InvalidPaymentType)
  }

  /**
   * Builds the charge request for order `orderId`. It fails exactly when the
   * payment type is not one of the four, or a card charge has no token, or a
   * bank transfer has no bank; otherwise the request carries Σ price × quantity.
   */
  function BuildRequest(input: ChargeInput, orderId: string, config: Config): (r: Result<ChargeRequest, ValidationError>)
    ensures r.Success? <==>
      IsPaymentType(input.paymentType)
      && (input.paymentType == CreditCardType ==> Truthy(CardToken(input)))
      && (input.paymentType == BankTransferType ==> Truthy(BankCode(input)))
    ensures r.Failure? ==>
      r.error == (if !IsPaymentType(input.paymentType) then InvalidPaymentType
                  else if input.paymentType == CreditCardType then MissingCardToken
                  else MissingBank)
    ensures r.Success? ==>
      && r.value.paymentType == input.paymentType
      && Tag(r.value.payment) == input.paymentType
      && r.value.orderId == orderId
      && r.value.grossAmount == SumOfLines(input.items)
      && r.value.items == input.items
      && r.value.customer == input.customer
    ensures r.Success? && input.paymentType == BankTransferType ==>
      r.value.payment == BankTransfer(BankCode(input).value)
  {
    match MethodFor(input, config)
    case Failure(e) => Failure(e)
    case Success(m) =>
      Success(ChargeRequest(input.paymentType, orderId, GrossAmount(input.items), input.items, input.customer, m))
  }

  /** A card charge always asks for 3-D Secure and forwards `save_token_id`, which defaults to false. */
  lemma CardRequestPolicy(input: ChargeInput, orderId: string, config: Config)
    requires input.paymentType == CreditCardType && Truthy(CardToken(input))
    ensures BuildRequest(input, orderId, config).Success?
    ensures var m := BuildRequest(input, orderId, config).value.payment;
      m == CreditCard(CardToken(input).value, true, true, SaveToken(input))
      && m.authentication && m.secure
      && (input.creditCard.value.saveTokenId.None? ==> !m.saveTokenId)
  {
  }

  /** A bank transfer sends the bank code the caller chose. */
  lemma BankTransferForwardsBank(input: ChargeInput, orderId: string, config: Config)
    requires input.paymentType == BankTransferType && Truthy(BankCode(input))
    ensures BuildRequest(input, orderId, config).Success?
    ensures BuildRequest(input, orderId, config).value.payment == BankTransfer(BankCode(input).value)
  {
  }

  /** The gopay callback URL is the caller's when it gives a non-empty one, the configured one otherwise. */
  lemma GopayCallbackFallback(input: ChargeInput, orderId: string, config: Config)
    requires input.paymentType == GopayType
    ensures BuildRequest(input, orderId, config).Success?
    ensures var m := BuildRequest(input, orderId, config).value.payment;
      m.Gopay? && m.enableCallback
      && (Truthy(CallbackUrl(input)) ==> m.callbackUrl == CallbackUrl(input))
      && (!Truthy(CallbackUrl(input)) ==> m.callbackUrl == config.gopayCallbackUrl)
  {
  }

  /** The QRIS acquirer is the caller's when it gives a non-empty one, "gopay" otherwise. */
  lemma QrisAcquirerFallback(input: ChargeInput, orderId: string, config: Config)
    requires input.paymentType == QrisType
    ensures BuildRequest(input, orderId, config).Success?
    ensures var m := BuildRequest(input, orderId, config).value.payment;
      m.Qris?
      && (Truthy(AcquirerOf(input)) ==> m.acquirer == AcquirerOf(input).value)
      && (!Truthy(AcquirerOf(input)) ==> m.acquirer == DefaultAcquirer)
  {
  }

  // ---------------------------------------------------------------------------
  // Normalising the gateway's reply

  /**
   * `actions.find(a => a.name === name)`: the first action with that name, or
   * nothing when no action has it.
   */
  function FindAction(actions: seq<Action>, name: string): (r: Option<Action>)
    ensures r.None? <==> forall i :: 0 <= i < |actions| ==> actions[i].name != name
    ensures r.Some? ==>
      exists i :: 0 <= i < |actions| && actions[i] == r.value && actions[i].name == name
        && forall j :: 0 <= j < i ==> actions[j].name != name
  {
    if actions == [] then None
    else if actions[0].name == name then Some(actions[0])
    else
      FindAction(actions[1..], name)
  }

  /** `actions?.find(a => a.name === name)?.url`. */
  function ActionUrl(actions: Option<seq<Action>>, name: string): Option<string> {
    if actions.None? then None
    else match FindAction(actions.value, name)
      case None => None
      case Some(a) => Some(a.url)
  }

  /**
   * `url` is the URL of the first action named `name`, and is absent exactly
   * when there is no actions list or no action of that name.
   */
  ghost predicate FirstUrl(actions: Option<seq<Action>>, name: string, url: Option<string>) {
    && (url.None? <==> actions.None? || forall i :: 0 <= i < |actions.value| ==> actions.value[i].name != name)
    && (url.Some? ==>
          exists i :: 0 <= i < |actions.value| && actions.value[i].name == name && actions.value[i].url == url.value
            && forall j :: 0 <= j < i ==> actions.value[j].name != name)
  }

  lemma ActionUrlIsFirst(actions: Option<seq<Action>>, name: string)
    ensures FirstUrl(actions, name, ActionUrl(actions, name))
  {
    if actions.Some? {
      var found := FindAction(actions.value, name);
      if found.Some? {
        var i :| 0 <= i < |actions.value| && actions.value[i] == found.value && actions.value[i].name == name
          && forall j :: 0 <= j < i ==> actions.value[j].name != name;
        assert actions.value[i].url == ActionUrl(actions, name).value;
      }
    }
  }

  /** The fields copied from every charge reply. */
  datatype ChargeSummary = ChargeSummary(
    transactionId: Option<string>,
    transactionStatus: Option<string>,
    transactionTime: Option<string>,
    currency: Option<string>,
    fraudStatus: Option<string>,
    grossAmount: Option<string>)

  function SummaryOf(resp: ChargeResponse): ChargeSummary {
    ChargeSummary(resp.transactionId, resp.transactionStatus, resp.transactionTime,
                  resp.currency, resp.fraudStatus, resp.grossAmount)
  }

  /** The `payment_details` record stored with a transaction, one shape per method. */
  datatype PaymentDetails =
    | CardDetails(summary: ChargeSummary, cardToken: string, maskedCard: Option<string>, bank: Option<string>,
                  cardType: Option<string>, redirectUrl: Option<string>, threeDsStatus: Option<string>,
                  channelResponseCode: Option<string>, channelResponseMessage: Option<string>)
    | BankTransferDetails(summary: ChargeSummary, vaNumbers: Option<seq<VaNumber>>, paymentCode: Option<string>,
                          billKey: Option<string>, billerCode: Option<string>)
    | GopayDetails(summary: ChargeSummary, qrCodeUrl: Option<string>, deeplinkUrl: Option<string>,
                   statusUrl: Option<string>)
    | QrisDetails(summary: ChargeSummary, qrString: Option<string>, acquirer: Option<string>,
                  actions: Option<seq<Action>>)

  function DetailsTag(d: PaymentDetails): string {
    match d
    case CardDetails(_, _, _, _, _, _, _, _, _) => CreditCardType
    case BankTransferDetails(_, _, _, _, _) => BankTransferType
    case GopayDetails(_, _, _, _) => GopayType
    case QrisDetails(_, _, _, _) => QrisType
  }

  /**
   * The per-method details kept from the gateway's reply to request method `m`.
   * It never fails: a missing field or action only leaves that field absent.
   */
  function NormaliseResponse(m: MethodRequest, resp: ChargeResponse): (d: PaymentDetails)
    ensures DetailsTag(d) == Tag(m) && d.summary == SummaryOf(resp)
    ensures d.CardDetails? ==>
      d.cardToken == m.tokenId && d.maskedCard == resp.maskedCard && d.bank == resp.bank
      && d.cardType == resp.cardType && d.redirectUrl == resp.redirectUrl && d.threeDsStatus == resp.threeDsStatus
      && d.channelResponseCode == resp.channelResponseCode && d.channelResponseMessage == resp.channelResponseMessage
    ensures d.BankTransferDetails? ==>
      d.vaNumbers == resp.vaNumbers && d.paymentCode == resp.paymentCode
      && d.billKey == resp.billKey && d.billerCode == resp.billerCode
    ensures d.GopayDetails? ==>
      FirstUrl(resp.actions, QrCodeAction, d.qrCodeUrl)
      && FirstUrl(resp.actions, DeeplinkAction, d.deeplinkUrl)
      && FirstUrl(resp.actions, StatusAction, d.statusUrl)
    ensures d.QrisDetails? ==>
      d.qrString == resp.qrString && d.acquirer == resp.acquirer && d.actions == resp.actions
  {
    ActionUrlIsFirst(resp.actions, QrCodeAction);
    ActionUrlIsFirst(resp.actions, DeeplinkAction);
    ActionUrlIsFirst(resp.actions, StatusAction);
    var summary := SummaryOf(resp);
    match m
    case CreditCard(token, _, _, _) =>
      CardDetails(summary, token, resp.maskedCard, resp.bank, resp.cardType, resp.redirectUrl,
                  resp.threeDsStatus, resp.channelResponseCode, resp.channelResponseMessage)
    case BankTransfer(_) =>
      BankTransferDetails(summary, resp.vaNumbers, resp.paymentCode, resp.billKey, resp.billerCode)
    case Gopay(_, _) =>
      GopayDetails(summary, ActionUrl(resp.actions, QrCodeAction), ActionUrl(resp.actions, DeeplinkAction),
                   ActionUrl(resp.actions, StatusAction))
    case Qris(_) =>
      QrisDetails(summary, resp.qrString, resp.acquirer, resp.actions)
  }
}

/**
 * The shapes of the messages the payment gateway sends back: the reply to a
 * charge request, an asynchronous notification and the reply to a status
 * query. The gateway itself is outside the model; these are its outputs, which
 * the controller receives as inputs.
 */
module GatewayMessages {
  import opened Wrappers

  /** One entry of the `actions` list returned for e-wallet and QRIS charges. */
  datatype Action = Action(name: string, httpMethod: string, url: string)

  /** One virtual-account number returned for a bank-transfer charge. */
  datatype VaNumber = VaNumber(bank: string, vaNumber: string)

  /** The fields of a charge reply that the controller reads; every field may be missing. */
  datatype ChargeResponse = ChargeResponse(
    transactionId: Option<string>,
    transactionStatus: Option<string>,
    transactionTime: Option<string>,
    currency: Option<string>,
    fraudStatus: Option<string>,
    grossAmount: Option<string>,
    maskedCard: Option<string>,
    bank: Option<string>,
    cardType: Option<string>,
    redirectUrl: Option<string>,
    threeDsStatus: Option<string>,
    channelResponseCode: Option<string>,
    channelResponseMessage: Option<string>,
    vaNumbers: Option<seq<VaNumber>>,
    paymentCode: Option<string>,
    billKey: Option<string>,
    billerCode: Option<string>,
    actions: Option<seq<Action>>,
    qrString: Option<string>,
    acquirer: Option<string>)

  /** What a charge call does: it returns a reply, or it throws (network error, decline). */
  datatype ChargeOutcome = Charged(response: ChargeResponse) | ChargeFailed(message: string)

  /** A notification as the gateway SDK hands it back after checking it. */
  datatype Notification = Notification(orderId: string, transactionStatus: string, fraudStatus: Option<string>)

  /** The fields of a status-query reply that the controller reads. */
  datatype StatusReply = StatusReply(
    transactionId: Option<string>,
    transactionStatus: Option<string>,
    fraudStatus: Option<string>,
    paymentType: Option<string>,
    currency: Option<string>,
    grossAmount: Option<string>,
    transactionTime: Option<string>)
}

/**
 * The payment gateway's charge capability. The gateway is a remote service the
 * model does not see into: `respond` stands for whatever it answers to a
 * request, and `charged` records every request actually sent, so that a
 * caller's contract can say whether, and what, it sent.
 */
module GatewayClient {
  import opened GatewayMessages
  import opened PaymentAdapter

  class Gateway {
    const respond: ChargeRequest -> ChargeOutcome
    var charged: seq<ChargeRequest>

    constructor (respond: ChargeRequest -> ChargeOutcome)
      ensures this.respond == respond && charged == []
    {
      this.respond := respond;
      charged := [];
    }

    /** `core.charge(request)`: sends the request and returns the gateway's answer. */
    method Charge(request: ChargeRequest) returns (outcome: ChargeOutcome)
      modifies this
      ensures charged == old(charged) + [request]
      ensures outcome == respond(request)
    {
      charged := charged + [request];
      outcome := respond(request);
    }
  }
}

/**
 * The payment processor as the services see it: every call is appended to a log and answered by
 * a fixed but otherwise arbitrary reply function, so every property proved here holds whatever
 * the processor answers.
 */
module PaymentGateway {
  import opened Wrappers

  datatype GatewayRequest =
    | CreateProduct(name: string, description: string)
    | CreatePrice(productId: string, amount: real, currency: string, interval: string)
    | UpdateProduct(productId: string, newName: string, newDescription: string)
    | CreateCustomer(email: string, fullName: string)
    | CreateSubscription(customerId: string, priceId: string, metadata: map<string, string>)
    | CreatePaymentIntent(amount: real, currency: string, metadata: map<string, string>)

  class Gateway {
    /** The processor's answer to the n-th request (an id on success, an error text otherwise). */
    const respond: (nat, GatewayRequest) -> Result<string>
    var log: seq<GatewayRequest>

    constructor (respond: (nat, GatewayRequest) -> Result<string>)
      ensures this.respond == respond && log == []
    {
      this.respond := respond;
      log := [];
    }

    /** The reply the next request `req` will get. */
    function NextReply(req: GatewayRequest): Result<string>
      reads this
    {
      respond(|log|, req)
    }

    method Call(req: GatewayRequest) returns (r: Result<string>)
      modifies this
      ensures log == old(log) + [req]
      ensures r == old(NextReply(req))
    {
      r := respond(|log|, req);
      log := log + [req];
    }
  }
}

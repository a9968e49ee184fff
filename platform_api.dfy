/**
 * The platform API as the coordinator reaches it through its HTTP client:
 * requests go out, and the answer to each (a payment, a list of payments, or
 * a failure) is fixed in advance as a function of the request and of how
 * many requests came before it. The client keeps a log of what it sent.
 */
module PlatformApi {
  import opened JsValues
  import opened Types

  datatype Body = NoBody | PaymentBody(payment: Value) | TxidBody(txid: string)

  datatype Request = Get(path: string) | Post(path: string, body: Body)

  /** The body of `GET /payments/incomplete_server_payments`. */
  datatype IncompletePayments = IncompletePayments(incompleteServerPayments: seq<PaymentDTO>)

  /** The client `createPlatformApiClient(apiKey)` returns. */
  class Client {
    /** The key sent as `Authorization: Key <apiKey>`. */
    const apiKey: string
    const paymentReply: (nat, Request) -> Result<PaymentDTO>
    const listReply: (nat, Request) -> Result<IncompletePayments>
    var requests: seq<Request>

    constructor (
      apiKey: string,
      paymentReply: (nat, Request) -> Result<PaymentDTO>,
      listReply: (nat, Request) -> Result<IncompletePayments>)
      ensures this.apiKey == apiKey
      ensures this.paymentReply == paymentReply && this.listReply == listReply
      ensures requests == []
    {
      this.apiKey := apiKey;
      this.paymentReply := paymentReply;
      this.listReply := listReply;
      requests := [];
    }

    /** A request whose response body is one payment. */
    method SendForPayment(request: Request) returns (r: Result<PaymentDTO>)
      modifies this
      ensures requests == old(requests) + [request]
      ensures r == paymentReply(|old(requests)|, request)
    {
      r := paymentReply(|requests|, request);
      requests := requests + [request];
    }

    /** A request whose response body carries a list of payments. */
    method SendForList(request: Request) returns (r: Result<IncompletePayments>)
      modifies this
      ensures requests == old(requests) + [request]
      ensures r == listReply(|old(requests)|, request)
    {
      r := listReply(|requests|, request);
      requests := requests + [request];
    }
  }
}

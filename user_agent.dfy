/** The ingress service's three handlers: the create-payment relay, the
    invoice relay and the confirmation endpoint the processing service
    pushes to. Each HTTP exchange with the processing service is an input:
    the decoded JSON reply, or the exception the exchange raised. */
module UserAgent {
  import opened Messages

  /** The client's payment request. */
  datatype UserRequest = UserRequest(amount: real, product_name: string, quantity: int, email: string)

  /** The client-facing response; `payment_link` is `None` where the handler
      does not set it. */
  datatype UserResponse = UserResponse(status: string, details: string, payment_link: Option<string>)

  /** The client-facing invoice response. */
  datatype InvoiceResponse = InvoiceResponse(status: string, details: string)

  /** One exchange with the processing service: the fields of the JSON body
      it replied with, or the message of the exception raised while sending,
      waiting or decoding. */
  datatype Exchange = Reply(fields: map<string, string>) | Failure(message: string)

  /** What a relay handler sent downstream and what it answered. */
  datatype Relayed<Req, Resp> = Relayed(sent: Req, response: Resp)

  /** `str(KeyError(key))`: the key's repr, in single quotes. */
  function KeyErrorMessage(key: string): (r: string)
    ensures |r| == |key| + 2 && r[0] == '\'' && r[|r| - 1] == '\'' && r[1..|r| - 1] == key
  {
    "'" + key + "'"
  }

  /** The `PaymentRequest` built from a client request: the currency is
      fixed, `email` becomes `customer_email`, nothing is checked. */
  function ToPaymentRequest(req: UserRequest): (p: PaymentRequest)
    ensures p.currency == "USD"
    ensures p.amount == req.amount && p.product_name == req.product_name && p.quantity == req.quantity
    ensures p.customer_email == req.email
  {
    PaymentRequest(req.amount, "USD", req.product_name, req.quantity, req.email)
  }

  /** The client request a forwarded `PaymentRequest` came from. */
  function FromPaymentRequest(p: PaymentRequest): UserRequest {
    UserRequest(p.amount, p.product_name, p.quantity, p.customer_email)
  }

  /** Building the forwarded request loses nothing of the client's request,
      and every `USD` request is built from exactly one client request. */
  lemma PaymentRequestRoundTrip(req: UserRequest, p: PaymentRequest)
    ensures FromPaymentRequest(ToPaymentRequest(req)) == req
    ensures p.currency == "USD" ==> ToPaymentRequest(FromPaymentRequest(p)) == p
    ensures ToPaymentRequest(req) == p <==> p.currency == "USD" && FromPaymentRequest(p) == req
  {
  }

  /** `handle_user_request`: the request is forwarded as built, and
      `status`, `details` and `payment_link` are read from the reply in that
      order; a missing one raises `KeyError`, which is caught. The error
      response the model gives then leaves `payment_link` unset; the record
      framework's check that it is set is not modelled. */
  function HandleUserRequest(req: UserRequest, exchange: Exchange): (r: Relayed<PaymentRequest, UserResponse>)
    ensures r.sent == ToPaymentRequest(req)
    ensures exchange.Failure? ==> r.response == UserResponse("error", exchange.message, None)
    ensures exchange.Reply? && (forall k :: k in ["status", "details", "payment_link"] ==> k in exchange.fields) ==>
      var f := exchange.fields;
      r.response == UserResponse(f["status"], f["details"], Some(f["payment_link"]))
    ensures exchange.Reply? && "status" !in exchange.fields ==>
      r.response == UserResponse("error", KeyErrorMessage("status"), None)
    ensures exchange.Reply? && "status" in exchange.fields && "details" !in exchange.fields ==>
      r.response == UserResponse("error", KeyErrorMessage("details"), None)
    ensures exchange.Reply? && "status" in exchange.fields && "details" in exchange.fields
            && "payment_link" !in exchange.fields ==>
      r.response == UserResponse("error", KeyErrorMessage("payment_link"), None)
  {
    var sent := ToPaymentRequest(req);
    match exchange
    case Failure(msg) => Relayed(sent, UserResponse("error", msg, None))
    case Reply(f) =>
      if "status" !in f then Relayed(sent, UserResponse("error", KeyErrorMessage("status"), None))
      else if "details" !in f then Relayed(sent, UserResponse("error", KeyErrorMessage("details"), None))
      else if "payment_link" !in f then Relayed(sent, UserResponse("error", KeyErrorMessage("payment_link"), None))
      else Relayed(sent, UserResponse(f["status"], f["details"], Some(f["payment_link"])))
  }

  /** `handle_invoice_request`: the request is forwarded unchanged and the
      reply's `status` and `details` are passed through. */
  function HandleInvoiceRequest(req: InvoiceRequest, exchange: Exchange): (r: Relayed<InvoiceRequest, InvoiceResponse>)
    ensures r.sent == req
    ensures exchange.Failure? ==> r.response == InvoiceResponse("error", exchange.message)
    ensures exchange.Reply? && "status" in exchange.fields && "details" in exchange.fields ==>
      r.response == InvoiceResponse(exchange.fields["status"], exchange.fields["details"])
    ensures exchange.Reply? && "status" !in exchange.fields ==>
      r.response == InvoiceResponse("error", KeyErrorMessage("status"))
    ensures exchange.Reply? && "status" in exchange.fields && "details" !in exchange.fields ==>
      r.response == InvoiceResponse("error", KeyErrorMessage("details"))
  {
    match exchange
    case Failure(msg) => Relayed(req, InvoiceResponse("error", msg))
    case Reply(f) =>
      if "status" !in f then Relayed(req, InvoiceResponse("error", KeyErrorMessage("status")))
      else if "details" !in f then Relayed(req, InvoiceResponse("error", KeyErrorMessage("details")))
      else Relayed(req, InvoiceResponse(f["status"], f["details"]))
  }

  /** `handle_payment_confirmation`: the pushed response's status and
      details, and nothing else; the answer depends on the push alone. */
  function HandlePaymentConfirmation(resp: PaymentResponse): (r: UserResponse)
    ensures r.status == resp.status && r.details == resp.details && r.payment_link.None?
  {
    UserResponse(resp.status, resp.details, None)
  }
}

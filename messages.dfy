/** Wire types shared by the two services: the payment request and the
    payment response that the processing service returns and pushes, plus
    the small wrappers used to make exceptions and absent fields explicit. */
module Messages {

  /** An optional value or dictionary entry. */
  datatype Option<+T> = None | Some(value: T)

  /** The outcome of a call the model does not look inside (the payment
      processor, the invoice generator): it either returns a value or raises
      an exception whose `str(e)` is `message`. */
  datatype CallOutcome<+T> = Completed(value: T) | Threw(message: string)

  /** A money amount as it travels in a response. `Major` is an amount in
      major currency units as the client gave it; `Minor` stands for the
      float `units / 100.0` computed from a count in minor units, which the
      model records but does not compute. */
  datatype Amount = Major(value: real) | Minor(units: int)

  /** The request the ingress service forwards to the processing service. */
  datatype PaymentRequest = PaymentRequest(
    amount: real,
    currency: string,
    product_name: string,
    quantity: int,
    customer_email: string)

  /** The response of every processing-service handler. The optional fields
      are `None` where a handler leaves them at the record's defaults. */
  datatype PaymentResponse = PaymentResponse(
    status: string,
    details: string,
    payment_link: Option<string>,
    generate_time: Option<int>,
    payment_status: Option<string>,
    confirmation_time: Option<int>,
    amount: Option<Amount>)

  /** The invoice request: the same single field on both services. */
  datatype InvoiceRequest = InvoiceRequest(payment_id: string)

  /** `PaymentResponse(status="error", details=msg)`: every handler's
      error shape, carrying only a status and a message. */
  function ErrorResponse(msg: string): (r: PaymentResponse)
    ensures r.status == "error" && r.details == msg
    ensures r.payment_link.None? && r.generate_time.None? && r.payment_status.None?
    ensures r.confirmation_time.None? && r.amount.None?
  {
    PaymentResponse("error", msg, None, None, None, None, None)
  }
}

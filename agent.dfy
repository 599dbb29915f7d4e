/** The processing service's three handlers: payment-link generation, the
    payment-provider webhook, and invoice generation. The payment processor,
    the webhook signature check and the wall clock are inputs. */
module Agent {
  import opened Messages
  import LinkScan
  import Decimal

  // ---------------------------------------------------------------------
  // Payment-link generation
  // ---------------------------------------------------------------------

  const NoLinkMessage: string := "Failed to find a valid payment link in the result"
  const LinkGeneratedMessage: string := "Payment link generated successfully"

  /** `handle_payment`: `processed` is what `create_payment_link` did with
      the request's fields (its free-text result, or the exception it
      raised), `now` the clock reading. The processor is called with the
      request's five fields; the model does not tie the outcome to them. */
  function HandlePayment(req: PaymentRequest, processed: CallOutcome<string>, now: int): (r: PaymentResponse)
    ensures processed.Threw? ==> r == ErrorResponse(processed.message)
    ensures processed.Completed? && LinkScan.ExtractLink(processed.value).None? ==>
      r == ErrorResponse(NoLinkMessage)
    ensures r.status == "success" <==>
      processed.Completed? && LinkScan.ExtractLink(processed.value).Some?
    ensures r.status == "success" ==>
      && r.details == LinkGeneratedMessage
      && r.payment_link == LinkScan.ExtractLink(processed.value)
      && LinkScan.IsWellFormedLink(r.payment_link.value)
      && r.generate_time == Some(now)
      && r.payment_status == Some("pending")
      && r.confirmation_time == Some(0)
      && r.amount == Some(Major(req.amount))
    ensures r.status != "success" ==> r.status == "error"
  {
    match processed
    case Threw(msg) => ErrorResponse(msg)
    case Completed(result) =>
      match LinkScan.ExtractLink(result)
      case None => ErrorResponse(NoLinkMessage)
      case Some(link) =>
        PaymentResponse("success", LinkGeneratedMessage, Some(link), Some(now),
                        Some("pending"), Some(0), Some(Major(req.amount)))
  }

  /** On a successful link, the link is a piece of the processor's text,
      followed there by whitespace or the end, and no earlier position of
      the text starts `https?://\S`. */
  lemma PaymentLinkComesFromResult(req: PaymentRequest, result: string, now: int)
    requires HandlePayment(req, Completed(result), now).status == "success"
    ensures var link := HandlePayment(req, Completed(result), now).payment_link.value;
      exists s: nat :: LinkScan.IsFoundAt(result, s, link)
  {
  }

  // ---------------------------------------------------------------------
  // Payment-provider webhook
  // ---------------------------------------------------------------------

  /** One charge record of a payment intent; only its receipt URL is read. */
  datatype Charge = Charge(receipt_url: Option<string>)

  /** The `charges` object of a payment intent, with an optional `data` list. */
  datatype ChargeList = ChargeList(data: Option<seq<Charge>>)

  /** The event's `data.object`: each field may be absent (`.get` gives None). */
  datatype PaymentIntent = PaymentIntent(
    receipt_email: Option<string>,
    amount_received: Option<int>,
    currency: Option<string>,
    description: Option<string>,
    created: Option<int>,
    charges: Option<ChargeList>)

  /** A signature-checked webhook event: its `type` tag and its object. */
  datatype Event = Event(eventType: string, intent: PaymentIntent)

  /** The three outcomes of `stripe.Webhook.construct_event`. */
  datatype Verification = PayloadError | SignatureError | Verified(event: Event)

  /** The exceptions the webhook handler does not catch. */
  datatype Crash = IndexError | TypeError

  /** How the handler ends: it returns a response or an exception escapes. */
  datatype Outcome = Responded(response: PaymentResponse) | Aborted(error: Crash)

  /** One confirmation push: the URL posted to and the response sent. */
  datatype Push = Push(url: string, body: PaymentResponse)

  /** The handler's result together with the pushes it made, in order. */
  datatype WebhookResult = WebhookResult(outcome: Outcome, pushes: seq<Push>)

  const SucceededType: string := "payment_intent.succeeded"
  const ConfirmationEndpoint: string := "http://localhost:8001/payment_confirmation"
  const InvalidPayloadMessage: string := "Invalid payload"
  const InvalidSignatureMessage: string := "Invalid signature"
  const UnhandledEventMessage: string := "Unhandled event type"

  /** The intent carries a `charges.data` list and it is empty. */
  predicate HasEmptyChargeData(intent: PaymentIntent) {
    intent.charges.Some? && intent.charges.value.data.Some? && |intent.charges.value.data.value| == 0
  }

  /** The intent's first charge exists and has receipt URL `url`. */
  predicate FirstChargeHasUrl(intent: PaymentIntent, url: string) {
    && intent.charges.Some? && intent.charges.value.data.Some?
    && |intent.charges.value.data.value| > 0
    && intent.charges.value.data.value[0].receipt_url == Some(url)
  }

  /** The intent's first charge exists and has no receipt URL. */
  predicate FirstChargeLacksUrl(intent: PaymentIntent) {
    && intent.charges.Some? && intent.charges.value.data.Some?
    && |intent.charges.value.data.value| > 0
    && intent.charges.value.data.value[0].receipt_url.None?
  }

  /** `payment_intent.get("charges", {}).get("data", [{}])[0].get("receipt_url", "")`;
      `None` stands for the `IndexError` that an empty `data` list raises. */
  function ReceiptUrl(intent: PaymentIntent): (r: Option<string>)
    ensures r.None? <==> HasEmptyChargeData(intent)
    ensures forall url :: FirstChargeHasUrl(intent, url) ==> r == Some(url)
    ensures r.Some? && r.value != "" ==> FirstChargeHasUrl(intent, r.value)
    ensures intent.charges.None? ==> r == Some("")
    ensures intent.charges.Some? && intent.charges.value.data.None? ==> r == Some("")
    ensures FirstChargeLacksUrl(intent) ==> r == Some("")
  {
    var data := if intent.charges.Some? then intent.charges.value.data else None;
    var first := if data.Some? then (if |data.value| == 0 then None else Some(data.value[0]))
                 else Some(Charge(None));
    match first
    case None => None
    case Some(charge) => Some(if charge.receipt_url.Some? then charge.receipt_url.value else "")
  }

  /** Python's f-string rendering of an optional string: a present value
      as it is, an absent one as "None". */
  function ShowText(v: Option<string>): (r: string)
    ensures v.Some? ==> r == v.value
    ensures v.None? ==> r == "None"
  {
    if v.Some? then v.value else "None"
  }

  /** Python's f-string rendering of an optional integer: `str(n)`, which
      reads back as `n`, or "None". */
  function ShowInt(v: Option<int>): (r: string)
    ensures v.None? ==> r == "None"
    ensures v.Some? ==>
      && |r| >= 1 && (if r[0] == '-' then Decimal.AllDigits(r[1..]) else Decimal.AllDigits(r))
      && Decimal.ParseInt(r) == v.value
  {
    if v.Some? then
      Decimal.IntToDecimalRoundTrip(v.value);
      Decimal.IntToDecimal(v.value)
    else "None"
  }

  /** `f"Payment of {amount_received} {currency} for {description} confirmed."` */
  function ConfirmationDetails(intent: PaymentIntent): (r: string)
    ensures |r| >= 22 && r[..11] == "Payment of " && r[|r| - 11..] == " confirmed."
    ensures var a := ShowInt(intent.amount_received);
      11 + |a| < |r| && r[11..11 + |a|] == a && r[11 + |a|] == ' '
  {
    var a := ShowInt(intent.amount_received);
    var middle := " " + ShowText(intent.currency) + " for " + ShowText(intent.description);
    var r := "Payment of " + a + middle + " confirmed.";
    assert r == (("Payment of " + a) + middle) + " confirmed.";
    assert r[11..11 + |a|] == a;
    r
  }

  /** `handle_stripe_webhook`: `v` is the signature check's outcome, `now`
      the clock reading. The response is pushed before it is returned. */
  function HandleStripeWebhook(v: Verification, now: int): (r: WebhookResult)
    ensures |r.pushes| <= 1
    ensures v.PayloadError? ==> r == WebhookResult(Responded(ErrorResponse(InvalidPayloadMessage)), [])
    ensures v.SignatureError? ==> r == WebhookResult(Responded(ErrorResponse(InvalidSignatureMessage)), [])
    ensures v.Verified? && v.event.eventType != SucceededType ==>
      r == WebhookResult(Responded(ErrorResponse(UnhandledEventMessage)), [])
    ensures |r.pushes| == 1 <==> v.Verified? && v.event.eventType == SucceededType && r.outcome.Responded?
    ensures |r.pushes| == 1 ==> r.pushes[0] == Push(ConfirmationEndpoint, r.outcome.response)
    ensures v.Verified? && v.event.eventType == SucceededType ==>
      (r.outcome.Aborted? <==> HasEmptyChargeData(v.event.intent) || v.event.intent.amount_received.None?)
    ensures v.Verified? && v.event.eventType == SucceededType && HasEmptyChargeData(v.event.intent) ==>
      r.outcome == Aborted(IndexError)
    ensures v.Verified? && v.event.eventType == SucceededType && r.outcome.Responded? ==>
      var intent, resp := v.event.intent, r.outcome.response;
      && resp.status == "success"
      && resp.details == ConfirmationDetails(intent)
      && resp.payment_link == ReceiptUrl(intent)
      && resp.generate_time == intent.created
      && resp.payment_status == Some("succeeded")
      && resp.confirmation_time == Some(now)
      && resp.amount == Some(Minor(intent.amount_received.value))
  {
    match v
    case PayloadError => WebhookResult(Responded(ErrorResponse(InvalidPayloadMessage)), [])
    case SignatureError => WebhookResult(Responded(ErrorResponse(InvalidSignatureMessage)), [])
    case Verified(event) =>
      if event.eventType == SucceededType then
        var intent := event.intent;
        match ReceiptUrl(intent)
        case None => WebhookResult(Aborted(IndexError), [])
        case Some(url) =>
          if intent.amount_received.None? then WebhookResult(Aborted(TypeError), [])
          else
            var resp := PaymentResponse("success", ConfirmationDetails(intent), Some(url), intent.created,
                                        Some("succeeded"), Some(now), Some(Minor(intent.amount_received.value)));
            WebhookResult(Responded(resp), [Push(ConfirmationEndpoint, resp)])
      else
        WebhookResult(Responded(ErrorResponse(UnhandledEventMessage)), [])
  }

  /** The confirmation text names the amount as `str(amount_received)`, from
      which the amount in minor units can be read back. */
  lemma ConfirmationNamesAmount(intent: PaymentIntent)
    requires intent.amount_received.Some?
    ensures var a := Decimal.IntToDecimal(intent.amount_received.value);
      && 11 + |a| <= |ConfirmationDetails(intent)|
      && ConfirmationDetails(intent)[..11] == "Payment of "
      && ConfirmationDetails(intent)[11..11 + |a|] == a
      && |a| >= 1 && (if a[0] == '-' then Decimal.AllDigits(a[1..]) else Decimal.AllDigits(a))
      && Decimal.ParseInt(a) == intent.amount_received.value
  {
    Decimal.IntToDecimalRoundTrip(intent.amount_received.value);
  }

  // ---------------------------------------------------------------------
  // Invoice generation
  // ---------------------------------------------------------------------

  /** `handle_invoice_generation`: `generated` is what `generate_invoice`
      did with the request's payment id, `now` the clock reading. The call
      receives `req.payment_id`; the model does not tie the outcome to it,
      so `req` is not read. */
  function HandleInvoiceGeneration(req: InvoiceRequest, generated: CallOutcome<string>, now: int): (r: PaymentResponse)
    ensures generated.Threw? ==> r == ErrorResponse(generated.message)
    ensures generated.Completed? ==>
      && r.status == "success"
      && r.details == generated.value
      && r.payment_status == Some("invoice_generated")
      && r.payment_link.None? && r.generate_time.None? && r.amount.None?
      && r.confirmation_time == Some(now)
  {
    match generated
    case Threw(msg) => ErrorResponse(msg)
    case Completed(result) =>
      PaymentResponse("success", result, None, None, Some("invoice_generated"), Some(now), None)
  }
}

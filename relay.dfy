/** The two services composed: the ingress relay reading the processing
    service's responses, and the confirmation push landing at the ingress
    confirmation endpoint. */
module Relay {
  import opened Messages
  import LinkScan
  import Agent
  import UserAgent

  /** The string fields of a `PaymentResponse` as its JSON body carries them.
      An unset payment link is left out of the map, where the body carries
      it as `null`. */
  function ReplyOf(resp: PaymentResponse): (f: map<string, string>)
    ensures "status" in f && f["status"] == resp.status
    ensures "details" in f && f["details"] == resp.details
    ensures "payment_link" in f <==> resp.payment_link.Some?
    ensures resp.payment_link.Some? ==> f["payment_link"] == resp.payment_link.value
  {
    var base := map["status" := resp.status, "details" := resp.details];
    if resp.payment_link.Some? then base["payment_link" := resp.payment_link.value] else base
  }

  /** Create-payment end to end: the ingress forwards the client's request,
      the processing service searches the processor's text, and the client
      gets the link exactly when the text holds one. */
  lemma CreatePaymentEndToEnd(req: UserAgent.UserRequest, processed: CallOutcome<string>, now: int)
    ensures
      var sent := UserAgent.ToPaymentRequest(req);
      var answer := Agent.HandlePayment(sent, processed, now);
      var client := UserAgent.HandleUserRequest(req, UserAgent.Reply(ReplyOf(answer))).response;
      && (processed.Completed? && LinkScan.ExtractLink(processed.value).Some? ==>
            && client == UserAgent.UserResponse("success", Agent.LinkGeneratedMessage,
                                                LinkScan.ExtractLink(processed.value))
            && LinkScan.IsWellFormedLink(client.payment_link.value))
      && (processed.Threw? || LinkScan.ExtractLink(processed.value).None? ==> client.status == "error")
  {
  }

  /** Invoice end to end: the client sees the processing service's status
      and details, so a failing invoice call surfaces its message. */
  lemma InvoiceEndToEnd(req: InvoiceRequest, generated: CallOutcome<string>, now: int)
    ensures
      var answer := Agent.HandleInvoiceGeneration(req, generated, now);
      var relayed := UserAgent.HandleInvoiceRequest(req, UserAgent.Reply(ReplyOf(answer)));
      && relayed.sent == req
      && (generated.Threw? ==> relayed.response == UserAgent.InvoiceResponse("error", generated.message))
      && (generated.Completed? ==> relayed.response == UserAgent.InvoiceResponse("success", generated.value))
  {
  }

  /** Every confirmation push goes to the ingress confirmation endpoint, and
      what that endpoint answers is the webhook response's own status and
      details: a success carrying the confirmation text. */
  lemma ConfirmationDelivered(v: Agent.Verification, now: int)
    ensures
      var r := Agent.HandleStripeWebhook(v, now);
      forall p :: p in r.pushes ==>
        && p.url == Agent.ConfirmationEndpoint
        && r.outcome.Responded?
        && UserAgent.HandlePaymentConfirmation(p.body)
           == UserAgent.UserResponse("success", Agent.ConfirmationDetails(v.event.intent), None)
  {
  }

  /** Events other than `payment_intent.succeeded`, and every rejected
      payload or signature, reach the ingress service not at all. */
  lemma OnlySucceededEventsPush(v: Agent.Verification, now: int)
    requires !(v.Verified? && v.event.eventType == Agent.SucceededType)
    ensures Agent.HandleStripeWebhook(v, now).pushes == []
  {
  }
}

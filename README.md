# Stripe payment relay: a Dafny model of its decision logic

The system has two services. The ingress service (`user_agent.py`) takes client
requests and forwards them. The processing service (`agent.py`) asks a payment
processor for a payment link and finds the URL in the processor's free text. It
also checks and dispatches payment-provider webhooks, pushing a confirmation to
the ingress service for each succeeded payment, and it wraps an invoice call.

This project models the decision logic of both files:

- **Link extraction** (`LinkScan`): a search for `https?://\S+` with Python's
  `re.search` semantics. The match starts leftmost and `\S+` is greedy. `\s`
  is Python's Unicode whitespace set.
- **`str(int)`** (`Decimal`): the decimal rendering used inside the
  confirmation text, with its parse round trip.
- **The processing service's handlers** (`Agent`): `handle_payment`,
  `handle_stripe_webhook` and `handle_invoice_generation`.
  - The processor's result and the invoice call are abstract call outcomes
    (`CallOutcome`).
  - The webhook signature check is an input with three outcomes
    (`Verification`).
  - The clock is a parameter.
  - The confirmation push is returned as a list of `(url, response)` pushes
    beside the handler's outcome. Exceptions that escape the handler are
    outcomes too (`Aborted`).
- **The ingress service's handlers** (`UserAgent`): the create-payment relay,
  the invoice relay and the confirmation endpoint. Each HTTP exchange is an
  input: `Reply(fields)` or `Failure(message)`.
- **The two services composed** (`Relay`): the model's answer to the client
  when the ingress relay reads the processing service's response, and how the
  confirmation push is delivered. Framework field validation is not modelled
  (see "## Left out"), so on error paths this is the model's answer, which the
  real program might not deliver.

In these places the model follows the code as written:

- The ingress service validates nothing (`user_agent.py:38-44`). It forwards
  any amount, quantity, product name or email.
- The `payment_intent.succeeded` lookup defaults a missing `charges` key, a
  missing `data` key and a first charge without `receipt_url` (`agent.py:89`).
  A `data` list that is present but empty raises an `IndexError`, which the
  handler does not catch. The model returns `Aborted(IndexError)` with no push.
- The ingress relay never looks at the HTTP status code. Whatever JSON comes
  back is copied (`user_agent.py:51-53`). A missing key raises a `KeyError`,
  which the handler catches. The model then answers `status="error"` with the
  key's repr, for example `'payment_link'`. In the program that error
  response leaves the required `payment_link` unset, so the record framework
  would reject it. That rejection is not modelled (see "## Left out").
- A successful invoice response sets `confirmation_time` to the clock value
  (`agent.py:119`).
- `payment_model.py` is not part of this model. The defaults of
  `PaymentResponse`'s optional fields are not known, so the model's
  `ErrorResponse` leaves them all `None`.

## Model

| member | source | states |
|---|---|---|
| LinkScan.IsSpace | agent.py:38 | Python's Unicode `\s`, which `\S+` excludes: every ASCII whitespace character is included and no visible ASCII character is |
| LinkScan.RunEnd | agent.py:38 | the greedy `\S+`: the run of non-whitespace from a position stops exactly at the first whitespace character or at the end of the text |
| LinkScan.RunEndUnique | agent.py:38 | any non-whitespace run from a position that stops at whitespace or the end of the text is the one `RunEnd` measures |
| LinkScan.RunEndPast | agent.py:38 | a non-whitespace stretch from a position never reaches past the run `RunEnd` measures |
| LinkScan.FirstMatchFrom | agent.py:38-39 | the scan finds the first index at or after a position where `https?://\S` can begin; no index before it can begin one, and `None` means no index can |
| LinkScan.MatchStartsPattern | agent.py:38 | every match of `https?://\S+` begins with `http://` or `https://` followed by a non-whitespace character |
| LinkScan.PatternGivesLongestMatch | agent.py:38 | where `https?://\S` begins, the run of non-whitespace is a match and no match from there is longer |
| LinkScan.Search | agent.py:38-40 | `re.search` finds a span exactly when some span of the text is in the language of `https?://\S+`; that span starts leftmost and is the longest one starting there; when there is none, no index begins `https?://\S` |
| LinkScan.LongestMatchEndsRun | agent.py:38-41 | the search's match is followed in the text by whitespace or by the end of the text |
| LinkScan.SearchResultUnique | agent.py:38-39 | leftmost-then-longest admits one span only, so the search result is determined by the text |
| LinkScan.MatchIsWellFormedLink | agent.py:38-41 | the text of a match starts with `http://` or `https://`, has at least one character after `://` and contains no whitespace |
| LinkScan.SearchResultIsFound | agent.py:38-41 | the search's match stands in the text at its start, is followed by whitespace or the end of the text, and no earlier index begins `https?://\S` |
| LinkScan.ExtractLink | agent.py:38-43 | `match.group(0)`: `None` exactly when no index of the text begins `https?://\S`; otherwise a well-formed link that is a contiguous piece of the text, followed by whitespace or the end, with no earlier index beginning the pattern |
| LinkScan.FoundLinkStartsPattern | agent.py:38-41 | a well-formed link found at a position begins the pattern there |
| LinkScan.FoundLinkUnique | agent.py:38-41 | being well formed, standing at a position, ending at whitespace or the end of the text, and being leftmost together determine one link, so they determine what `ExtractLink` returns |
| Decimal.DigitChar | agent.py:88 | the digit character for a value below ten is a digit with that value |
| Decimal.NatToDecimal | agent.py:88 | `str(n)` of a natural number is a non-empty string of digits with no leading zero, and `"0"` for zero |
| Decimal.IntToDecimal | agent.py:88 | `str(n)` of an integer: a `-` exactly when `n` is negative, then digits with no leading zero |
| Decimal.DecimalValue | agent.py:88 | the value that `int(s)` gives a digit string; a string of digits not starting with `0` has a positive value |
| Decimal.ParseInt | agent.py:88 | `int(s)` for a rendered integer: non-negative without a `-`, non-positive with one, and negative when a non-zero digit follows the `-` |
| Decimal.DecimalValueRoundTrip | agent.py:88 | every canonical digit string is the rendering of its own value: `str(int(s)) == s` |
| Decimal.NatToDecimalRoundTrip | agent.py:88 | reading the digits of `str(n)` back gives `n` |
| Decimal.IntToDecimalRoundTrip | agent.py:88 | `int(str(n)) == n` for every integer, negative ones included |
| Messages.ErrorResponse | agent.py:55 | `PaymentResponse(status="error", details=msg)`, the error shape every handler uses: status "error", the given message, and no other field set |
| Agent.HandlePayment | agent.py:26-56 | an exception from the processor becomes `status="error"` with its message; text with no link becomes `status="error"` with "Failed to find a valid payment link in the result"; otherwise `status="success"`, "Payment link generated successfully", the extracted link (well formed), `generate_time` the clock, `payment_status="pending"`, `confirmation_time=0` and the requested amount; success happens exactly when the text holds a link |
| Agent.PaymentLinkComesFromResult | agent.py:37-41 | a generated payment link is a contiguous piece of the processor's text, followed there by whitespace or the end, with no earlier position beginning `https?://\S` |
| Agent.ReceiptUrl | agent.py:89 | `""` when `charges` is absent, when `data` is absent, or when the first charge has no `receipt_url`; the first charge's `receipt_url` when it has one; the `IndexError` exactly when `data` is present and empty |
| Agent.ShowText | agent.py:88 | the f-string rendering of an optional text: the text itself, or "None" when it is absent |
| Agent.ShowInt | agent.py:88 | the f-string rendering of an optional integer: `str(n)`, which reads back as `n`, or "None" when it is absent |
| Agent.ConfirmationDetails | agent.py:88 | the confirmation text begins "Payment of ", then the rendered `amount_received` and a space, and ends " confirmed." |
| Agent.HandleStripeWebhook | agent.py:62-103 | a payload error gives "Invalid payload" and a signature error gives "Invalid signature", both `status="error"` with no push; a verified event of any other type than `payment_intent.succeeded` gives "Unhandled event type" with no push; a succeeded event gives `status="success"`, the confirmation text, the receipt URL, `generate_time` the event's `created`, `payment_status="succeeded"`, `confirmation_time` the clock and the amount in minor units, after exactly one push of that same response to `http://localhost:8001/payment_confirmation`; it aborts with no push exactly when the charge list is empty or `amount_received` is missing; never more than one push |
| Agent.ConfirmationNamesAmount | agent.py:88 | the confirmation text begins "Payment of " followed by `str(amount_received)`, from which the amount received can be read back |
| Agent.HandleInvoiceGeneration | agent.py:109-124 | a generated invoice gives `status="success"`, the invoice call's result as details, `payment_status="invoice_generated"`, no link, no `generate_time`, no amount and `confirmation_time` the clock; an exception gives `status="error"` with its message |
| UserAgent.KeyErrorMessage | user_agent.py:54-55 | `str(KeyError(key))`: the key wrapped in single quotes |
| UserAgent.ToPaymentRequest | user_agent.py:38-44 | the forwarded request has currency "USD", the client's amount, product name and quantity unchanged, and `customer_email` set from `email`, with no check on any of them |
| UserAgent.PaymentRequestRoundTrip | user_agent.py:38-44 | building the forwarded request loses nothing: the client request can be recovered from it, and each USD request is built from exactly one client request |
| UserAgent.HandleUserRequest | user_agent.py:35-55 | the built request is what is forwarded; a reply with `status`, `details` and `payment_link` is copied verbatim; in the model, a failed exchange gives `status="error"` with its message, and a missing key gives `status="error"` with the `KeyError` message of the first key missing in that order |
| UserAgent.HandleInvoiceRequest | user_agent.py:58-69 | the invoice request is forwarded unchanged; the reply's `status` and `details` are passed through verbatim; a failed exchange or a missing key gives `status="error"` with the message |
| UserAgent.HandlePaymentConfirmation | user_agent.py:72-74 | the answer is the pushed response's status and details and depends on nothing else |
| Relay.ReplyOf | user_agent.py:51 | the JSON reply body carries the response's status, details and, when set, payment link |
| Relay.CreatePaymentEndToEnd | user_agent.py:46-53 | when the processor's text holds a link, the client gets `status="success"`, "Payment link generated successfully" and that well-formed link; otherwise the model's answer is `status="error"` |
| Relay.InvoiceEndToEnd | user_agent.py:61-67 | the client sees the invoice call's result as a success, or its exception message as an error |
| Relay.ConfirmationDelivered | agent.py:96-100 | every push goes to the ingress confirmation endpoint after a response was produced, and the endpoint answers `status="success"` with the confirmation text |
| Relay.OnlySucceededEventsPush | agent.py:69-103 | rejected payloads, rejected signatures and every event type other than `payment_intent.succeeded` make no push |

## Left out

- Webhook signature verification (`stripe.Webhook.construct_event`, `agent.py:70`)
  is a call into the provider's SDK. Only its three outcomes are modelled.
- Amount normalisation `amount_received / 100.0` (`agent.py:93`) is float
  arithmetic. The model records `amount_received` in minor units (`Minor`) and
  proves nothing about the float.
- The wall clock (`time.time()`, `agent.py:49, 84, 119`) is a parameter.
- HTTP transport, asynchrony and the 60-second timeouts are not modelled.
  Each exchange is an abstract reply-or-failure outcome. Whether a failed
  confirmation push propagates out of the webhook handler is also not modelled.
- The payment processor (`crew_ai.py`) is an LLM agent whose output text is
  nondeterministic. The model takes its result as an arbitrary string or
  exception. It defines no `generate_invoice`, so in the running program the
  invoice call always raises. The model keeps that outcome abstract.
- Agent setup, wallet funding, REST route registration and logging are not
  modelled. This includes the logging of the unverified body at `agent.py:64`.
- Framework field validation is not modelled. For example, the omitted
  `payment_link` of `UserResponse` at `user_agent.py:55` and `user_agent.py:74`
  is represented as `None`. `payment_link` is a required field
  (`user_agent.py:25`), so in the program those error responses and
  confirmation answers would be rejected, and the client would not receive
  them. The model does not represent that rejection.
- UserAgent.HandleUserRequest: its error answers (failed exchange, missing
  key) are the model's. The program's `UserResponse` would be rejected there
  because no `payment_link` is set, as the line above says.
- UserAgent.HandlePaymentConfirmation: the answer leaves `payment_link` unset.
  The program's framework would reject it in the same way, and that is not
  modelled.
- Relay.ReplyOf: an unset payment link is modelled as an absent key. The body
  that `response.dict()` produces (`agent.py:99`) carries it as `null`.
- Python `float` amounts (`user_agent.py:14`) are modelled as `real`. They
  are only copied, so no rounding is lost.
- JSON values that are not strings are not modelled. Reply fields are strings,
  so a `null` or numeric `status`, `details` or `payment_link` in a reply,
  and the coercion of it, are outside the model.
- `null` values under `charges`, `data` or `receipt_url` are not modelled.
  A field is either absent or holds its expected kind of value.
- Relay.CreatePaymentEndToEnd: on the error path it states only
  `status="error"`. Its `details` would be a framework validation message,
  because the processing service's error response has no payment link, and
  framework validation is not modelled.

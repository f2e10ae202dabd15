# WhatsApp payment bot: webhooks, payment signatures and the delivery client

This project models the server side of a small WhatsApp bot built on
Next.js. It has four parts:

- **Tokopay client** (`Tokopay`, `tokopay.dfy`). It covers the
  configuration factory and the `:`-joined strings the gateway signs. It
  also covers checking a payment callback's HMAC signature and the two
  signed gateway calls, `createPayment` and `checkPayment`.
- **Fonnte client** (`Fonnte`, `fonnte.dfy`). This is the WhatsApp
  delivery client: a class with a token, an optional device, a script of
  the outcomes its coming `fetch` calls meet, and a log of the requests
  it has issued. It models:
  - `sendMessage`;
  - `sendImage`, with its JSON attempt and its form-data fallback, which
    together can make up to three requests;
  - `sendImageFormData`;
  - the factory `createFonnteAPI`.
- **Payment webhook** (`PaymentWebhook`, `payment_webhook.dfy`). This is
  `POST /api/tokopay-webhook`. The signature gate answers 401 before any
  send. The phone number is recovered from `reference_id` by the first
  match of `/payment_(\d+)_\d+/`. The handler then dispatches on status:
  - SUCCESS: a confirmation, then a processing update 3000 ms later, then
    a completion message 5000 ms after that;
  - FAILED or PENDING: one message;
  - any other status: nothing.

  Time is logical. The handler's run is a log of `Sent(target, kind,
  time)` and `Answered(code, time)` events.
- **Chat webhook** (`ChatWebhook`, `chat_webhook.dfy`). This is
  `POST /api/webhook`. It picks a keyword reply from the lower-cased
  message. The order is greeting, then help menu, then product list, then
  echo. It tries once to send the reply back and swallows any failure of
  that send.

Shared definitions are in `common.dfy` (`Common`: options, results,
thrown values, scripted fetch outcomes). String helpers are in
`strings.dfy` (`Strings`: ASCII lower-casing, `includes`, decimal
rendering, splitting).

The network is replaced by scripts of outcomes. A `fetch` either rejects
with a thrown value, or responds with an HTTP `ok` flag and a body that
parses or does not. A script that runs out behaves like a rejected
`fetch`. HMAC-SHA256 is a function-valued parameter `hmac(key, message)`.
Nothing is assumed about it, not even injectivity.

### Behaviour worth noting

- `sendImage` can make three requests. When the JSON attempt's
  body has a falsy `status` and the form-data attempt throws, the outer
  `catch` makes a second form-data attempt (`lib/fonnte.ts:148-163`).
  See `Fonnte.ImageAttempts`.
- The three SUCCESS messages are chained. The first
  timer is set only after the confirmation's `await` returns normally.
  The completion is scheduled only inside the processing callback, after
  its send returns normally. So a failed confirmation means 500 and no
  timers, and a failed processing update cancels the completion
  (`app/api/tokopay-webhook/route.ts:84-120`).
- The signature comparison is plain string equality (`===`); there is
  no constant-time comparison (`lib/tokopay.ts:134`).

## Model

| member | source | states |
|---|---|---|
| Tokopay.CreateTokopayApi | lib/tokopay.ts:139-150 | fails with 'Tokopay credentials not found in environment variables' exactly when the merchant id or the secret key is missing or empty; otherwise keeps both and uses the base URL if set, else https://api.tokopay.id |
| Tokopay.GenerateSignature | lib/tokopay.ts:49-53 | the signature of a string is the HMAC of that string under the configured secret key (the hash itself is the `hmac` parameter) |
| Tokopay.WebhookSignatureString | lib/tokopay.ts:131 | merchant_id, reference_id, amount and status joined by `:`; WebhookStringFields and WebhookStringInjective state what it preserves |
| Tokopay.PaymentSignatureString | lib/tokopay.ts:69 | merchantId, refId and amount joined by `:`; PaymentStringFields states what it preserves |
| Tokopay.StatusSignatureString | lib/tokopay.ts:106 | merchantId and refId joined by `:`; StatusStringFields states what it preserves |
| Tokopay.VerifyWebhookSignature | lib/tokopay.ts:129-135 | true if and only if the carried signature equals hmac(secretKey, merchant_id:reference_id:amount:status) |
| Tokopay.VerifyReadsOnlySignedFields | lib/tokopay.ts:130-135 | the verdict depends only on the four signed fields, the carried signature and the secret key; fee, paid_at, the merchant id and the base URL of the configuration do not affect it |
| Tokopay.WebhookStringFields | lib/tokopay.ts:131 | if the text fields have no `:`, splitting the signed webhook string at `:` gives exactly merchant id, reference id, amount and status, in that order |
| Tokopay.WebhookStringInjective | lib/tokopay.ts:131 | if the text fields have no `:`, two callbacks sign the same string exactly when their four signed fields agree |
| Tokopay.WebhookStringAmbiguousWithColons | lib/tokopay.ts:131 | without that condition, moving a `:` from the merchant id into the reference id gives the same signed string for different fields |
| Tokopay.PaymentStringFields | lib/tokopay.ts:69 | if the merchant id and the reference id have no `:`, the createPayment string splits into merchant id, reference id and amount |
| Tokopay.StatusStringFields | lib/tokopay.ts:106 | if the merchant id and the reference id have no `:`, the checkPayment string splits into merchant id and reference id |
| Tokopay.ExpiredTime | lib/tokopay.ts:65 | expired_time is the given value when it is present and nonzero, and 60 otherwise |
| Tokopay.CreatePayment | lib/tokopay.ts:56-102 | one request to base URL + /v1/payment with `Bearer` + hmac(secretKey, merchantId:refId:amount) and a payload carrying merchant id, reference id, amount, channel, customer name, email and phone as given and the defaulted expired_time; a rejected fetch or an unparsable body becomes 'Failed to create payment'; otherwise the parsed body is returned unchanged, whatever the HTTP status |
| Tokopay.CheckPayment | lib/tokopay.ts:105-127 | one request to base URL + /v1/payment/status signed over merchantId:refId, with body {merchant_id, ref_id}; any failure becomes 'Failed to check payment status'; otherwise the parsed body |
| Strings.DecimalRoundTrip | lib/tokopay.ts:131 | the decimal rendering of the amount reads back as the same number |
| Strings.DecimalInjective | lib/tokopay.ts:131 | different amounts render as different strings |
| Common.MessageOf | lib/fonnte.ts:162 | a thrown Error yields its message and any other thrown value yields 'Unknown error' |
| Fonnte.CreateFonnteApi | lib/fonnte.ts:208-217 | throws 'FONNTE_TOKEN environment variable is required' exactly when the token is missing or empty; otherwise a new client with that token, the device passed through, and an empty request log |
| Fonnte.FonnteApi.constructor | lib/fonnte.ts:40-43 | keeps the token and the device |
| Fonnte.MessagePayload | lib/fonnte.ts:48-55 | the JSON body of sendMessage, in field order; MessagePayloadFields states its contents |
| Fonnte.MessagePayloadFields | lib/fonnte.ts:48-55 | the message payload carries target and message as given, countryCode '62' unless one is passed, device only when one is configured and non-empty, and no file or url |
| Fonnte.MessageResult | lib/fonnte.ts:63-84 | sendMessage succeeds exactly when the response is ok and its body parses, and then returns the body unchanged; a rejection or parse error is rethrown as it is; a non-ok response throws 'Fonnte API Error: ' + (reason, or 'Unknown error') |
| Fonnte.FonnteApi.SendMessage | lib/fonnte.ts:46-85 | makes exactly one JSON request with the message payload, uses up one scripted outcome, and settles as MessageResult of it |
| Fonnte.ImageJsonPayload | lib/fonnte.ts:110-120 | the JSON body of the first sendImage attempt, in field order; ImageJsonPayloadFields states its contents |
| Fonnte.ImageFormPayload | lib/fonnte.ts:170-177 | the form-data fields, in the order they are appended; FormPayloadIsJsonWithoutUrl relates them to the JSON body |
| Fonnte.ImageJsonPayloadFields | lib/fonnte.ts:110-120 | the JSON image payload sends caption \|\| 'Image' as message, the URL under both file and url, countryCode '62' unless one is passed, and device only when configured |
| Fonnte.FormPayloadIsJsonWithoutUrl | lib/fonnte.ts:170-177 | the form-data fields are the JSON image fields, in the same order, without url |
| Fonnte.FormDataResult | lib/fonnte.ts:181-203 | the form-data attempt succeeds exactly when the body parses, whatever the HTTP status; any thrown value becomes 'Form-Data method failed: ' + its message |
| Fonnte.FonnteApi.SendImageFormData | lib/fonnte.ts:168-204 | appends the form fields one at a time, makes exactly one form request without a Content-Type, and settles as FormDataResult |
| Fonnte.ImageAttempts | lib/fonnte.ts:148-163 | sendImage makes between one and three requests; exactly one when the JSON body's status is truthy; exactly three when that status is falsy and the first form-data attempt throws |
| Fonnte.ImageResult | lib/fonnte.ts:148-163 | a truthy JSON status returns that body; otherwise it returns the first form-data attempt that succeeds; when the last attempt also fails, it throws 'Failed to send image: ' + the message of the error the outer catch caught |
| Fonnte.ImageIgnoresHttpStatus | lib/fonnte.ts:138-153 | changing the HTTP ok flag of any image response changes neither the result nor the number of requests |
| Fonnte.FonnteApi.SendImage | lib/fonnte.ts:108-165 | the request log grows by the first ImageAttempts of [JSON, form data, form data], the script loses as many outcomes, and the result is ImageResult of the outcomes met |
| PaymentWebhook.ExtractPhoneFromRefId | app/api/tokopay-webhook/route.ts:160-164 | the group of the first match of the expression, or null; ExtractPhoneSpec and ExtractPhoneLeftmost state its meaning |
| PaymentWebhook.MatchAtIff | app/api/tokopay-webhook/route.ts:162 | the match function at one index agrees with the regular expression's meaning: `payment_`, a digit run as the group, `_`, a digit |
| PaymentWebhook.SearchFromSpec | app/api/tokopay-webhook/route.ts:162 | the search returns the leftmost match at or after its start, and nothing when there is none |
| PaymentWebhook.ExtractPhoneSpec | app/api/tokopay-webhook/route.ts:160-164 | the result is null exactly when the expression matches nowhere; otherwise it is the group of the leftmost match |
| PaymentWebhook.ExtractPhoneRoundTrip | app/api/tokopay-webhook/route.ts:160-164 | for non-empty digit strings phone and timestamp, payment_ + phone + _ + timestamp decodes to phone |
| PaymentWebhook.ExtractPhoneLeftmost | app/api/tokopay-webhook/route.ts:162-163 | conversely, a match with no match before it is the one whose group is returned |
| PaymentWebhook.ExtractPhoneExampleTypical | app/api/tokopay-webhook/route.ts:160-164 | payment_6281234_1700 decodes to 6281234 |
| PaymentWebhook.ExtractPhoneExampleLetters | app/api/tokopay-webhook/route.ts:162-163 | payment_abc_123 decodes to null |
| PaymentWebhook.ExtractPhoneExampleUnanchored | app/api/tokopay-webhook/route.ts:162 | xpayment_12_34_56y decodes to 12: the search is unanchored and the group stops at the first `_` |
| PaymentWebhook.Deliver | app/api/tokopay-webhook/route.ts:84-87 | one awaited sendMessage of a template to the phone, logged as Sent at the current instant |
| PaymentWebhook.ProcessPaymentNotification | app/api/tokopay-webhook/route.ts:57-157 | throws before any send without a WhatsApp token; sends nothing when no phone can be extracted or the status is not SUCCESS, FAILED or PENDING; otherwise sends one confirmation, failure or pending message to the phone; for SUCCESS, leaves a processing timer due 3000 ms later, and only if the confirmation returned normally |
| PaymentWebhook.FireTimer | app/api/tokopay-webhook/route.ts:89-120 | at the due time, sends the timer's stage; schedules completion 5000 ms later only after a processing update that returned normally |
| PaymentWebhook.RunStages | app/api/tokopay-webhook/route.ts:90-120 | the processing update is sent when its timer fires; the completion message follows 5000 ms later only when the update returned normally; one or two scripted outcomes are used up and the clock ends at the last send |
| PaymentWebhook.Notify | app/api/tokopay-webhook/route.ts:40-53 | an authentic callback runs as NotificationRun describes: no token gives 500 and no send; no phone number or an unknown status gives 200 and no send; FAILED or PENDING gives one send and 200 or 500 by its outcome; a failed SUCCESS confirmation gives 500 and no timers; otherwise confirmation, response, the processing update at +3000 ms and, if that update returned normally, the completion at +8000 ms |
| PaymentWebhook.NotificationRunShape | app/api/tokopay-webhook/route.ts:57-157 | in every such run, each send goes to the extracted phone, there is one request per send, events are in time order and the response comes at arrival; with a token and a phone, FAILED and PENDING make exactly one send, SUCCESS two or three unless the confirmation failed, only SUCCESS makes three, and other statuses make none |
| PaymentWebhook.Post | app/api/tokopay-webhook/route.ts:17-55 | the answer is 200, 401 or 500; nothing is sent and the only event is the answer unless the body parses, the credentials are configured and the signature verifies; 500 for a parse or configuration failure, 401 for a bad signature; an authentic callback runs as NotificationRun describes |
| Strings.ContainsIff | app/api/webhook/route.ts:51 | `includes` holds exactly when the word occurs at some index |
| Strings.LowerIdempotent | app/api/webhook/route.ts:51 | lower-casing leaves no ASCII capital and is idempotent |
| Strings.LowerConcat | app/api/webhook/route.ts:51 | lower-casing works character by character and distributes over concatenation |
| ChatWebhook.ChooseReply | app/api/webhook/route.ts:49-59 | the reply chosen by the keyword tests on the lower-cased message; ReplyPrecedence states the choice |
| ChatWebhook.ReplyText | app/api/webhook/route.ts:52-58 | the four reply templates, the greeting embedding the name and the echo embedding the message; EchoQuotesOriginal states the latter |
| ChatWebhook.ReplyPrecedence | app/api/webhook/route.ts:51-59 | greeting exactly when halo or hi occurs in the lower-cased message; otherwise the menu exactly when help or bantuan occurs; otherwise the products exactly when produk occurs; otherwise the echo of the message as written; the greeting uses name when it is non-empty, else sender |
| ChatWebhook.ReplyIgnoresCase | app/api/webhook/route.ts:51-55 | messages with the same lower-cased text get the same kind of reply |
| ChatWebhook.GreetingWinsInsideWords | app/api/webhook/route.ts:51-52 | any message containing hi, even inside a word, gets the greeting, addressed to name or else sender |
| ChatWebhook.ThisProdukIsGreeted | app/api/webhook/route.ts:51-55 | "this produk" gets the greeting, not the product list |
| ChatWebhook.EchoQuotesOriginal | app/api/webhook/route.ts:58 | the echo reply contains the original, non-lowercased message |
| ChatWebhook.ProcessMessage | app/api/webhook/route.ts:45-76 | returns the chosen reply whatever happens to the send; exactly one request to the sender carrying that reply when the token is set, and none when it is not; a missing message throws before any send |
| ChatWebhook.Post | app/api/webhook/route.ts:15-43 | 200 with the reply when the body parses and has a message, whatever the send did; otherwise 500 'Failed to process webhook' and no request |

## Left out

- HTTP and JSON libraries. `fetch`, `response.json()`, `FormData` and `NextResponse` are reduced to scripted outcomes and logged requests. An exhausted script acts as a fetch that rejects with 'fetch failed'.
- The HTTP method and the Tokopay `Content-Type` header are not recorded. Every request the core makes is a POST.
- HMAC-SHA256 and hex encoding are a parameter; Node's `crypto` is not part of this model. HMAC is not assumed injective. So the model proves that changing one signed field changes the string that is hashed (`Tokopay.WebhookStringInjective`), but not that it changes the signature.
- Amounts are natural numbers rendered in decimal. JavaScript's rendering of negative, fractional or very large numbers (exponent notation) is not modelled.
- `toLowerCase` is modelled on ASCII letters only. Unicode case mapping is not covered.
- The payment message templates are opaque. Their text, including `toLocaleString('id-ID')` amounts and `formatDateTime` in the Asia/Jakarta time zone, comes from a `Renderer` parameter.
- Time is logical. Each send settles at the instant it is issued. Network latency, the event loop and interleaving with other callbacks are not modelled.
- A send that throws inside a timer ends the chain. Node's handling of the resulting unhandled rejection is not modelled.
- The `TokopayAPI` class is a `TokopayConfig` value passed to pure functions, because its configuration is written only in its constructor.
- `TokopayResponse.data` (an untyped record) is not modelled.
- These unused fields are not modelled: `customer_name` and `customer_phone` of the payment callback, and `member`, `location`, `file` and `filename` of the chat callback.
- The chat callback's `sender` is always a string. The `undefined` that `name || sender` could render is not modelled.
- A chat callback with no `message` throws a TypeError from `toLowerCase`. It is represented by a single error value, `ChatWebhook.MissingMessage`.
- `getDeviceStatus`, all `console.log`/`console.error` logging and both `GET` endpoints are not part of this model. `app/page.tsx` (user interface only) and `app/api/check-ip/route.ts` (external IP lookups) are not part of this model either.

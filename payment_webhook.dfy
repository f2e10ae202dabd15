/** The payment-status webhook (`POST /api/tokopay-webhook`).

    A callback is authenticated by its signature, the customer's phone
    number is recovered from the reference id, and status-specific WhatsApp
    messages are sent: one for FAILED or PENDING, and for SUCCESS a
    confirmation followed by two timer-driven updates.

    Time is logical. A request settles at the instant it is issued, and
    `setTimeout(f, d)` runs `f` at `now + d`. The handler's whole run is
    recorded as a log of events: each send attempt with its target, message
    kind and time, and the HTTP answer with its time. */
module PaymentWebhook {
  import opened Common
  import opened Strings
  import Tokopay
  import Fonnte

  /** The delay before the "processing" update, after the confirmation settles. */
  const ProcessingDelay := 3000
  /** The delay before the "completed" message, after the processing update settles. */
  const CompletionDelay := 5000

  /** The environment variables both clients are built from. */
  datatype Env = Env(
    merchantId: Option<string>,
    secretKey: Option<string>,
    baseUrl: Option<string>,
    fonnteToken: Option<string>,
    fonnteDevice: Option<string>)

  function TokopayEnvOf(env: Env): Tokopay.TokopayEnv {
    Tokopay.TokopayEnv(env.merchantId, env.secretKey, env.baseUrl)
  }

  /** The message templates. Their text (amounts in the Indonesian locale,
      dates in the Jakarta time zone) is given by a `Renderer`. */
  datatype MessageKind = Confirmation | Processing | Completion | PaymentFailed | PaymentPending

  type Renderer = (MessageKind, Tokopay.WebhookData) -> string

  datatype Event =
    | Sent(target: string, kind: MessageKind, time: nat)
    | Answered(code: nat, time: nat)

  /** The JSON answer and its HTTP status; `text` is `message` or `error`. */
  datatype Response = Response(code: nat, success: bool, text: string)

  const Processed := Response(200, true, "Webhook processed successfully")
  const InvalidSignature := Response(401, false, "Invalid signature")
  const ProcessingFailed := Response(500, false, "Failed to process webhook")

  // ---------------------------------------------------------------------------
  // extractPhoneFromRefId: the first match of /payment_(\d+)_\d+/

  const Tag := "payment_"

  /** The regular expression matches at index `i` with `phone` as its group:
      `payment_`, then the digits `phone`, then `_` and at least one digit. */
  ghost predicate MatchesAt(s: string, i: nat, phone: string) {
    var j := i + |Tag| + |phone|;
    && j + 2 <= |s|
    && s[i..i + |Tag|] == Tag
    && s[i + |Tag|..j] == phone
    && IsDigits(phone)
    && s[j] == '_'
    && IsDigit(s[j + 1])
  }

  /** A match starts with the `p` of the tag, and the group's first digit follows the tag. */
  lemma MatchShape(s: string, i: nat, phone: string)
    requires MatchesAt(s, i, phone)
    ensures i + |Tag| < |s| && s[i] == 'p' && IsDigit(s[i + |Tag|])
  {
    assert s[i..i + |Tag|][0] == s[i];
    assert s[i + |Tag|..i + |Tag| + |phone|][0] == phone[0];
  }

  /** The length of the run of digits starting at index `i`. */
  function DigitRun(s: string, i: nat): (n: nat)
    requires i <= |s|
    ensures i + n <= |s|
    ensures forall k :: i <= k < i + n ==> IsDigit(s[k])
    ensures i + n < |s| ==> !IsDigit(s[i + n])
    decreases |s| - i
  {
    if i < |s| && IsDigit(s[i]) then 1 + DigitRun(s, i + 1) else 0
  }

  /** Matching at one index: `\d+` takes the whole run of digits; giving
      digits back cannot help, since `_` is not a digit. */
  function MatchAt(s: string, i: nat): Option<string>
    requires i <= |s|
  {
    if i + |Tag| <= |s| && s[i..i + |Tag|] == Tag then
      var n := DigitRun(s, i + |Tag|);
      var j := i + |Tag| + n;
      if n > 0 && j + 1 < |s| && s[j] == '_' && IsDigit(s[j + 1]) then Some(s[i + |Tag|..j]) else None
    else None
  }

  lemma MatchAtIff(s: string, i: nat, phone: string)
    requires i <= |s|
    ensures MatchAt(s, i) == Some(phone) <==> MatchesAt(s, i, phone)
  {
    if MatchesAt(s, i, phone) {
      // the group is exactly the run of digits: it cannot stop short (the
      // next character would be a digit, not `_`) nor run past the `_`
      var n := DigitRun(s, i + |Tag|);
      assert n == |phone|;
    }
  }

  /** The leftmost match at or after index `i`, with its index. */
  function SearchFrom(s: string, i: nat): Option<(nat, string)>
    requires i <= |s|
    decreases |s| - i
  {
    match MatchAt(s, i)
    case Some(phone) => Some((i, phone))
    case None => if i == |s| then None else SearchFrom(s, i + 1)
  }

  lemma {:induction false} SearchFromSpec(s: string, i: nat)
    requires i <= |s|
    ensures SearchFrom(s, i).None? ==> forall k: nat, p :: i <= k ==> !MatchesAt(s, k, p)
    ensures SearchFrom(s, i).Some? ==>
      var (k, phone) := SearchFrom(s, i).value;
      && i <= k && MatchesAt(s, k, phone)
      && forall m: nat, p :: i <= m < k ==> !MatchesAt(s, m, p)
    decreases |s| - i
  {
    match MatchAt(s, i)
    case Some(phone) =>
      MatchAtIff(s, i, phone);
    case None =>
      forall p ensures !MatchesAt(s, i, p) {
        MatchAtIff(s, i, p);
      }
      if i < |s| {
        SearchFromSpec(s, i + 1);
      } else {
        forall k: nat, p | i <= k && MatchesAt(s, k, p) ensures false { }
      }
  }

  /** `refId.match(/payment_(\d+)_\d+/)?.[1] ?? null` */
  function ExtractPhoneFromRefId(refId: string): Option<string> {
    match SearchFrom(refId, 0)
    case Some((_, phone)) => Some(phone)
    case None => None
  }

  /** The extractor returns the group of the leftmost match, and nothing
      exactly when the expression matches nowhere. */
  lemma ExtractPhoneSpec(refId: string)
    ensures ExtractPhoneFromRefId(refId).None? <==> forall k: nat, p :: !MatchesAt(refId, k, p)
    ensures ExtractPhoneFromRefId(refId).Some? ==>
      exists k: nat :: MatchesAt(refId, k, ExtractPhoneFromRefId(refId).value)
        && forall m: nat, p :: m < k ==> !MatchesAt(refId, m, p)
  {
    SearchFromSpec(refId, 0);
  }

  /** Decoding inverts the `payment_<phone>_<timestamp>` encoding for every
      non-empty digit string `phone` and `timestamp`. */
  lemma ExtractPhoneRoundTrip(phone: string, timestamp: string)
    requires IsDigits(phone) && IsDigits(timestamp)
    ensures ExtractPhoneFromRefId(Tag + phone + "_" + timestamp) == Some(phone)
  {
    var s := Tag + phone + "_" + timestamp;
    var j := |Tag| + |phone|;
    assert s[..|Tag|] == Tag;
    assert s[|Tag|..j] == phone;
    assert s[j] == '_' && s[j + 1] == timestamp[0];
    assert MatchesAt(s, 0, phone);
    MatchAtIff(s, 0, phone);
  }

  /** Conversely, a match with no match before it is what the extractor returns. */
  lemma ExtractPhoneLeftmost(refId: string, k: nat, phone: string)
    requires MatchesAt(refId, k, phone)
    requires forall m: nat, p :: m < k ==> !MatchesAt(refId, m, p)
    ensures ExtractPhoneFromRefId(refId) == Some(phone)
  {
    ExtractPhoneSpec(refId);
    var found := ExtractPhoneFromRefId(refId).value;
    var k' :| MatchesAt(refId, k', found) && forall m: nat, p :: m < k' ==> !MatchesAt(refId, m, p);
    assert k' == k;
    MatchAtIff(refId, k, phone);
    MatchAtIff(refId, k, found);
  }

  lemma ExtractPhoneExampleTypical()
    ensures ExtractPhoneFromRefId("payment_6281234_1700") == Some("6281234")
  {
    ExtractPhoneRoundTrip("6281234", "1700");
    assert Tag + "6281234" + "_" + "1700" == "payment_6281234_1700";
  }

  /** A reference id whose phone part is not digits does not decode. */
  lemma ExtractPhoneExampleLetters()
    ensures ExtractPhoneFromRefId("payment_abc_123") == None
  {
    var bad := "payment_abc_123";
    forall k: nat, p | MatchesAt(bad, k, p) ensures false {
      MatchShape(bad, k, p);
    }
    ExtractPhoneSpec(bad);
  }

  /** The search is unanchored and leftmost, and the group stops at the first `_`. */
  lemma ExtractPhoneExampleUnanchored()
    ensures ExtractPhoneFromRefId("xpayment_12_34_56y") == Some("12")
  {
    var odd := "xpayment_12_34_56y";
    assert MatchesAt(odd, 1, "12") by {
      assert odd[1..9] == Tag;
      assert odd[9..11] == "12";
    }
    forall m: nat, p | m < 1 && MatchesAt(odd, m, p) ensures false {
      MatchShape(odd, m, p);
    }
    ExtractPhoneLeftmost(odd, 1, "12");
  }

  // ---------------------------------------------------------------------------
  // The handler

  /** The run's log and its logical clock. */
  class EventLog {
    var now: nat
    var events: seq<Event>

    constructor (start: nat)
      ensures now == start && events == []
    {
      now := start;
      events := [];
    }

    method Record(e: Event)
      modifies this
      ensures now == old(now) && events == old(events) + [e]
    {
      events := events + [e];
    }

    method AdvanceTo(t: nat)
      requires now <= t
      modifies this
      ensures now == t && events == old(events)
    {
      now := t;
    }
  }

  /** A pending `setTimeout`: the stage it sends and when it fires. */
  datatype Timer = Timer(due: nat, stage: MessageKind, target: string)

  /** The request one send makes. */
  function Delivery(token: string, device: Option<string>, render: Renderer, data: Tokopay.WebhookData, target: string, kind: MessageKind): Fonnte.Request {
    Fonnte.JsonRequest(token, Fonnte.MessagePayload(device, Fonnte.MessageParams(target, render(kind, data), None)))
  }

  /** An awaited `fonnteAPI.sendMessage` of one template, logged at the current instant. */
  method Deliver(api: Fonnte.FonnteApi, log: EventLog, render: Renderer, data: Tokopay.WebhookData, target: string, kind: MessageKind)
    returns (r: Result<Fonnte.FonnteResponse, Exception>)
    modifies api, log
    ensures log.now == old(log.now) && log.events == old(log.events) + [Sent(target, kind, old(log.now))]
    ensures api.requests == old(api.requests) + [Delivery(api.token, api.device, render, data, target, kind)]
    ensures api.script == Rest(old(api.script))
    ensures r == Fonnte.MessageResult(Head(old(api.script)))
  {
    log.Record(Sent(target, kind, log.now));
    r := api.SendMessage(Fonnte.MessageParams(target, render(kind, data), None));
  }

  /** The template for a FAILED or PENDING callback. */
  function SingleMessage(status: string): Option<MessageKind> {
    if status == "FAILED" then Some(PaymentFailed)
    else if status == "PENDING" then Some(PaymentPending)
    else None
  }

  /** `processPaymentNotification`. It settles with the timer it left
      pending, if any, or rejects with what an awaited step threw. */
  method ProcessPaymentNotification(env: Env, render: Renderer, data: Tokopay.WebhookData, script: seq<Fonnte.Outcome>, log: EventLog)
    returns (r: Result<Option<Timer>, Exception>, api: Fonnte.FonnteApi?)
    modifies log
    ensures log.now == old(log.now)
    ensures !Truthy(env.fonnteToken) ==> r == Failure(Fonnte.TokenRequired) && api == null && log.events == old(log.events)
    ensures Truthy(env.fonnteToken) ==>
      && api != null && fresh(api)
      && api.token == env.fonnteToken.value && api.device == env.fonnteDevice
    ensures Truthy(env.fonnteToken) ==>
      var phone := ExtractPhoneFromRefId(data.referenceId);
      var sent := Fonnte.MessageResult(Head(script));
      if phone.None? || (data.status != "SUCCESS" && SingleMessage(data.status).None?) then
        r == Success(None) && log.events == old(log.events) && api.requests == [] && api.script == script
      else
        var kind := if data.status == "SUCCESS" then Confirmation else SingleMessage(data.status).value;
        && log.events == old(log.events) + [Sent(phone.value, kind, old(log.now))]
        && api.requests == [Delivery(api.token, api.device, render, data, phone.value, kind)]
        && api.script == Rest(script)
        && r == (if sent.Failure? then Failure(sent.error)
                 else if kind == Confirmation then Success(Some(Timer(old(log.now) + ProcessingDelay, Processing, phone.value)))
                 else Success(None))
  {
    var created := Fonnte.CreateFonnteApi(env.fonnteToken, env.fonnteDevice, script);
    if created.Failure? {
      return Failure(created.error), null;
    }
    api := created.value;
    var phone := ExtractPhoneFromRefId(data.referenceId);
    if phone.None? {
      return Success(None), api;
    }
    var target := phone.value;
    if data.status == "SUCCESS" {
      var sent := Deliver(api, log, render, data, target, Confirmation);
      if sent.Failure? {
        return Failure(sent.error), api;
      }
      r := Success(Some(Timer(log.now + ProcessingDelay, Processing, target)));
    } else if data.status == "FAILED" {
      var sent := Deliver(api, log, render, data, target, PaymentFailed);
      r := if sent.Failure? then Failure(sent.error) else Success(None);
    } else if data.status == "PENDING" {
      var sent := Deliver(api, log, render, data, target, PaymentPending);
      r := if sent.Failure? then Failure(sent.error) else Success(None);
    } else {
      r := Success(None);
    }
  }

  /** A timer's callback: send its stage; once the processing update has
      settled normally, schedule the completion message. A send that throws
      ends the chain. */
  method FireTimer(api: Fonnte.FonnteApi, log: EventLog, render: Renderer, data: Tokopay.WebhookData, timer: Timer)
    returns (next: Option<Timer>)
    requires log.now <= timer.due
    modifies api, log
    ensures log.now == timer.due
    ensures log.events == old(log.events) + [Sent(timer.target, timer.stage, timer.due)]
    ensures api.requests == old(api.requests) + [Delivery(api.token, api.device, render, data, timer.target, timer.stage)]
    ensures api.script == Rest(old(api.script))
    ensures next == if timer.stage == Processing && Fonnte.MessageResult(Head(old(api.script))).Success?
                    then Some(Timer(timer.due + CompletionDelay, Completion, timer.target))
                    else None
  {
    log.AdvanceTo(timer.due);
    var sent := Deliver(api, log, render, data, timer.target, timer.stage);
    if timer.stage == Processing && sent.Success? {
      next := Some(Timer(log.now + CompletionDelay, Completion, timer.target));
    } else {
      next := None;
    }
  }

  /** The timers of a SUCCESS callback, from the processing update on: the
      completion message follows only when the update returned normally. */
  method RunStages(api: Fonnte.FonnteApi, log: EventLog, render: Renderer, data: Tokopay.WebhookData, timer: Timer)
    requires timer.stage == Processing && log.now <= timer.due
    modifies api, log
    ensures var updated := Fonnte.MessageResult(Head(old(api.script))).Success?;
      && log.events == old(log.events) + [Sent(timer.target, Processing, timer.due)]
                       + (if updated then [Sent(timer.target, Completion, timer.due + CompletionDelay)] else [])
      && api.requests == old(api.requests) + [Delivery(api.token, api.device, render, data, timer.target, Processing)]
                         + (if updated then [Delivery(api.token, api.device, render, data, timer.target, Completion)] else [])
      && api.script == Drop(old(api.script), if updated then 2 else 1)
      && log.now == if updated then timer.due + CompletionDelay else timer.due
  {
    ghost var s := api.script;
    assert Drop(s, 1) == Rest(s) by {
      assert Drop(s, 1) == Drop(Rest(s), 0);
    }
    assert Drop(s, 2) == Rest(Rest(s)) by {
      assert Drop(s, 2) == Drop(Rest(s), 1) == Drop(Rest(Rest(s)), 0);
    }
    var next := FireTimer(api, log, render, data, timer);
    if next.Some? {
      var _ := FireTimer(api, log, render, data, next.value);
    }
  }

  /** The callback is well-formed, the gateway credentials are configured
      and the signature verifies. */
  predicate Authentic(body: Parse<Tokopay.WebhookData>, env: Env, hmac: Tokopay.Hmac) {
    && body.Parsed?
    && Tokopay.CreateTokopayApi(TokopayEnvOf(env)).Success?
    && Tokopay.VerifyWebhookSignature(Tokopay.CreateTokopayApi(TokopayEnvOf(env)).value, hmac, body.value)
  }

  /** What the handler does with an authentic callback `data` that arrives
      at logical time `start`: the HTTP response, the log and the requests. */
  predicate NotificationRun(env: Env, render: Renderer, data: Tokopay.WebhookData, script: seq<Fonnte.Outcome>, start: nat,
                            resp: Response, events: seq<Event>, requests: seq<Fonnte.Request>)
  {
    var phone := ExtractPhoneFromRefId(data.referenceId);
    var first := Fonnte.MessageResult(Head(script));
    var second := Fonnte.MessageResult(Head(Rest(script)));
    var target := if phone.Some? then phone.value else "";
    var token := OrElse(env.fonnteToken, "");
    // without a WhatsApp token the notification step throws before sending
    if !Truthy(env.fonnteToken) then
      resp == ProcessingFailed && events == [Answered(500, start)] && requests == []
    // no phone number, or a status with no template: success, and nothing sent
    else if phone.None? || (data.status != "SUCCESS" && SingleMessage(data.status).None?) then
      resp == Processed && events == [Answered(200, start)] && requests == []
    // FAILED or PENDING: one send, awaited before the response
    else if data.status != "SUCCESS" then
      var kind := SingleMessage(data.status).value;
      && resp == (if first.Success? then Processed else ProcessingFailed)
      && events == [Sent(target, kind, start), Answered(resp.code, start)]
      && requests == [Delivery(token, env.fonnteDevice, render, data, target, kind)]
    // SUCCESS, and the confirmation throws: 500 and no timer
    else if first.Failure? then
      && resp == ProcessingFailed
      && events == [Sent(target, Confirmation, start), Answered(500, start)]
      && requests == [Delivery(token, env.fonnteDevice, render, data, target, Confirmation)]
    // SUCCESS: confirmation, response, processing update after 3000,
    // and, if that update settled normally, completion 5000 later
    else
      && resp == Processed
      && events == [Sent(target, Confirmation, start), Answered(200, start),
                    Sent(target, Processing, start + ProcessingDelay)]
                    + (if second.Success? then [Sent(target, Completion, start + ProcessingDelay + CompletionDelay)] else [])
      && requests == [Delivery(token, env.fonnteDevice, render, data, target, Confirmation),
                      Delivery(token, env.fonnteDevice, render, data, target, Processing)]
                     + (if second.Success? then [Delivery(token, env.fonnteDevice, render, data, target, Completion)] else [])
  }

  /** What every run of an authentic callback has in common: every send
      goes to the extracted phone number, there is one request per send,
      the events are in time order and the response is given at arrival.
      With a token and a phone number, FAILED and PENDING make one send and
      SUCCESS two or three unless the confirmation failed; three sends
      happen only for SUCCESS; any other status makes none. */
  lemma NotificationRunShape(env: Env, render: Renderer, data: Tokopay.WebhookData, script: seq<Fonnte.Outcome>, start: nat,
                             resp: Response, events: seq<Event>, requests: seq<Fonnte.Request>)
    requires NotificationRun(env, render, data, script, start, resp, events, requests)
    ensures forall e :: e in events && e.Sent? ==> ExtractPhoneFromRefId(data.referenceId) == Some(e.target)
    ensures |requests| == |events| - 1 && Answered(resp.code, start) in events
    ensures forall i, j :: 0 <= i < j < |events| ==> events[i].time <= events[j].time
    ensures |requests| <= 3
    ensures Truthy(env.fonnteToken) && ExtractPhoneFromRefId(data.referenceId).Some? ==>
      && (data.status == "FAILED" || data.status == "PENDING" ==> |requests| == 1)
      && (data.status == "SUCCESS" ==> 2 <= |requests| <= 3 || resp == ProcessingFailed)
    ensures |requests| == 3 ==> data.status == "SUCCESS" && resp == Processed
    ensures data.status !in {"SUCCESS", "FAILED", "PENDING"} ==> requests == []
  {
  }

  /** The part of `POST` after the signature check: notify, answer, and
      let the timers run. */
  method Notify(env: Env, render: Renderer, data: Tokopay.WebhookData, script: seq<Fonnte.Outcome>, start: nat)
    returns (resp: Response, events: seq<Event>, requests: seq<Fonnte.Request>)
    ensures resp == Processed || resp == ProcessingFailed
    ensures NotificationRun(env, render, data, script, start, resp, events, requests)
  {
    var log := new EventLog(start);
    requests := [];
    var notified, api := ProcessPaymentNotification(env, render, data, script, log);
    resp := if notified.Success? then Processed else ProcessingFailed;
    log.Record(Answered(resp.code, log.now));
    if notified.Success? && notified.value.Some? {
      RunStages(api, log, render, data, notified.value.value);
    }
    if api != null {
      requests := api.requests;
    }
    events := log.events;
  }

  /** `POST`, from the arrival of the callback at logical time `start` until
      its last timer has fired. Returns the HTTP response, the log of sends
      and responses, and the requests made to the WhatsApp gateway. */
  method Post(body: Parse<Tokopay.WebhookData>, env: Env, hmac: Tokopay.Hmac, render: Renderer,
              script: seq<Fonnte.Outcome>, start: nat)
    returns (resp: Response, events: seq<Event>, requests: seq<Fonnte.Request>)
    ensures resp in {Processed, InvalidSignature, ProcessingFailed}
    // the gate: nothing is sent unless the callback is authentic
    ensures !Authentic(body, env, hmac) ==> requests == [] && events == [Answered(resp.code, start)]
    ensures body.Unparsable? || Tokopay.CreateTokopayApi(TokopayEnvOf(env)).Failure? ==> resp == ProcessingFailed
    ensures body.Parsed? && Tokopay.CreateTokopayApi(TokopayEnvOf(env)).Success? && !Authentic(body, env, hmac) ==>
      resp == InvalidSignature
    ensures Authentic(body, env, hmac) ==> NotificationRun(env, render, body.value, script, start, resp, events, requests)
  {
    if body.Unparsable? {
      return ProcessingFailed, [Answered(ProcessingFailed.code, start)], [];
    }
    var config := Tokopay.CreateTokopayApi(TokopayEnvOf(env));
    if config.Failure? {
      return ProcessingFailed, [Answered(ProcessingFailed.code, start)], [];
    }
    if !Tokopay.VerifyWebhookSignature(config.value, hmac, body.value) {
      return InvalidSignature, [Answered(InvalidSignature.code, start)], [];
    }
    resp, events, requests := Notify(env, render, body.value, script, start);
  }
}

/** The Tokopay payment-gateway client: the `:`-joined strings it signs,
    HMAC-SHA256 signing and webhook verification, the payment-creation and
    status-check requests, and the factory that reads the credentials.

    HMAC-SHA256 with hex output is a parameter `hmac(key, message)` that
    nothing here assumes anything about (not even injectivity). */
module Tokopay {
  import opened Common
  import opened Strings

  /** `createHmac('sha256', key).update(message).digest('hex')` */
  type Hmac = (string, string) -> string

  const DefaultBaseUrl := "https://api.tokopay.id"
  /** Minutes a payment stays open when the caller gives no (or a zero) expiry. */
  const DefaultExpiredTime := 60
  const CredentialsMissing := Error("Tokopay credentials not found in environment variables")
  const CreatePaymentFailed := Error("Failed to create payment")
  const CheckPaymentFailed := Error("Failed to check payment status")

  datatype TokopayConfig = TokopayConfig(merchantId: string, secretKey: string, baseUrl: string)

  /** The three environment variables the factory reads (`None` when unset). */
  datatype TokopayEnv = TokopayEnv(merchantId: Option<string>, secretKey: Option<string>, baseUrl: Option<string>)

  datatype CreatePaymentParams = CreatePaymentParams(
    refId: string,
    amount: nat,
    channel: string,
    customerName: string,
    customerEmail: string,
    customerPhone: string,
    expiredTime: Option<int>)

  /** The parsed body of a gateway response, passed back to the caller as it came. */
  datatype TokopayResponse = TokopayResponse(
    status: bool,
    errorCode: Option<string>,
    errorMsg: Option<string>,
    referenceId: Option<string>,
    redirectUrl: Option<string>,
    qrString: Option<string>,
    payUrl: Option<string>)

  /** A payment-status callback as the gateway posts it. */
  datatype WebhookData = WebhookData(
    referenceId: string,
    merchantId: string,
    amount: nat,
    fee: nat,
    status: string,
    paidAt: string,
    signature: string)

  /** The fields of a callback that its signature covers. */
  datatype SignedFields = SignedFields(merchantId: string, referenceId: string, amount: nat, status: string)

  function SignedPart(d: WebhookData): SignedFields {
    SignedFields(d.merchantId, d.referenceId, d.amount, d.status)
  }

  /** JSON bodies of the two gateway requests. */
  datatype Body =
    | PaymentBody(
        merchantId: string,
        refId: string,
        amount: nat,
        channel: string,
        customerName: string,
        customerEmail: string,
        customerPhone: string,
        expiredTime: int)
    | StatusBody(merchantId: string, refId: string)

  /** A POST to the gateway with its bearer token. */
  datatype GatewayRequest = GatewayRequest(url: string, authorization: string, body: Body)

  /** A gateway call: the request it sends and what the promise settles to. */
  datatype Call = Call(request: GatewayRequest, result: Result<TokopayResponse, Exception>)

  // ---------------------------------------------------------------------------
  // Factory

  /** `createTokopayAPI`: both credentials must be set and non-empty; the base
      URL falls back to the public endpoint. */
  function CreateTokopayApi(env: TokopayEnv): (r: Result<TokopayConfig, Exception>)
    ensures r.Failure? <==> !Truthy(env.merchantId) || !Truthy(env.secretKey)
    ensures r.Failure? ==> r.error == CredentialsMissing
    ensures r.Success? ==>
      && r.value.merchantId == env.merchantId.value
      && r.value.secretKey == env.secretKey.value
      && r.value.baseUrl == (if Truthy(env.baseUrl) then env.baseUrl.value else DefaultBaseUrl)
      && r.value.merchantId != "" && r.value.secretKey != "" && r.value.baseUrl != ""
  {
    var config := TokopayConfig(OrElse(env.merchantId, ""), OrElse(env.secretKey, ""), OrElse(env.baseUrl, DefaultBaseUrl));
    if config.merchantId == "" || config.secretKey == "" then Failure(CredentialsMissing)
    else Success(config)
  }

  // ---------------------------------------------------------------------------
  // Signed strings and signatures

  function GenerateSignature(config: TokopayConfig, hmac: Hmac, data: string): string {
    hmac(config.secretKey, data)
  }

  /** `merchant_id:reference_id:amount:status` */
  function WebhookSignatureString(d: WebhookData): string {
    d.merchantId + ":" + d.referenceId + ":" + Decimal(d.amount) + ":" + d.status
  }

  /** `merchantId:refId:amount`, signed by `createPayment`. */
  function PaymentSignatureString(config: TokopayConfig, refId: string, amount: nat): string {
    config.merchantId + ":" + refId + ":" + Decimal(amount)
  }

  /** `merchantId:refId`, signed by `checkPayment`. */
  function StatusSignatureString(config: TokopayConfig, refId: string): string {
    config.merchantId + ":" + refId
  }

  /** `verifyWebhookSignature`: the carried signature must equal the HMAC,
      under the secret key, of the callback's own four signed fields. */
  function VerifyWebhookSignature(config: TokopayConfig, hmac: Hmac, d: WebhookData): (valid: bool)
    ensures valid <==>
      d.signature == hmac(config.secretKey, d.merchantId + ":" + d.referenceId + ":" + Decimal(d.amount) + ":" + d.status)
  {
    d.signature == GenerateSignature(config, hmac, WebhookSignatureString(d))
  }

  /** The verdict depends on the signed fields, the carried signature and
      the secret key only: `fee`, `paid_at`, the merchant id and base URL
      of the configuration play no part. */
  lemma VerifyReadsOnlySignedFields(c1: TokopayConfig, c2: TokopayConfig, hmac: Hmac, d1: WebhookData, d2: WebhookData)
    requires c1.secretKey == c2.secretKey
    requires SignedPart(d1) == SignedPart(d2) && d1.signature == d2.signature
    ensures VerifyWebhookSignature(c1, hmac, d1) == VerifyWebhookSignature(c2, hmac, d2)
  {
  }

  // ---------------------------------------------------------------------------
  // The signed strings list exactly their fields, in order

  /** `s.split(d)` */
  function SplitAll(s: string, d: char): (fields: seq<string>)
    ensures |fields| > 0
    decreases |s|
  {
    match SplitFirst(s, d)
    case None => [s]
    case Some((before, after)) => [before] + SplitAll(after, d)
  }

  lemma SplitAllNoDelimiter(s: string, d: char)
    requires d !in s
    ensures SplitAll(s, d) == [s]
  {
  }

  lemma SplitAllCons(x: string, d: char, y: string)
    requires d !in x
    ensures SplitAll(x + [d] + y, d) == [x] + SplitAll(y, d)
  {
    SplitFirstJoin(x, d, y);
  }

  lemma DecimalHasNoColon(n: nat)
    ensures ':' !in Decimal(n)
  {
  }

  /** Splitting the webhook string at `:` gives back the four signed fields,
      in order, whenever none of the three text fields contains a `:`. */
  lemma WebhookStringFields(d: WebhookData)
    requires ':' !in d.merchantId && ':' !in d.referenceId && ':' !in d.status
    ensures SplitAll(WebhookSignatureString(d), ':') == [d.merchantId, d.referenceId, Decimal(d.amount), d.status]
  {
    var a := Decimal(d.amount);
    DecimalHasNoColon(d.amount);
    SplitAllNoDelimiter(d.status, ':');
    SplitAllCons(a, ':', d.status);
    assert d.referenceId + ":" + (a + ":" + d.status) == d.referenceId + [':'] + (a + ":" + d.status);
    SplitAllCons(d.referenceId, ':', a + ":" + d.status);
    assert WebhookSignatureString(d) == d.merchantId + [':'] + (d.referenceId + ":" + (a + ":" + d.status));
    SplitAllCons(d.merchantId, ':', d.referenceId + ":" + (a + ":" + d.status));
  }

  /** Splitting the `createPayment` string gives merchant id, reference id and amount. */
  lemma PaymentStringFields(config: TokopayConfig, refId: string, amount: nat)
    requires ':' !in config.merchantId && ':' !in refId
    ensures SplitAll(PaymentSignatureString(config, refId, amount), ':') == [config.merchantId, refId, Decimal(amount)]
  {
    var a := Decimal(amount);
    DecimalHasNoColon(amount);
    SplitAllNoDelimiter(a, ':');
    SplitAllCons(refId, ':', a);
    assert PaymentSignatureString(config, refId, amount) == config.merchantId + [':'] + (refId + ":" + a);
    SplitAllCons(config.merchantId, ':', refId + ":" + a);
  }

  /** Splitting the `checkPayment` string gives merchant id and reference id. */
  lemma StatusStringFields(config: TokopayConfig, refId: string)
    requires ':' !in config.merchantId && ':' !in refId
    ensures SplitAll(StatusSignatureString(config, refId), ':') == [config.merchantId, refId]
  {
    SplitAllNoDelimiter(refId, ':');
    SplitAllCons(config.merchantId, ':', refId);
  }

  /** With `:`-free text fields, two callbacks sign the same string exactly
      when their four signed fields agree: changing any one of them changes
      what is hashed. */
  lemma WebhookStringInjective(d1: WebhookData, d2: WebhookData)
    requires ':' !in d1.merchantId && ':' !in d1.referenceId && ':' !in d1.status
    requires ':' !in d2.merchantId && ':' !in d2.referenceId && ':' !in d2.status
    ensures WebhookSignatureString(d1) == WebhookSignatureString(d2) <==> SignedPart(d1) == SignedPart(d2)
  {
    if WebhookSignatureString(d1) == WebhookSignatureString(d2) {
      WebhookStringFields(d1);
      WebhookStringFields(d2);
      var f1 := [d1.merchantId, d1.referenceId, Decimal(d1.amount), d1.status];
      var f2 := [d2.merchantId, d2.referenceId, Decimal(d2.amount), d2.status];
      assert f1 == f2;
      assert f1[2] == f2[2];
      DecimalInjective(d1.amount, d2.amount);
    }
  }

  /** Without the `:`-free condition the string is ambiguous: a `:` moved
      from the merchant id into the reference id yields the same string. */
  lemma WebhookStringAmbiguousWithColons()
    ensures var d1 := WebhookData("ref", "m:1", 5, 0, "SUCCESS", "", "");
            var d2 := WebhookData("1:ref", "m", 5, 0, "SUCCESS", "", "");
            SignedPart(d1) != SignedPart(d2) && WebhookSignatureString(d1) == WebhookSignatureString(d2)
  {
    var d1 := WebhookData("ref", "m:1", 5, 0, "SUCCESS", "", "");
    var d2 := WebhookData("1:ref", "m", 5, 0, "SUCCESS", "", "");
    assert Decimal(5) == "5";
    var prefix := "m:1" + ":" + "ref";
    assert prefix == "m" + ":" + "1:ref";
    assert WebhookSignatureString(d1) == prefix + ":" + "5" + ":" + "SUCCESS";
    assert WebhookSignatureString(d2) == prefix + ":" + "5" + ":" + "SUCCESS";
    assert SignedPart(d1).merchantId != SignedPart(d2).merchantId;
  }

  // ---------------------------------------------------------------------------
  // Gateway calls

  /** `params.expiredTime || 60` */
  function ExpiredTime(expiredTime: Option<int>): (minutes: int)
    ensures expiredTime.Some? && expiredTime.value != 0 ==> minutes == expiredTime.value
    ensures expiredTime.None? || expiredTime.value == 0 ==> minutes == DefaultExpiredTime
    ensures minutes != 0
  {
    if expiredTime.Some? && expiredTime.value != 0 then expiredTime.value else DefaultExpiredTime
  }

  function PaymentPayload(config: TokopayConfig, p: CreatePaymentParams): Body {
    PaymentBody(config.merchantId, p.refId, p.amount, p.channel,
                p.customerName, p.customerEmail, p.customerPhone, ExpiredTime(p.expiredTime))
  }

  /** `createPayment`: one POST signed over `merchantId:refId:amount`; a
      rejected fetch or an unparsable body becomes the single error
      'Failed to create payment', otherwise the parsed body is returned as
      it is, whatever its `status` and whatever the HTTP status. */
  function CreatePayment(config: TokopayConfig, hmac: Hmac, p: CreatePaymentParams, outcome: FetchOutcome<TokopayResponse>): (c: Call)
    ensures c.request.url == config.baseUrl + "/v1/payment"
    ensures c.request.authorization == "Bearer " + hmac(config.secretKey, config.merchantId + ":" + p.refId + ":" + Decimal(p.amount))
    ensures c.request.body == PaymentBody(config.merchantId, p.refId, p.amount, p.channel,
                                          p.customerName, p.customerEmail, p.customerPhone, ExpiredTime(p.expiredTime))
    ensures c.result.Success? <==> outcome.Responded? && outcome.body.Parsed?
    ensures c.result.Success? ==> c.result.value == outcome.body.value
    ensures c.result.Failure? ==> c.result.error == CreatePaymentFailed
  {
    var signature := GenerateSignature(config, hmac, PaymentSignatureString(config, p.refId, p.amount));
    var request := GatewayRequest(config.baseUrl + "/v1/payment", "Bearer " + signature, PaymentPayload(config, p));
    match outcome
    case Responded(_, Parsed(body)) => Call(request, Success(body))
    case _ => Call(request, Failure(CreatePaymentFailed))
  }

  /** `checkPayment`: one POST signed over `merchantId:refId`; any failure
      becomes 'Failed to check payment status'. */
  function CheckPayment(config: TokopayConfig, hmac: Hmac, refId: string, outcome: FetchOutcome<TokopayResponse>): (c: Call)
    ensures c.request.url == config.baseUrl + "/v1/payment/status"
    ensures c.request.authorization == "Bearer " + hmac(config.secretKey, config.merchantId + ":" + refId)
    ensures c.request.body == StatusBody(config.merchantId, refId)
    ensures c.result.Success? <==> outcome.Responded? && outcome.body.Parsed?
    ensures c.result.Success? ==> c.result.value == outcome.body.value
    ensures c.result.Failure? ==> c.result.error == CheckPaymentFailed
  {
    var signature := GenerateSignature(config, hmac, StatusSignatureString(config, refId));
    var request := GatewayRequest(config.baseUrl + "/v1/payment/status", "Bearer " + signature, StatusBody(config.merchantId, refId));
    match outcome
    case Responded(_, Parsed(body)) => Call(request, Success(body))
    case _ => Call(request, Failure(CheckPaymentFailed))
  }
}

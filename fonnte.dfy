/** The Fonnte WhatsApp gateway client.

    A `FonnteApi` object holds the token and optional device it was built
    with. The network is a script of `fetch` outcomes that the object
    consumes one per request, and every request it issues is appended to
    `requests`. */
module Fonnte {
  import opened Common

  const BaseUrl := "https://api.fonnte.com"
  const SendUrl := BaseUrl + "/send"
  const DefaultCountryCode := "62"
  /** The message sent with an image that has no (or an empty) caption. */
  const DefaultImageMessage := "Image"
  const TokenRequired := Error("FONNTE_TOKEN environment variable is required")

  /** The parsed body of a gateway response. */
  datatype FonnteResponse = FonnteResponse(status: bool, message: Option<string>, id: Option<string>, reason: Option<string>)

  datatype MessageParams = MessageParams(target: string, message: string, countryCode: Option<string>)

  datatype ImageParams = ImageParams(target: string, file: string, caption: Option<string>, countryCode: Option<string>)

  /** A JSON object or a multipart form, as the fields in the order they were added. */
  datatype Body = Json(fields: seq<Field>) | Form(fields: seq<Field>)

  /** A POST with its `Authorization` header and, for JSON, its `Content-Type`. */
  datatype Request = Request(url: string, authorization: string, contentType: Option<string>, body: Body)

  type Outcome = FetchOutcome<FonnteResponse>

  // ---------------------------------------------------------------------------
  // Payloads

  /** The value of the first field called `name`. */
  function Lookup(fields: seq<Field>, name: string): Option<string> {
    if fields == [] then None
    else if fields[0].name == name then Some(fields[0].value)
    else Lookup(fields[1..], name)
  }

  /** The fields whose name is not `name`. */
  function Without(fields: seq<Field>, name: string): (r: seq<Field>)
    ensures Lookup(r, name).None?
  {
    if fields == [] then []
    else if fields[0].name == name then Without(fields[1..], name)
    else [fields[0]] + Without(fields[1..], name)
  }

  /** `countryCode = '62'` in a destructuring: the default replaces only a
      missing value, not an empty one. */
  function CountryCode(countryCode: Option<string>): string {
    match countryCode
    case Some(c) => c
    case None => DefaultCountryCode
  }

  /** `...(this.device && { device: this.device })` */
  function DeviceFields(device: Option<string>): seq<Field> {
    if Truthy(device) then [Field("device", device.value)] else []
  }

  function JsonRequest(token: string, fields: seq<Field>): Request {
    Request(SendUrl, token, Some("application/json"), Json(fields))
  }

  function FormRequest(token: string, fields: seq<Field>): Request {
    Request(SendUrl, token, None, Form(fields))
  }

  /** The first field with a given name decides the lookup. */
  lemma {:induction false} LookupAt(fields: seq<Field>, i: nat, name: string)
    requires i < |fields| && fields[i].name == name
    requires forall j :: 0 <= j < i ==> fields[j].name != name
    ensures Lookup(fields, name) == Some(fields[i].value)
  {
    if i > 0 {
      LookupAt(fields[1..], i - 1, name);
    }
  }

  lemma {:induction false} LookupAbsent(fields: seq<Field>, name: string)
    requires forall j :: 0 <= j < |fields| ==> fields[j].name != name
    ensures Lookup(fields, name).None?
  {
    if fields != [] {
      LookupAbsent(fields[1..], name);
    }
  }

  /** The JSON body of `sendMessage`. */
  function MessagePayload(device: Option<string>, p: MessageParams): seq<Field> {
    [Field("target", p.target), Field("message", p.message), Field("countryCode", CountryCode(p.countryCode))]
      + DeviceFields(device)
  }

  /** `sendMessage` sends the target and message as given, the country code
      `'62'` unless one is passed, the device only when one is configured,
      and no image fields. */
  lemma MessagePayloadFields(device: Option<string>, p: MessageParams)
    ensures var fields := MessagePayload(device, p);
      && Lookup(fields, "target") == Some(p.target)
      && Lookup(fields, "message") == Some(p.message)
      && Lookup(fields, "countryCode") == Some(if p.countryCode.Some? then p.countryCode.value else "62")
      && Lookup(fields, "device") == (if Truthy(device) then device else None)
      && Lookup(fields, "file").None? && Lookup(fields, "url").None?
  {
    var fields := MessagePayload(device, p);
    LookupAt(fields, 0, "target");
    LookupAt(fields, 1, "message");
    LookupAt(fields, 2, "countryCode");
    if Truthy(device) {
      LookupAt(fields, 3, "device");
    } else {
      LookupAbsent(fields, "device");
    }
    LookupAbsent(fields, "file");
    LookupAbsent(fields, "url");
  }

  /** The JSON body of the first `sendImage` attempt. */
  function ImageJsonPayload(device: Option<string>, p: ImageParams): seq<Field> {
    [Field("target", p.target), Field("message", OrElse(p.caption, DefaultImageMessage)),
     Field("file", p.file), Field("url", p.file), Field("countryCode", CountryCode(p.countryCode))]
      + DeviceFields(device)
  }

  /** The JSON image attempt sends `caption || 'Image'` as the message and
      the image URL under both `file` and `url`. */
  lemma ImageJsonPayloadFields(device: Option<string>, p: ImageParams)
    ensures var fields := ImageJsonPayload(device, p);
      && Lookup(fields, "target") == Some(p.target)
      && Lookup(fields, "message") == Some(if Truthy(p.caption) then p.caption.value else "Image")
      && Lookup(fields, "file") == Some(p.file) && Lookup(fields, "url") == Some(p.file)
      && Lookup(fields, "countryCode") == Some(if p.countryCode.Some? then p.countryCode.value else "62")
      && Lookup(fields, "device") == (if Truthy(device) then device else None)
  {
    var fields := ImageJsonPayload(device, p);
    LookupAt(fields, 0, "target");
    LookupAt(fields, 1, "message");
    LookupAt(fields, 2, "file");
    LookupAt(fields, 3, "url");
    LookupAt(fields, 4, "countryCode");
    if Truthy(device) {
      LookupAt(fields, 5, "device");
    } else {
      LookupAbsent(fields, "device");
    }
  }

  /** The multipart body of `sendImageFormData`. */
  function ImageFormPayload(device: Option<string>, p: ImageParams): seq<Field> {
    [Field("target", p.target), Field("message", OrElse(p.caption, DefaultImageMessage)),
     Field("file", p.file), Field("countryCode", CountryCode(p.countryCode))]
      + DeviceFields(device)
  }

  /** The form carries the JSON attempt's fields, in the same order, less `url`. */
  lemma FormPayloadIsJsonWithoutUrl(device: Option<string>, p: ImageParams)
    ensures ImageFormPayload(device, p) == Without(ImageJsonPayload(device, p), "url")
  {
    var j := ImageJsonPayload(device, p);
    var d := DeviceFields(device);
    assert Without(d, "url") == d by {
      if d != [] { assert d[1..] == []; }
    }
    assert j[5..] == d;
    assert Without(j[4..], "url") == [j[4]] + d by { assert j[4..][1..] == j[5..]; }
    assert Without(j[3..], "url") == [j[4]] + d by { assert j[3..][1..] == j[4..]; }
    assert Without(j[2..], "url") == [j[2], j[4]] + d by { assert j[2..][1..] == j[3..]; }
    assert Without(j[1..], "url") == [j[1], j[2], j[4]] + d by { assert j[1..][1..] == j[2..]; }
  }

  // ---------------------------------------------------------------------------
  // What each request settles to

  /** `sendMessage`: a rejected fetch or an unparsable body is rethrown as it
      is; a response that is not `ok` throws
      `"Fonnte API Error: " + (reason || 'Unknown error')`; otherwise the body
      is returned unchanged, even when its `status` is false. */
  function MessageResult(o: Outcome): (r: Result<FonnteResponse, Exception>)
    ensures r.Success? <==> o.Responded? && o.ok && o.body.Parsed?
    ensures r.Success? ==> r.value == o.body.value
    ensures o.Rejected? ==> r == Failure(o.error)
    ensures o.Responded? && o.body.Unparsable? ==> r == Failure(o.body.error)
    ensures o.Responded? && !o.ok && o.body.Parsed? ==>
      r == Failure(Error("Fonnte API Error: " + (if Truthy(o.body.value.reason) then o.body.value.reason.value else "Unknown error")))
  {
    match o
    case Rejected(e) => Failure(e)
    case Responded(_, Unparsable(e)) => Failure(e)
    case Responded(ok, Parsed(body)) =>
      if ok then Success(body) else Failure(Error("Fonnte API Error: " + OrElse(body.reason, "Unknown error")))
  }

  /** `sendImageFormData`: the HTTP status is not looked at; any thrown value
      is rethrown as `"Form-Data method failed: " + message`. */
  function FormDataResult(o: Outcome): (r: Result<FonnteResponse, Exception>)
    ensures r.Success? <==> o.Responded? && o.body.Parsed?
    ensures r.Success? ==> r.value == o.body.value
    ensures o.Rejected? ==> r == Failure(Error("Form-Data method failed: " + MessageOf(o.error)))
    ensures o.Responded? && o.body.Unparsable? ==> r == Failure(Error("Form-Data method failed: " + MessageOf(o.body.error)))
  {
    match o
    case Rejected(e) => Failure(Error("Form-Data method failed: " + MessageOf(e)))
    case Responded(_, Unparsable(e)) => Failure(Error("Form-Data method failed: " + MessageOf(e)))
    case Responded(_, Parsed(body)) => Success(body)
  }

  /** How the JSON attempt of `sendImage` ends: with a body whose `status`
      is truthy, with a body whose `status` is falsy, or by throwing. */
  datatype JsonStep = Accepted(body: FonnteResponse) | Declined | Threw(error: Exception)

  function JsonAttempt(o: Outcome): JsonStep {
    match o
    case Rejected(e) => Threw(e)
    case Responded(_, Unparsable(e)) => Threw(e)
    case Responded(_, Parsed(body)) => if body.status then Accepted(body) else Declined
  }

  /** The last form-data attempt, made from the outer `catch` with the value it caught. */
  function Fallback(caught: Exception, o: Outcome): Result<FonnteResponse, Exception> {
    match FormDataResult(o)
    case Success(body) => Success(body)
    case Failure(_) => Failure(Error("Failed to send image: " + MessageOf(caught)))
  }

  /** How many requests `sendImage` makes, given the first two outcomes it meets. */
  function ImageAttempts(o1: Outcome, o2: Outcome): (n: nat)
    ensures 1 <= n <= 3
    ensures n == 1 <==> JsonAttempt(o1).Accepted?
    ensures n == 3 <==> JsonAttempt(o1).Declined? && FormDataResult(o2).Failure?
  {
    match JsonAttempt(o1)
    case Accepted(_) => 1
    case Declined => if FormDataResult(o2).Success? then 2 else 3
    case Threw(_) => 2
  }

  /** What `sendImage` settles to, given the outcomes of its (up to three) requests. */
  function ImageResult(o1: Outcome, o2: Outcome, o3: Outcome): (r: Result<FonnteResponse, Exception>)
    ensures JsonAttempt(o1).Accepted? ==> r == Success(JsonAttempt(o1).body)
    ensures JsonAttempt(o1).Declined? && FormDataResult(o2).Success? ==> r == FormDataResult(o2)
    ensures JsonAttempt(o1).Declined? && FormDataResult(o2).Failure? ==>
      r == (if FormDataResult(o3).Success? then FormDataResult(o3)
            else Failure(Error("Failed to send image: " + MessageOf(FormDataResult(o2).error))))
    ensures JsonAttempt(o1).Threw? ==>
      r == (if FormDataResult(o2).Success? then FormDataResult(o2)
            else Failure(Error("Failed to send image: " + MessageOf(JsonAttempt(o1).error))))
  {
    match JsonAttempt(o1)
    case Accepted(body) => Success(body)
    case Declined =>
      (match FormDataResult(o2)
       case Success(body) => Success(body)
       case Failure(e) => Fallback(e, o3))
    case Threw(e) => Fallback(e, o2)
  }

  /** The requests `sendImage` can make, in order: JSON, form data, form data again. */
  function ImageRequests(token: string, device: Option<string>, p: ImageParams): seq<Request> {
    [JsonRequest(token, ImageJsonPayload(device, p)),
     FormRequest(token, ImageFormPayload(device, p)),
     FormRequest(token, ImageFormPayload(device, p))]
  }

  /** `o` with its HTTP `ok` flag replaced. */
  function WithOk(o: Outcome, ok: bool): Outcome {
    match o
    case Rejected(e) => Rejected(e)
    case Responded(_, body) => Responded(ok, body)
  }

  /** The image paths never look at the HTTP status: changing the `ok` flag
      of any response changes neither the result nor the number of requests. */
  lemma ImageIgnoresHttpStatus(o1: Outcome, o2: Outcome, o3: Outcome, ok1: bool, ok2: bool, ok3: bool)
    ensures ImageResult(WithOk(o1, ok1), WithOk(o2, ok2), WithOk(o3, ok3)) == ImageResult(o1, o2, o3)
    ensures ImageAttempts(WithOk(o1, ok1), WithOk(o2, ok2)) == ImageAttempts(o1, o2)
  {
  }

  // ---------------------------------------------------------------------------
  // The client

  class FonnteApi {
    const token: string
    const device: Option<string>
    /** The outcomes the coming fetches will meet, in order. */
    var script: seq<Outcome>
    /** Every request issued so far, in order. */
    var requests: seq<Request>

    constructor (token: string, device: Option<string>, script: seq<Outcome>)
      ensures this.token == token && this.device == device
      ensures this.script == script && requests == []
    {
      this.token := token;
      this.device := device;
      this.script := script;
      requests := [];
    }

    /** `fetch`: log the request and meet the next scripted outcome. */
    method Fetch(request: Request) returns (o: Outcome)
      modifies this
      ensures requests == old(requests) + [request]
      ensures o == Head(old(script)) && script == Rest(old(script))
    {
      o := Head(script);
      script := Rest(script);
      requests := requests + [request];
    }

    method SendMessage(p: MessageParams) returns (r: Result<FonnteResponse, Exception>)
      modifies this
      ensures requests == old(requests) + [JsonRequest(token, MessagePayload(device, p))]
      ensures script == Rest(old(script))
      ensures r == MessageResult(Head(old(script)))
    {
      var o := Fetch(JsonRequest(token, MessagePayload(device, p)));
      match o {
        case Rejected(e) =>
          r := Failure(e);
        case Responded(_, Unparsable(e)) =>
          r := Failure(e);
        case Responded(ok, Parsed(body)) =>
          if !ok {
            r := Failure(Error("Fonnte API Error: " + OrElse(body.reason, "Unknown error")));
          } else {
            r := Success(body);
          }
      }
    }

    method SendImage(p: ImageParams) returns (r: Result<FonnteResponse, Exception>)
      modifies this
      ensures var s := old(script);
              var n := ImageAttempts(Head(s), Head(Rest(s)));
              && requests == old(requests) + ImageRequests(token, device, p)[..n]
              && script == Drop(s, n)
              && r == ImageResult(Head(s), Head(Rest(s)), Head(Rest(Rest(s))))
    {
      ghost var s := script;
      assert Drop(s, 2) == Rest(Rest(s)) by {
        assert Drop(s, 2) == Drop(Rest(s), 1) == Drop(Rest(Rest(s)), 0);
      }
      assert Drop(s, 3) == Rest(Rest(Rest(s))) by {
        assert Drop(s, 3) == Drop(Rest(s), 2) == Drop(Rest(Rest(s)), 1) == Drop(Rest(Rest(Rest(s))), 0);
      }
      var o := Fetch(JsonRequest(token, ImageJsonPayload(device, p)));
      var caught: Exception;
      match o {
        case Rejected(e) =>
          caught := e;
        case Responded(_, Unparsable(e)) =>
          caught := e;
        case Responded(_, Parsed(body)) =>
          if body.status {
            return Success(body);
          }
          var viaForm := SendImageFormData(p);
          if viaForm.Success? {
            return viaForm;
          }
          caught := viaForm.error;
      }
      var fallback := SendImageFormData(p);
      if fallback.Success? {
        return fallback;
      }
      r := Failure(Error("Failed to send image: " + MessageOf(caught)));
    }

    method SendImageFormData(p: ImageParams) returns (r: Result<FonnteResponse, Exception>)
      modifies this
      ensures requests == old(requests) + [FormRequest(token, ImageFormPayload(device, p))]
      ensures script == Rest(old(script))
      ensures r == FormDataResult(Head(old(script)))
    {
      var form: seq<Field> := [];
      form := form + [Field("target", p.target)];
      form := form + [Field("message", OrElse(p.caption, DefaultImageMessage))];
      form := form + [Field("file", p.file)];
      form := form + [Field("countryCode", CountryCode(p.countryCode))];
      if Truthy(device) {
        form := form + [Field("device", device.value)];
      }
      assert form == ImageFormPayload(device, p);
      var o := Fetch(FormRequest(token, form));
      match o {
        case Rejected(e) =>
          r := Failure(Error("Form-Data method failed: " + MessageOf(e)));
        case Responded(_, Unparsable(e)) =>
          r := Failure(Error("Form-Data method failed: " + MessageOf(e)));
        case Responded(_, Parsed(body)) =>
          r := Success(body);
      }
    }
  }

  /** `createFonnteAPI`: the token must be set and non-empty; the device is
      passed through as it is. */
  method CreateFonnteApi(token: Option<string>, device: Option<string>, script: seq<Outcome>)
    returns (r: Result<FonnteApi, Exception>)
    ensures r.Failure? <==> !Truthy(token)
    ensures r.Failure? ==> r.error == TokenRequired
    ensures r.Success? ==>
      && fresh(r.value)
      && r.value.token == token.value && r.value.device == device
      && r.value.script == script && r.value.requests == []
  {
    if !Truthy(token) {
      return Failure(TokenRequired);
    }
    var api := new FonnteApi(token.value, device, script);
    r := Success(api);
  }
}

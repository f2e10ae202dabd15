/** Values shared by the gateway clients and the two webhooks: optional
    values, results, thrown values, request bodies and the scripted outcome
    of one `fetch` call. */
module Common {

  datatype Option<+T> = None | Some(value: T)

  /** A promise that either resolves with a value or rejects with a thrown value. */
  datatype Result<+R, +E> = Success(value: R) | Failure(error: E)

  /** A thrown JavaScript value: an `Error` instance with its message, or a
      value of some other kind (for which `instanceof Error` is false). */
  datatype Exception = Error(message: string) | NonError

  /** `error instanceof Error ? error.message : 'Unknown error'` */
  function MessageOf(e: Exception): (m: string)
    ensures e.Error? ==> m == e.message
    ensures e.NonError? ==> m == "Unknown error"
  {
    match e
    case Error(msg) => msg
    case NonError => "Unknown error"
  }

  /** JavaScript truthiness of an optional string: defined and non-empty. */
  predicate Truthy(s: Option<string>) {
    s.Some? && s.value != ""
  }

  /** `s || fallback` for an optional string. */
  function OrElse(s: Option<string>, fallback: string): (r: string)
    ensures Truthy(s) ==> r == s.value
    ensures !Truthy(s) ==> r == fallback
  {
    if Truthy(s) then s.value else fallback
  }

  /** One key/value entry of a JSON object or of a multipart form, in insertion order. */
  datatype Field = Field(name: string, value: string)

  /** The outcome of `await response.json()`. */
  datatype Parse<+B> = Parsed(value: B) | Unparsable(error: Exception)

  /** The scripted outcome of one `fetch`: the promise rejects, or a
      response arrives with its `ok` flag and a body that may or may not
      parse. */
  datatype FetchOutcome<+B> =
    | Rejected(error: Exception)
    | Responded(ok: bool, body: Parse<B>)

  /** What `fetch` does once the scripted outcomes are used up. */
  const Exhausted: Exception := Error("fetch failed")

  /** The outcome the next `fetch` meets. */
  function Head<B>(script: seq<FetchOutcome<B>>): FetchOutcome<B> {
    if script == [] then Rejected(Exhausted) else script[0]
  }

  /** The outcomes left after one `fetch`. */
  function Rest<B>(script: seq<FetchOutcome<B>>): (r: seq<FetchOutcome<B>>)
    ensures |r| == if script == [] then 0 else |script| - 1
  {
    if script == [] then [] else script[1..]
  }

  /** The outcomes left after `n` fetches. */
  function Drop<B>(script: seq<FetchOutcome<B>>, n: nat): seq<FetchOutcome<B>> {
    if n == 0 then script else Drop(Rest(script), n - 1)
  }
}

/** The vocabulary the three request hooks share: optional values (JavaScript
    `undefined`), thrown values, HTTP methods, request bodies, header maps,
    and the JSON-or-raw-text decoding of a response body.

    JSON itself is not modelled: a payload is a value of an arbitrary type `J`,
    `JSON.parse` is a partial function `string -> Option<J>` and
    `JSON.stringify` a total function `J -> string`, both passed in by callers. */
module Transport {
  import opened Text

  datatype Option<+T> = None | Some(value: T) {
    function GetOr(default: T): T
    {
      match this
      case Some(v) => v
      case None => default
    }
  }

  /** A thrown error is delivered to the caller as `Failure` with the new error's message. */
  datatype Result<+T, +E> = Success(value: T) | Failure(error: E)

  /** What a `catch` clause receives: an `Error` object (its `name` and `message`)
      or some other thrown value, for which `error instanceof Error` is false. */
  datatype Thrown = ErrorObject(name: string, message: string) | OtherValue

  predicate IsAbort(e: Thrown)
  {
    e.ErrorObject? && e.name == "AbortError"
  }

  /** `error instanceof Error && error.message.includes(marker)` */
  predicate MessageHas(e: Thrown, marker: string)
  {
    e.ErrorObject? && Contains(e.message, marker)
  }

  datatype Method = GET | POST | PUT | DELETE | PATCH

  function MethodName(m: Method): string
  {
    match m
    case GET => "GET"
    case POST => "POST"
    case PUT => "PUT"
    case DELETE => "DELETE"
    case PATCH => "PATCH"
  }

  type Headers = map<string, string>

  /** The object literal `{ ...defaults, ...headers }`, where a missing `headers`
      option defaults to `{}`: every key of either side is present, the caller's
      value wins on a collision, and a default survives where the caller is silent. */
  function MergeHeaders(defaults: Headers, caller: Option<Headers>): (h: Headers)
    ensures h.Keys == defaults.Keys + caller.GetOr(map[]).Keys
    ensures forall k :: k in caller.GetOr(map[]) ==> h[k] == caller.GetOr(map[])[k]
    ensures forall k :: k in defaults && k !in caller.GetOr(map[]) ==> h[k] == defaults[k]
  {
    defaults + caller.GetOr(map[])
  }

  /** A caller-supplied body (`body?: any`): absent, a string, or another value
      together with its JavaScript truthiness (a `0`, `false` or `null` is falsy,
      every object is truthy). */
  datatype Body<J> = Absent | StringBody(text: string) | Value(value: J, truthy: bool)

  predicate Truthy<J>(b: Body<J>)
  {
    match b
    case Absent => false
    case StringBody(s) => s != ""
    case Value(_, t) => t
  }

  /** What `config.body` ends up as: attached only for a truthy body on a non-GET
      method, a string verbatim and anything else through `JSON.stringify`. */
  function OutgoingBody<J>(m: Method, b: Body<J>, stringify: J -> string): (r: Option<string>)
    ensures r.Some? <==> Truthy(b) && m != GET
    ensures r.Some? && b.StringBody? ==> r.value == b.text
    ensures r.Some? && b.Value? ==> r.value == stringify(b.value)
  {
    if Truthy(b) && m != GET then
      Some(if b.StringBody? then b.text else stringify(b.value))
    else None
  }

  /** A response body after `JSON.parse` with the raw-text fallback. */
  datatype Payload<J> = Parsed(json: J) | Raw(text: string)

  /** Decoding never fails: the parsed value when the text is JSON, the text itself otherwise. */
  function Decode<J>(text: string, parse: string -> Option<J>): (p: Payload<J>)
    ensures p.Raw? <==> parse(text).None?
    ensures p.Raw? ==> p.text == text
    ensures p.Parsed? ==> parse(text) == Some(p.json)
  {
    match parse(text)
    case Some(v) => Parsed(v)
    case None => Raw(text)
  }

  /** What the fetch-based transports return for one call: a response (its status,
      headers and body text) or a thrown value (network failure, abort on timeout,
      TLS rejection, ...). */
  datatype FetchOutcome = Responded(status: nat, headers: Headers, text: string) | Threw(thrown: Thrown)

  /** `response.ok`: the status is in the range 200-299. */
  predicate StatusOk(status: nat)
  {
    200 <= status < 300
  }

  /** The request a fetch-based hook hands to its transport. */
  datatype FetchRequest = FetchRequest(url: string, httpMethod: Method, headers: Headers, body: Option<string>, timeoutMs: nat)

  /** The shared shape of `makeRequest`'s options; `None` stands for an option left out. */
  datatype RequestOptions<J> = RequestOptions(url: string, httpMethod: Option<Method>, headers: Option<Headers>, body: Body<J>, timeoutMs: Option<nat>)

  datatype FetchResponse<J> = FetchResponse(data: Payload<J>, status: nat, headers: Headers)

  /** How both fetch-based hooks settle a call once the transport has answered:
      any response, whatever its status, is returned with its body decoded and its
      headers copied (no `response.ok` check); a thrown value becomes a failure
      carrying the hook's own message for it. */
  function Settle<J>(outcome: FetchOutcome, parse: string -> Option<J>, describe: Thrown -> string): (r: Result<FetchResponse<J>, string>)
    ensures r.Success? <==> outcome.Responded?
    ensures r.Success? ==> r.value.status == outcome.status && r.value.headers == outcome.headers
    ensures r.Success? ==> r.value.data == Decode(outcome.text, parse)
    ensures r.Failure? ==> r.error == describe(outcome.thrown)
  {
    match outcome
    case Responded(status, headers, text) => Success(FetchResponse(Decode(text, parse), status, headers))
    case Threw(e) => Failure(describe(e))
  }

  /** The categories the hooks' `catch` chains sort a thrown value into. */
  datatype FailureKind = Timeout | Network | Tls | Refused | ConnectTimeout | Unclassified
}

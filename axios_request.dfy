/** `useAxiosSSLRequest`: `makeRequest` over a shared axios instance and its five
    method wrappers. The instance accepts every status below 600
    (`validateStatus`), so only a status of 600 or more, a request that got no
    response, or a request that could not be set up reaches the error path. */
module AxiosRequest {
  import opened Text
  import opened Transport

  const DefaultTimeoutMs: nat := 10000

  const DefaultHeaders: Headers := map["Content-Type" := "application/json"]

  /** The instance's `validateStatus`. */
  predicate Accepted(status: nat)
  {
    status < 600
  }

  /** The request config handed to `axiosInstance.request`; `data` is passed on
      unserialised (axios serialises it), `Absent` standing for `undefined`. */
  datatype AxiosConfig<J> = AxiosConfig(url: string, verb: string, headers: Headers, timeoutMs: nat, data: Body<J>)

  /** What the axios instance produced: a response (its status, status text,
      headers and already-decoded data), an error carrying a request but no
      response, or an error raised while setting the request up. */
  datatype AxiosOutcome<J> =
    | Received(status: nat, statusText: string, headers: Headers, data: Payload<J>)
    | NoResponse(message: string)
    | SetupFailed(message: string)

  datatype AxiosResponse<J> = AxiosResponse(data: Payload<J>, status: nat, headers: Headers, statusText: string)

  /** The config literal of `makeRequest`: defaults for the missing options, the
      method lower-cased, the caller's headers over `Content-Type`, and `data`
      only for a truthy payload on a non-GET method. */
  function Configure<J>(options: RequestOptions<J>): (c: AxiosConfig<J>)
    ensures c.url == options.url
    ensures c.verb == Lower(MethodName(options.httpMethod.GetOr(GET)))
    ensures c.timeoutMs == options.timeoutMs.GetOr(DefaultTimeoutMs)
    ensures c.headers == MergeHeaders(DefaultHeaders, options.headers)
    ensures c.data != Absent <==> Truthy(options.body) && options.httpMethod.GetOr(GET) != GET
    ensures c.data != Absent ==> c.data == options.body
  {
    var m := options.httpMethod.GetOr(GET);
    AxiosConfig(
      options.url,
      Lower(MethodName(m)),
      MergeHeaders(DefaultHeaders, options.headers),
      options.timeoutMs.GetOr(DefaultTimeoutMs),
      if Truthy(options.body) && m != GET then options.body else Absent)
  }

  /** The `try`/`catch` of `makeRequest`: an accepted response is copied field by
      field; otherwise exactly one of three messages, chosen by whether the error
      carries a response, else a request, else neither. */
  function Settle<J>(outcome: AxiosOutcome<J>): (r: Result<AxiosResponse<J>, string>)
    ensures r.Success? <==> outcome.Received? && Accepted(outcome.status)
    ensures r.Success? ==> r.value == AxiosResponse(outcome.data, outcome.status, outcome.headers, outcome.statusText)
    ensures outcome.Received? && !Accepted(outcome.status) ==>
              r == Failure("Axios SSL Request failed [" + NatToString(outcome.status) + "]: " + outcome.statusText)
    ensures outcome.NoResponse? ==> r == Failure("Axios Network error: " + outcome.message)
    ensures outcome.SetupFailed? ==> r == Failure("Axios Request setup error: " + outcome.message)
  {
    match outcome
    case Received(status, statusText, headers, data) =>
      if Accepted(status) then Success(AxiosResponse(data, status, headers, statusText))
      else Failure("Axios SSL Request failed [" + NatToString(status) + "]: " + statusText)
    case NoResponse(message) => Failure("Axios Network error: " + message)
    case SetupFailed(message) => Failure("Axios Request setup error: " + message)
  }

  datatype Call<J> = Call(config: AxiosConfig<J>, result: Result<AxiosResponse<J>, string>)

  /** The message for a rejected status shows the status and its text. */
  lemma RejectionShowsStatus(status: nat, statusText: string)
    ensures var m := "Axios SSL Request failed [" + NatToString(status) + "]: " + statusText;
            Contains(m, NatToString(status)) && Contains(m, statusText)
  {
    var pre := "Axios SSL Request failed [";
    var code := NatToString(status);
    var m := pre + code + "]: " + statusText;
    ContainsSuffix(pre + code + "]: ", statusText);
    assert m[|pre|..|pre| + |code|] == code;
    ContainsAt(m, code, |pre|);
  }

  /** `makeRequest`: the request goes out as configured, and the call resolves
      to the response exactly when one with an accepted status came back; every
      rejection keeps what axios reported (the status and its text, or the
      underlying error message). */
  function MakeRequest<J>(options: RequestOptions<J>, transport: AxiosOutcome<J>): (c: Call<J>)
    ensures c.config == Configure(options) && c.result == Settle(transport)
    ensures c.config.url == options.url && c.config.headers == MergeHeaders(DefaultHeaders, options.headers)
    ensures c.config.timeoutMs == options.timeoutMs.GetOr(DefaultTimeoutMs)
    ensures c.result.Success? <==> transport.Received? && transport.status < 600
    ensures c.config.verb == Lower(MethodName(options.httpMethod.GetOr(GET)))
    ensures c.config.data != Absent <==> Truthy(options.body) && options.httpMethod.GetOr(GET) != GET
    ensures c.result.Success? ==>
              c.result.value == AxiosResponse(transport.data, transport.status, transport.headers, transport.statusText)
    ensures transport.NoResponse? ==> c.result == Failure("Axios Network error: " + transport.message)
    ensures transport.SetupFailed? ==> c.result == Failure("Axios Request setup error: " + transport.message)
    ensures transport.Received? && transport.status >= 600 ==>
              Contains(c.result.error, NatToString(transport.status)) && Contains(c.result.error, transport.statusText)
    ensures !transport.Received? ==> Contains(c.result.error, transport.message)
  {
    var r := Settle(transport);
    match transport
    case Received(status, statusText, _, _) =>
      RejectionShowsStatus(status, statusText);
      Call(Configure(options), r)
    case NoResponse(message) =>
      ContainsSuffix("Axios Network error: ", message);
      Call(Configure(options), r)
    case SetupFailed(message) =>
      ContainsSuffix("Axios Request setup error: ", message);
      Call(Configure(options), r)
  }

  /** Every status the server can send (below 600) comes back as a response,
      never as an error, whatever its class. */
  lemma EveryHttpStatusResolves<J>(options: RequestOptions<J>, status: nat, statusText: string, headers: Headers, data: Payload<J>)
    requires status < 600
    ensures MakeRequest(options, Received(status, statusText, headers, data)).result
            == Success(AxiosResponse(data, status, headers, statusText))
  {
  }

  /** The method names axios receives. */
  lemma {:induction false} LowerCaseVerbs()
    ensures Lower(MethodName(GET)) == "get" && Lower(MethodName(POST)) == "post"
    ensures Lower(MethodName(PUT)) == "put" && Lower(MethodName(DELETE)) == "delete"
    ensures Lower(MethodName(PATCH)) == "patch"
  {
    assert Lower("GET") == [LowerChar('G')] + Lower("ET");
    assert Lower("POST") == [LowerChar('P')] + Lower("OST");
    assert Lower("PUT") == [LowerChar('P')] + Lower("UT");
    assert Lower("DELETE") == [LowerChar('D')] + Lower("ELETE");
    assert Lower("PATCH") == [LowerChar('P')] + Lower("ATCH");
  }

  function Get<J>(url: string, headers: Option<Headers>, transport: AxiosOutcome<J>): (c: Call<J>)
    ensures c.config.verb == "get" && c.config.data == Absent
    ensures c.config.url == url && c.config.headers == MergeHeaders(DefaultHeaders, headers)
    ensures c.config.timeoutMs == DefaultTimeoutMs && c.result == Settle(transport)
  {
    LowerCaseVerbs();
    MakeRequest(RequestOptions(url, Some(GET), headers, Absent, None), transport)
  }

  function Post<J>(url: string, data: Body<J>, headers: Option<Headers>, transport: AxiosOutcome<J>): (c: Call<J>)
    ensures c.config.verb == "post" && (c.config.data == if Truthy(data) then data else Absent)
    ensures c.config.url == url && c.config.headers == MergeHeaders(DefaultHeaders, headers)
    ensures c.config.timeoutMs == DefaultTimeoutMs && c.result == Settle(transport)
  {
    LowerCaseVerbs();
    MakeRequest(RequestOptions(url, Some(POST), headers, data, None), transport)
  }

  function Put<J>(url: string, data: Body<J>, headers: Option<Headers>, transport: AxiosOutcome<J>): (c: Call<J>)
    ensures c.config.verb == "put" && (c.config.data == if Truthy(data) then data else Absent)
    ensures c.config.url == url && c.config.headers == MergeHeaders(DefaultHeaders, headers)
    ensures c.config.timeoutMs == DefaultTimeoutMs && c.result == Settle(transport)
  {
    LowerCaseVerbs();
    MakeRequest(RequestOptions(url, Some(PUT), headers, data, None), transport)
  }

  function Delete<J>(url: string, headers: Option<Headers>, transport: AxiosOutcome<J>): (c: Call<J>)
    ensures c.config.verb == "delete" && c.config.data == Absent
    ensures c.config.url == url && c.config.headers == MergeHeaders(DefaultHeaders, headers)
    ensures c.config.timeoutMs == DefaultTimeoutMs && c.result == Settle(transport)
  {
    LowerCaseVerbs();
    MakeRequest(RequestOptions(url, Some(DELETE), headers, Absent, None), transport)
  }

  function Patch<J>(url: string, data: Body<J>, headers: Option<Headers>, transport: AxiosOutcome<J>): (c: Call<J>)
    ensures c.config.verb == "patch" && (c.config.data == if Truthy(data) then data else Absent)
    ensures c.config.url == url && c.config.headers == MergeHeaders(DefaultHeaders, headers)
    ensures c.config.timeoutMs == DefaultTimeoutMs && c.result == Settle(transport)
  {
    LowerCaseVerbs();
    MakeRequest(RequestOptions(url, Some(PATCH), headers, data, None), transport)
  }
}

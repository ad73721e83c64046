/** `useCrossFetch`: the same `makeRequest` shape as `useSSLRequest`, over the
    `cross-fetch` polyfill, with a `User-Agent` default header and a longer
    error chain; and its `get` / `post` / `put` / `delete` wrappers. */
module CrossFetch {
  import opened Text
  import opened Transport

  const DefaultTimeoutMs: nat := 30000

  const DefaultHeaders: Headers :=
    map["Content-Type" := "application/json", "Accept" := "application/json", "User-Agent" := "CrossFetch/ReactNative"]

  /** The `catch` chain: abort, then the network marker, then "SSL" or
      "certificate", then "ECONNREFUSED", then "ETIMEDOUT". */
  function Classify(e: Thrown): (k: FailureKind)
    ensures k == Timeout <==> IsAbort(e)
    ensures k == Network <==> !IsAbort(e) && MessageHas(e, "Network request failed")
    ensures k == Tls <==> !IsAbort(e) && !MessageHas(e, "Network request failed")
                          && (MessageHas(e, "SSL") || MessageHas(e, "certificate"))
    ensures k == Refused <==> !IsAbort(e) && !MessageHas(e, "Network request failed")
                              && !MessageHas(e, "SSL") && !MessageHas(e, "certificate") && MessageHas(e, "ECONNREFUSED")
    ensures k == ConnectTimeout <==> !IsAbort(e) && !MessageHas(e, "Network request failed")
                                     && !MessageHas(e, "SSL") && !MessageHas(e, "certificate")
                                     && !MessageHas(e, "ECONNREFUSED") && MessageHas(e, "ETIMEDOUT")
  {
    if IsAbort(e) then Timeout
    else if MessageHas(e, "Network request failed") then Network
    else if MessageHas(e, "SSL") || MessageHas(e, "certificate") then Tls
    else if MessageHas(e, "ECONNREFUSED") then Refused
    else if MessageHas(e, "ETIMEDOUT") then ConnectTimeout
    else Unclassified
  }

  function TimeoutMessage(timeoutMs: nat, url: string): string
  {
    "CrossFetch timeout após " + NatToString(timeoutMs) + "ms para " + url
  }

  const GenericPrefix: string := "CrossFetch falhou: "

  /** The message of the error `makeRequest` rethrows for a thrown value `e`:
      every recognised failure names the URL, an unrecognised `Error` passes its
      own message through, and any other thrown value is "Erro desconhecido". */
  function FailureMessage(e: Thrown, url: string, timeoutMs: nat): (m: string)
    ensures Classify(e) != Unclassified ==> Contains(m, url)
    ensures Classify(e) == Unclassified && e.ErrorObject? ==> m == GenericPrefix + e.message && Contains(m, e.message)
    ensures e.OtherValue? ==> m == GenericPrefix + "Erro desconhecido"
  {
    match Classify(e)
    case Timeout =>
      ContainsSuffix("CrossFetch timeout após " + NatToString(timeoutMs) + "ms para ", url);
      TimeoutMessage(timeoutMs, url)
    case Network =>
      ContainsSuffix("CrossFetch: Erro de rede para ", url);
      "CrossFetch: Erro de rede para " + url
    case Tls =>
      ContainsSuffix("CrossFetch: Erro de certificado SSL para ", url);
      "CrossFetch: Erro de certificado SSL para " + url
    case Refused =>
      ContainsSuffix("CrossFetch: Conexão recusada para ", url);
      "CrossFetch: Conexão recusada para " + url
    case ConnectTimeout =>
      ContainsSuffix("CrossFetch: Timeout de conexão para ", url);
      "CrossFetch: Timeout de conexão para " + url
    case Unclassified =>
      if e.ErrorObject? then
        ContainsSuffix(GenericPrefix, e.message);
        GenericPrefix + e.message
      else GenericPrefix + "Erro desconhecido"
  }

  /** A timeout names both the timeout and the URL it was waiting for. */
  lemma TimeoutNamesTimeoutAndUrl(e: Thrown, url: string, timeoutMs: nat)
    requires IsAbort(e)
    ensures Contains(FailureMessage(e, url, timeoutMs), url)
    ensures Contains(FailureMessage(e, url, timeoutMs), NatToString(timeoutMs))
  {
    var msg := FailureMessage(e, url, timeoutMs);
    var pre := "CrossFetch timeout após " + NatToString(timeoutMs) + "ms para ";
    assert msg == pre + url;
    ContainsAt(msg, url, |pre|);
    assert msg[24..24 + |NatToString(timeoutMs)|] == NatToString(timeoutMs);
    ContainsAt(msg, NatToString(timeoutMs), 24);
  }

  /** `makeRequest`: fills in the defaults, merges the headers, attaches the body
      to the config when the rule allows it, and settles the transport's outcome. */
  method MakeRequest<J>(options: RequestOptions<J>, stringify: J -> string, parse: string -> Option<J>, transport: FetchOutcome)
    returns (sent: FetchRequest, r: Result<FetchResponse<J>, string>)
    ensures sent.url == options.url
    ensures sent.httpMethod == options.httpMethod.GetOr(GET)
    ensures sent.timeoutMs == options.timeoutMs.GetOr(DefaultTimeoutMs)
    ensures sent.headers == MergeHeaders(DefaultHeaders, options.headers)
    ensures sent.body == OutgoingBody(sent.httpMethod, options.body, stringify)
    ensures r == Settle(transport, parse, e => FailureMessage(e, options.url, sent.timeoutMs))
  {
    var m := options.httpMethod.GetOr(GET);
    var timeout := options.timeoutMs.GetOr(DefaultTimeoutMs);
    sent := FetchRequest(options.url, m, MergeHeaders(DefaultHeaders, options.headers), None, timeout);
    if Truthy(options.body) && m != GET {
      sent := sent.(body := Some(if options.body.StringBody? then options.body.text else stringify(options.body.value)));
    }
    match transport {
      case Responded(status, headers, text) =>
        r := Success(FetchResponse(Decode(text, parse), status, headers));
      case Threw(e) =>
        r := Failure(FailureMessage(e, options.url, timeout));
    }
  }

  method Get<J>(url: string, headers: Option<Headers>, stringify: J -> string, parse: string -> Option<J>, transport: FetchOutcome)
    returns (sent: FetchRequest, r: Result<FetchResponse<J>, string>)
    ensures sent.httpMethod == GET && sent.body == None && sent.timeoutMs == DefaultTimeoutMs
    ensures sent.url == url && sent.headers == MergeHeaders(DefaultHeaders, headers)
    ensures r == Settle(transport, parse, e => FailureMessage(e, url, DefaultTimeoutMs))
  {
    sent, r := MakeRequest(RequestOptions(url, Some(GET), headers, Absent, None), stringify, parse, transport);
  }

  method Post<J>(url: string, body: Body<J>, headers: Option<Headers>, stringify: J -> string, parse: string -> Option<J>, transport: FetchOutcome)
    returns (sent: FetchRequest, r: Result<FetchResponse<J>, string>)
    ensures sent.httpMethod == POST && sent.body == OutgoingBody(POST, body, stringify)
    ensures sent.body.Some? <==> Truthy(body)
    ensures sent.url == url && sent.headers == MergeHeaders(DefaultHeaders, headers) && sent.timeoutMs == DefaultTimeoutMs
    ensures r == Settle(transport, parse, e => FailureMessage(e, url, DefaultTimeoutMs))
  {
    sent, r := MakeRequest(RequestOptions(url, Some(POST), headers, body, None), stringify, parse, transport);
  }

  method Put<J>(url: string, body: Body<J>, headers: Option<Headers>, stringify: J -> string, parse: string -> Option<J>, transport: FetchOutcome)
    returns (sent: FetchRequest, r: Result<FetchResponse<J>, string>)
    ensures sent.httpMethod == PUT && sent.body == OutgoingBody(PUT, body, stringify)
    ensures sent.body.Some? <==> Truthy(body)
    ensures sent.url == url && sent.headers == MergeHeaders(DefaultHeaders, headers) && sent.timeoutMs == DefaultTimeoutMs
    ensures r == Settle(transport, parse, e => FailureMessage(e, url, DefaultTimeoutMs))
  {
    sent, r := MakeRequest(RequestOptions(url, Some(PUT), headers, body, None), stringify, parse, transport);
  }

  method Delete<J>(url: string, headers: Option<Headers>, stringify: J -> string, parse: string -> Option<J>, transport: FetchOutcome)
    returns (sent: FetchRequest, r: Result<FetchResponse<J>, string>)
    ensures sent.httpMethod == DELETE && sent.body == None && sent.timeoutMs == DefaultTimeoutMs
    ensures sent.url == url && sent.headers == MergeHeaders(DefaultHeaders, headers)
    ensures r == Settle(transport, parse, e => FailureMessage(e, url, DefaultTimeoutMs))
  {
    sent, r := MakeRequest(RequestOptions(url, Some(DELETE), headers, Absent, None), stringify, parse, transport);
  }
}

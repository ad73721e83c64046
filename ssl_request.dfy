/** `useSSLRequest`: `makeRequest` over the platform's native `fetch`, and its
    `get` / `post` / `put` / `delete` wrappers. The network is an input: the
    outcome the transport produced for the request the hook built. */
module SSLRequest {
  import opened Text
  import opened Transport

  const DefaultTimeoutMs: nat := 30000

  const DefaultHeaders: Headers := map["Content-Type" := "application/json", "Accept" := "application/json"]

  /** The `catch` chain: abort, then the network marker, then "SSL" (only that
      marker: a message mentioning just "certificate" is not recognised). */
  function Classify(e: Thrown): (k: FailureKind)
    ensures k in {Timeout, Network, Tls, Unclassified}
    ensures k == Timeout <==> IsAbort(e)
    ensures k == Network <==> !IsAbort(e) && MessageHas(e, "Network request failed")
    ensures k == Tls <==> !IsAbort(e) && !MessageHas(e, "Network request failed") && MessageHas(e, "SSL")
  {
    if IsAbort(e) then Timeout
    else if MessageHas(e, "Network request failed") then Network
    else if MessageHas(e, "SSL") then Tls
    else Unclassified
  }

  function TimeoutMessage(timeoutMs: nat, url: string): string
  {
    "Fetch timeout após " + NatToString(timeoutMs) + "ms para " + url
  }

  const GenericPrefix: string := "Fetch falhou: "

  /** The message of the error `makeRequest` rethrows for a thrown value `e`:
      every recognised failure names the URL, an unrecognised `Error` passes its
      own message through, and any other thrown value is "Erro desconhecido". */
  function FailureMessage(e: Thrown, url: string, timeoutMs: nat): (m: string)
    ensures Classify(e) != Unclassified ==> Contains(m, url)
    ensures Classify(e) == Unclassified && e.ErrorObject? ==> m == GenericPrefix + e.message && Contains(m, e.message)
    ensures e.OtherValue? ==> m == GenericPrefix + "Erro desconhecido"
  {
    var k := Classify(e);
    if k == Timeout then
      ContainsSuffix("Fetch timeout após " + NatToString(timeoutMs) + "ms para ", url);
      TimeoutMessage(timeoutMs, url)
    else if k == Network then
      ContainsSuffix("Erro de rede: Verifique se o servidor está acessível em ", url);
      "Erro de rede: Verifique se o servidor está acessível em " + url
    else if k == Tls then
      ContainsSuffix("Erro SSL: Certificado rejeitado para ", url);
      "Erro SSL: Certificado rejeitado para " + url
    else
      if e.ErrorObject? then
        ContainsSuffix(GenericPrefix, e.message);
        GenericPrefix + e.message
      else GenericPrefix + "Erro desconhecido"
  }

  /** A timeout names both the timeout and the URL it was waiting for. */
  lemma TimeoutNamesTimeoutAndUrl(e: Thrown, url: string, timeoutMs: nat)
    requires IsAbort(e)
    ensures Contains(FailureMessage(e, url, timeoutMs), url)
    ensures Contains(FailureMessage(e, url, timeoutMs), NatToString(timeoutMs))
  {
    var msg := FailureMessage(e, url, timeoutMs);
    var pre := "Fetch timeout após " + NatToString(timeoutMs) + "ms para ";
    assert msg == pre + url;
    ContainsAt(msg, url, |pre|);
    assert msg[19..19 + |NatToString(timeoutMs)|] == NatToString(timeoutMs);
    ContainsAt(msg, NatToString(timeoutMs), 19);
  }

  /** `makeRequest`: fills in the defaults, merges the headers, attaches the body
      to the config when the rule allows it, and settles the transport's outcome. */
  method MakeRequest<J>(options: RequestOptions<J>, stringify: J -> string, parse: string -> Option<J>, transport: FetchOutcome)
    returns (sent: FetchRequest, r: Result<FetchResponse<J>, string>)
    ensures sent.url == options.url
    ensures sent.httpMethod == options.httpMethod.GetOr(GET)
    ensures sent.timeoutMs == options.timeoutMs.GetOr(DefaultTimeoutMs)
    ensures sent.headers == MergeHeaders(DefaultHeaders, options.headers)
    ensures sent.body == OutgoingBody(sent.httpMethod, options.body, stringify)
    ensures r == Settle(transport, parse, e => FailureMessage(e, options.url, sent.timeoutMs))
  {
    var m := options.httpMethod.GetOr(GET);
    var timeout := options.timeoutMs.GetOr(DefaultTimeoutMs);
    sent := FetchRequest(options.url, m, MergeHeaders(DefaultHeaders, options.headers), None, timeout);
    if Truthy(options.body) && m != GET {
      sent := sent.(body := Some(if options.body.StringBody? then options.body.text else stringify(options.body.value)));
    }
    match transport {
      case Responded(status, headers, text) =>
        r := Success(FetchResponse(Decode(text, parse), status, headers));
      case Threw(e) =>
        r := Failure(FailureMessage(e, options.url, timeout));
    }
  }

  method Get<J>(url: string, headers: Option<Headers>, stringify: J -> string, parse: string -> Option<J>, transport: FetchOutcome)
    returns (sent: FetchRequest, r: Result<FetchResponse<J>, string>)
    ensures sent.httpMethod == GET && sent.body == None && sent.timeoutMs == DefaultTimeoutMs
    ensures sent.url == url && sent.headers == MergeHeaders(DefaultHeaders, headers)
    ensures r == Settle(transport, parse, e => FailureMessage(e, url, DefaultTimeoutMs))
  {
    sent, r := MakeRequest(RequestOptions(url, Some(GET), headers, Absent, None), stringify, parse, transport);
  }

  method Post<J>(url: string, body: Body<J>, headers: Option<Headers>, stringify: J -> string, parse: string -> Option<J>, transport: FetchOutcome)
    returns (sent: FetchRequest, r: Result<FetchResponse<J>, string>)
    ensures sent.httpMethod == POST && sent.body == OutgoingBody(POST, body, stringify)
    ensures sent.body.Some? <==> Truthy(body)
    ensures sent.url == url && sent.headers == MergeHeaders(DefaultHeaders, headers) && sent.timeoutMs == DefaultTimeoutMs
    ensures r == Settle(transport, parse, e => FailureMessage(e, url, DefaultTimeoutMs))
  {
    sent, r := MakeRequest(RequestOptions(url, Some(POST), headers, body, None), stringify, parse, transport);
  }

  method Put<J>(url: string, body: Body<J>, headers: Option<Headers>, stringify: J -> string, parse: string -> Option<J>, transport: FetchOutcome)
    returns (sent: FetchRequest, r: Result<FetchResponse<J>, string>)
    ensures sent.httpMethod == PUT && sent.body == OutgoingBody(PUT, body, stringify)
    ensures sent.body.Some? <==> Truthy(body)
    ensures sent.url == url && sent.headers == MergeHeaders(DefaultHeaders, headers) && sent.timeoutMs == DefaultTimeoutMs
    ensures r == Settle(transport, parse, e => FailureMessage(e, url, DefaultTimeoutMs))
  {
    sent, r := MakeRequest(RequestOptions(url, Some(PUT), headers, body, None), stringify, parse, transport);
  }

  method Delete<J>(url: string, headers: Option<Headers>, stringify: J -> string, parse: string -> Option<J>, transport: FetchOutcome)
    returns (sent: FetchRequest, r: Result<FetchResponse<J>, string>)
    ensures sent.httpMethod == DELETE && sent.body == None && sent.timeoutMs == DefaultTimeoutMs
    ensures sent.url == url && sent.headers == MergeHeaders(DefaultHeaders, headers)
    ensures r == Settle(transport, parse, e => FailureMessage(e, url, DefaultTimeoutMs))
  {
    sent, r := MakeRequest(RequestOptions(url, Some(DELETE), headers, Absent, None), stringify, parse, transport);
  }
}

/** Side-by-side facts about the three request hooks, the two diagnostics and
    the test server: where their error chains agree, where they part, and how
    the diagnostics read the server's answers. */
module Comparisons {
  import opened Text
  import opened Transport
  import SR = SSLRequest
  import CF = CrossFetch
  import SD = SSLDiagnostic
  import SS = SimpleDiagnostic
  import TS = TestServer

  /** The cross-fetch hook and the full diagnostic sort thrown values the same way. */
  lemma {:induction false} CrossFetchSortsLikeDiagnostic(e: Thrown)
    ensures CF.Classify(e) == SD.Classify(e)
  {
    var k := CF.Classify(e);
    assert k == SD.Classify(e) by {
      match k
      case Timeout =>
      case Network =>
      case Tls =>
      case Refused =>
      case ConnectTimeout =>
      case Unclassified =>
    }
  }

  /** Whatever the native-fetch hook recognises, cross-fetch recognises as the
      same kind; and a TLS failure there is one for cross-fetch too. */
  lemma NativeKindsKeptByCrossFetch(e: Thrown)
    ensures SR.Classify(e) != Unclassified ==> CF.Classify(e) == SR.Classify(e)
  {
  }

  /** The simple diagnostic agrees with the full one except that it has no
      "connection refused" or "connect timeout" kinds: those messages are kept
      verbatim as unclassified. */
  lemma SimpleSortsLikeDiagnostic(e: Thrown)
    ensures SD.Classify(e) in {Refused, ConnectTimeout} ==> SS.Classify(e) == Unclassified
    ensures SD.Classify(e) !in {Refused, ConnectTimeout} ==> SS.Classify(e) == SD.Classify(e)
  {
  }

  const CertificateExpired: string := "certificate has expired"

  /** The certificate-only message says neither "SSL" nor "Network request failed". */
  lemma CertificateExpiredLacksMarkers()
    ensures !Contains(CertificateExpired, "SSL")
    ensures !Contains(CertificateExpired, "Network request failed")
  {
    var m := CertificateExpired;
    assert 'S' !in m && 'N' !in m;
    AbsentLead(m, "SSL");
    AbsentLead(m, "Network request failed");
  }

  /** ... but does say "certificate". */
  lemma CertificateExpiredSaysCertificate()
    ensures Contains(CertificateExpired, "certificate")
  {
    var m := CertificateExpired;
    assert m[0..11] == "certificate";
    ContainsAt(m, "certificate", 0);
  }

  /** The two fetch hooks part on every certificate error that does not say
      "SSL": the native-fetch hook reports it as a generic failure with the raw
      message, cross-fetch as a certificate error naming the URL. */
  lemma CertificateOnlyMessagesPart(e: Thrown, url: string, timeoutMs: nat)
    requires !IsAbort(e) && !MessageHas(e, "Network request failed")
    requires MessageHas(e, "certificate") && !MessageHas(e, "SSL")
    ensures SR.Classify(e) == Unclassified && CF.Classify(e) == Tls
    ensures SR.FailureMessage(e, url, timeoutMs) == SR.GenericPrefix + e.message
    ensures CF.FailureMessage(e, url, timeoutMs) == "CrossFetch: Erro de certificado SSL para " + url
  {
  }

  /** "certificate has expired" is such a message. */
  lemma CertificateExpiredParts(url: string)
    ensures SR.Classify(ErrorObject("Error", CertificateExpired)) == Unclassified
    ensures CF.Classify(ErrorObject("Error", CertificateExpired)) == Tls
    ensures SR.FailureMessage(ErrorObject("Error", CertificateExpired), url, SR.DefaultTimeoutMs)
            == "Fetch falhou: " + CertificateExpired
  {
    CertificateExpiredLacksMarkers();
    CertificateExpiredSaysCertificate();
    CertificateOnlyMessagesPart(ErrorObject("Error", CertificateExpired), url, SR.DefaultTimeoutMs);
  }

  /** Cross-fetch sends the native hook's default headers plus its own
      `User-Agent`, which a caller's `User-Agent` still overrides. */
  lemma CrossFetchHeadersExtendNative(caller: Option<Headers>)
    ensures var native := MergeHeaders(SR.DefaultHeaders, caller);
            var cross := MergeHeaders(CF.DefaultHeaders, caller);
            cross.Keys == native.Keys + {"User-Agent"}
            && (forall k :: k in native && k != "User-Agent" ==> cross[k] == native[k])
            && cross["User-Agent"] == if "User-Agent" in caller.GetOr(map[]) then caller.GetOr(map[])["User-Agent"]
                                      else "CrossFetch/ReactNative"
  {
  }

  /** A probe answered by the test server's `GET /api/test` succeeds in both
      diagnostics, with status 200, whatever user agent the client sent. */
  lemma ServerAnswersCountAsSuccess<J, P>(url: string, userAgent: Option<string>, ms: nat, headers: Headers, text: string,
                                          statusText: string, data: Payload<P>,
                                          parse: string -> Option<J>, nameOf: J -> TS.NameLookup,
                                          simple: SS.SimpleNet, net: SD.Net<P>, parseP: string -> Option<P>)
    requires var status := TS.Route("GET", "/api/test", userAgent, "", parse, nameOf).status;
             simple(url) == SD.Timed(Responded(status, headers, text), ms)
             && net.fetch(url).outcome == Responded(status, headers, text)
             && net.axios(url).outcome == SD.Answered(status, statusText, data)
    ensures SS.TestSingleUrl(url, simple).success && SS.TestSingleUrl(url, simple).statusCode == Some(200)
    ensures SD.TestSSLUrl(url, SD.FetchLib, net, parseP).success && SD.TestSSLUrl(url, SD.AxiosLib, net, parseP).success
  {
  }
}

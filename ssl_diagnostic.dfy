/** `useSSLDiagnostic`, the runner half: the platform-dependent list of candidate
    servers, the probe of one server through fetch or axios (which never fails
    outward: every failure becomes a failed record), the sequential sweep over
    all servers, the success and failure counts, and the rule-based
    recommendations. The network is an oracle from URL to outcome and elapsed
    time; the basic-connectivity check is a boolean input. */
module SSLDiagnostic {
  import opened Text
  import opened Seqs
  import opened Transport

  const Android: string := "android"

  const BaseUrls: seq<string> := ["https://localhost:8443", "https://127.0.0.1:8443", "https://192.168.0.18:8443"]
  const EmulatorUrl: string := "https://10.0.2.2:8443"
  const EmulatorAltUrl: string := "https://10.0.3.2:8443"

  /** The candidate servers, in probe order. */
  function TestUrls(os: string): (urls: seq<string>)
    ensures os == Android ==> urls == ["https://10.0.2.2:8443", "https://localhost:8443", "https://127.0.0.1:8443",
                                       "https://192.168.0.18:8443", "https://10.0.3.2:8443"]
    ensures os != Android ==> urls == ["https://localhost:8443", "https://127.0.0.1:8443", "https://192.168.0.18:8443"]
  {
    if os == Android then [EmulatorUrl] + BaseUrls + [EmulatorAltUrl] else BaseUrls
  }

  /** `getTestUrls`: the base list, with the emulator alias put in front and the
      alternative alias appended on Android. */
  method GetTestUrls(os: string) returns (urls: seq<string>)
    ensures urls == TestUrls(os)
    ensures forall i, j :: 0 <= i < j < |urls| ==> urls[i] != urls[j]
  {
    urls := BaseUrls;
    if os == Android {
      urls := [EmulatorUrl] + urls;
      urls := urls + [EmulatorAltUrl];
    }
  }

  datatype Library = FetchLib | AxiosLib

  function LibraryName(lib: Library): string
  {
    match lib
    case FetchLib => "fetch"
    case AxiosLib => "axios"
  }

  /** One probe's record (`SSLDiagnosticResult`). */
  datatype ProbeResult<J> = ProbeResult(
    url: string,
    success: bool,
    error: Option<string>,
    responseTimeMs: nat,
    library: string,
    statusCode: Option<nat>,
    details: Option<Payload<J>>)

  datatype Timed<T> = Timed(outcome: T, elapsedMs: nat)

  /** What the axios probe met: the module could not be loaded, the server
      answered (status, status text, decoded data), or the call threw without a
      response. */
  datatype AxiosProbe<J> = AxiosMissing | Answered(status: nat, statusText: string, data: Payload<J>) | Unanswered(thrown: Thrown)

  /** The network as seen by one diagnostic run: what each client gets from each
      URL, and the time `Date.now() - startTime` measured when the record is built. */
  datatype Net<J> = Net(fetch: string -> Timed<FetchOutcome>, axios: string -> Timed<AxiosProbe<J>>)

  /** The `catch` chain of `testSSLUrl`. */
  function Classify(e: Thrown): (k: FailureKind)
    ensures k == Timeout <==> IsAbort(e)
    ensures k == Network <==> !IsAbort(e) && MessageHas(e, "Network request failed")
    ensures k == Tls <==> !IsAbort(e) && !MessageHas(e, "Network request failed")
                          && (MessageHas(e, "SSL") || MessageHas(e, "certificate"))
    ensures k == Refused <==> !IsAbort(e) && !MessageHas(e, "Network request failed")
                              && !MessageHas(e, "SSL") && !MessageHas(e, "certificate") && MessageHas(e, "ECONNREFUSED")
    ensures k == ConnectTimeout <==> !IsAbort(e) && !MessageHas(e, "Network request failed")
                                     && !MessageHas(e, "SSL") && !MessageHas(e, "certificate")
                                     && !MessageHas(e, "ECONNREFUSED") && MessageHas(e, "ETIMEDOUT")
  {
    if IsAbort(e) then Timeout
    else if MessageHas(e, "Network request failed") then Network
    else if MessageHas(e, "SSL") || MessageHas(e, "certificate") then Tls
    else if MessageHas(e, "ECONNREFUSED") then Refused
    else if MessageHas(e, "ETIMEDOUT") then ConnectTimeout
    else Unclassified
  }

  const TimeoutText: string := "Timeout - Servidor não respondeu"
  const NetworkText: string := "Falha de rede - Servidor inacessível"
  const TlsText: string := "Erro de certificado SSL - Certificado rejeitado"
  const RefusedText: string := "Conexão recusada - Servidor offline"
  const ConnectTimeoutText: string := "Timeout de conexão"

  lemma TlsTextMarker()
    ensures Contains(TlsText, "SSL")
  {
    assert TlsText == "Erro de certificado " + "SSL" + " - Certificado rejeitado";
    ContainsAt("SSL", "SSL", 0);
    ContainsExtended("Erro de certificado ", "SSL", " - Certificado rejeitado", "SSL");
  }

  lemma TimeoutTextsMarker()
    ensures Contains(TimeoutText, "Timeout") && Contains(ConnectTimeoutText, "Timeout")
  {
    assert TimeoutText[0..7] == "Timeout";
    ContainsAt(TimeoutText, "Timeout", 0);
    assert ConnectTimeoutText[0..7] == "Timeout";
    ContainsAt(ConnectTimeoutText, "Timeout", 0);
  }

  lemma NetworkTextMarker()
    ensures Contains(NetworkText, "rede")
  {
    assert NetworkText == "Falha de " + "rede" + " - Servidor inacessível";
    ContainsAt("rede", "rede", 0);
    ContainsExtended("Falha de ", "rede", " - Servidor inacessível", "rede");
  }

  /** The `errorMessage` recorded for a thrown value: an unrecognised `Error`
      keeps its own message, a non-`Error` is "Erro desconhecido", and each
      recognised kind gets a fixed text carrying the marker its recommendation
      rule looks for ("SSL" for TLS, "Timeout" for an abort or a connect
      timeout, "rede" for a network failure). */
  function Describe(e: Thrown): (m: string)
    ensures e.OtherValue? ==> m == "Erro desconhecido"
    ensures e.ErrorObject? && Classify(e) == Unclassified ==> m == e.message
    ensures Classify(e) == Tls ==> Contains(m, "SSL")
    ensures Classify(e) in {Timeout, ConnectTimeout} ==> Contains(m, "Timeout")
    ensures Classify(e) == Network ==> Contains(m, "rede")
  {
    TlsTextMarker();
    TimeoutTextsMarker();
    NetworkTextMarker();
    match e
    case OtherValue => "Erro desconhecido"
    case ErrorObject(_, message) =>
      match Classify(e)
      case Timeout => TimeoutText
      case Network => NetworkText
      case Tls => TlsText
      case Refused => RefusedText
      case ConnectTimeout => ConnectTimeoutText
      case Unclassified => message
  }

  /** The error `require('axios')` raises when the module is missing. */
  const AxiosMissingText: string := "Axios não está disponível"
  const AxiosMissingError: Thrown := ErrorObject("Error", AxiosMissingText)

  /** The missing-module error is none of the recognised kinds, so the record
      keeps its message. */
  lemma AxiosMissingDescribed()
    ensures Describe(AxiosMissingError) == AxiosMissingText
  {
    AxiosMissingLacksUpperMarkers();
    AxiosMissingLacksCertificate();
  }

  lemma AxiosMissingLacksUpperMarkers()
    ensures !Contains(AxiosMissingText, "Network request failed") && !Contains(AxiosMissingText, "SSL")
    ensures !Contains(AxiosMissingText, "ECONNREFUSED") && !Contains(AxiosMissingText, "ETIMEDOUT")
  {
    assert 'N' !in AxiosMissingText && 'S' !in AxiosMissingText && 'E' !in AxiosMissingText;
    AbsentLead(AxiosMissingText, "Network request failed");
    AbsentLead(AxiosMissingText, "SSL");
    AbsentLead(AxiosMissingText, "ECONNREFUSED");
    AbsentLead(AxiosMissingText, "ETIMEDOUT");
  }

  lemma AxiosMissingLacksCertificate()
    ensures !Contains(AxiosMissingText, "certificate")
  {
    assert 'c' !in AxiosMissingText;
    AbsentLead(AxiosMissingText, "certificate");
  }

  function FailedProbe<J>(url: string, lib: Library, e: Thrown, elapsedMs: nat): ProbeResult<J>
  {
    ProbeResult(url, false, Some(Describe(e)), elapsedMs, LibraryName(lib), None, None)
  }

  /** `testSSLUrl`: one probe of `url + "/api/test"`, which always yields a record.
      A fetch probe succeeds iff the response is ok (2xx); an axios probe
      resolves for any status below 600 and succeeds iff the status is below 400;
      every thrown value becomes a failed record with a message and no status. */
  function TestSSLUrl<J>(url: string, lib: Library, net: Net<J>, parse: string -> Option<J>): (r: ProbeResult<J>)
    ensures r.url == url && r.library == LibraryName(lib)
    ensures r.error.Some? ==> !r.success
    ensures lib == FetchLib ==> r.responseTimeMs == net.fetch(url).elapsedMs
    ensures lib == AxiosLib ==> r.responseTimeMs == net.axios(url).elapsedMs
    ensures lib == FetchLib ==>
              (r.success <==> net.fetch(url).outcome.Responded? && StatusOk(net.fetch(url).outcome.status))
    ensures lib == AxiosLib ==>
              (r.success <==> net.axios(url).outcome.Answered? && net.axios(url).outcome.status < 400)
    ensures lib == FetchLib && net.fetch(url).outcome.Threw? ==>
              r.error == Some(Describe(net.fetch(url).outcome.thrown)) && r.statusCode == None
    ensures lib == AxiosLib && net.axios(url).outcome.Unanswered? ==>
              r.error == Some(Describe(net.axios(url).outcome.thrown)) && r.statusCode == None
    ensures lib == FetchLib && net.fetch(url).outcome.Responded? ==>
              var o := net.fetch(url).outcome;
              r.error == None && r.statusCode == Some(o.status) && r.details == Some(Decode(o.text, parse))
    ensures lib == AxiosLib && net.axios(url).outcome.Answered? && net.axios(url).outcome.status < 600 ==>
              var o := net.axios(url).outcome;
              r.error == None && r.statusCode == Some(o.status) && r.details == Some(o.data)
    ensures lib == AxiosLib && net.axios(url).outcome.Answered? && net.axios(url).outcome.status >= 600 ==>
              var o := net.axios(url).outcome;
              r.error == Some("HTTP " + NatToString(o.status) + ": " + o.statusText)
              && r.statusCode == Some(o.status) && r.details == None
    ensures lib == AxiosLib && net.axios(url).outcome.AxiosMissing? ==>
              r.error == Some(AxiosMissingText) && r.statusCode == None && r.details == None
  {
    match lib
    case FetchLib =>
      var t := net.fetch(url);
      (match t.outcome
       case Responded(status, _, text) =>
         ProbeResult(url, StatusOk(status), None, t.elapsedMs, "fetch", Some(status), Some(Decode(text, parse)))
       case Threw(e) => FailedProbe(url, FetchLib, e, t.elapsedMs))
    case AxiosLib =>
      var t := net.axios(url);
      (match t.outcome
       case AxiosMissing =>
         AxiosMissingDescribed();
         FailedProbe(url, AxiosLib, AxiosMissingError, t.elapsedMs)
       case Answered(status, statusText, data) =>
         if status < 600 then
           ProbeResult(url, status < 400, None, t.elapsedMs, "axios", Some(status), Some(data))
         else
           ProbeResult(url, false, Some("HTTP " + NatToString(status) + ": " + statusText), t.elapsedMs, "axios", Some(status), None)
       case Unanswered(e) => FailedProbe(url, AxiosLib, e, t.elapsedMs))
  }

  /** The records of a full sweep: for each URL in order, its fetch probe, then its axios probe. */
  function ProbeAll<J>(urls: seq<string>, net: Net<J>, parse: string -> Option<J>): (rs: seq<ProbeResult<J>>)
    ensures |rs| == 2 * |urls|
  {
    if urls == [] then []
    else
      var last := urls[|urls| - 1];
      ProbeAll(urls[..|urls| - 1], net, parse) + [TestSSLUrl(last, FetchLib, net, parse), TestSSLUrl(last, AxiosLib, net, parse)]
  }

  /** Position 2k holds the fetch probe of the k-th URL and position 2k+1 its axios probe. */
  lemma {:induction false} ProbeAllAt<J>(urls: seq<string>, net: Net<J>, parse: string -> Option<J>, k: nat)
    requires k < |urls|
    ensures ProbeAll(urls, net, parse)[2 * k] == TestSSLUrl(urls[k], FetchLib, net, parse)
    ensures ProbeAll(urls, net, parse)[2 * k + 1] == TestSSLUrl(urls[k], AxiosLib, net, parse)
  {
    var front := urls[..|urls| - 1];
    if k < |urls| - 1 {
      ProbeAllAt(front, net, parse, k);
      assert front[k] == urls[k];
    }
  }

  predicate Succeeded<J>(r: ProbeResult<J>) { r.success }
  predicate Failed<J>(r: ProbeResult<J>) { !r.success }

  predicate ErrorHas<J>(r: ProbeResult<J>, marker: string)
  {
    r.error.Some? && Contains(r.error.value, marker)
  }

  predicate IsSslError<J>(r: ProbeResult<J>) { ErrorHas(r, "SSL") || ErrorHas(r, "certificate") }
  predicate IsNetworkError<J>(r: ProbeResult<J>) { ErrorHas(r, "rede") || ErrorHas(r, "inacessível") }
  predicate IsTimeoutError<J>(r: ProbeResult<J>) { ErrorHas(r, "Timeout") }

  /** `results.filter(r => r.success).length` */
  function SuccessCount<J>(rs: seq<ProbeResult<J>>): nat
  {
    Count(rs, Succeeded)
  }

  /** `results.length - successCount` */
  function FailureCount<J>(rs: seq<ProbeResult<J>>): nat
  {
    |rs| - SuccessCount(rs)
  }

  /** The failure count is exactly the number of failed records. */
  lemma FailuresAreFailedRecords<J>(rs: seq<ProbeResult<J>>)
    ensures FailureCount(rs) == Count(rs, Failed)
    ensures FailureCount(rs) > 0 <==> exists k :: 0 <= k < |rs| && !rs[k].success
  {
    CountComplement(rs, Succeeded, Failed);
    CountAll(rs, Succeeded);
  }

  const NoConnectivityLines: seq<string> := ["⚠️ Sem conectividade básica com a internet", "🔧 Verifique sua conexão de rede"]
  const SslProblemsLine: string := "🔒 Problemas de SSL detectados"
  const RebuildLine: string := "📱 Execute: npx expo prebuild --clean"
  const PluginLine: string := "🔧 Verifique se o plugin SSL bypass está ativo"
  const AndroidConfigLine: string := "🤖 Android: Verifique network_security_config.xml"
  const IosConfigLine: string := "🍎 iOS: Verifique configurações ATS no Info.plist"
  const StartServerLine: string := "🌐 Verifique se o servidor de teste está rodando"
  const RunServerLine: string := "▶️ Execute: npm run test-server"
  const SlowServerLine: string := "⏱️ Problema de timeout - servidor muito lento"
  const RaiseTimeoutLine: string := "🔄 Tente aumentar o timeout nas configurações"
  const AllWorkingLine: string := "✅ Todas as conexões SSL funcionando corretamente!"
  const PluginOkLine: string := "🎉 Plugin SSL bypass configurado com sucesso"

  function SslBlock(os: string): seq<string>
  {
    [RebuildLine, PluginLine, if os == Android then AndroidConfigLine else IosConfigLine]
  }

  /** The lines that follow the connectivity warning: on any failure the SSL
      problem line and then each guidance block whose marker some error message
      carries, in the fixed order SSL, network, timeout; with no failure the two
      success lines. */
  function RuleLines<J>(os: string, rs: seq<ProbeResult<J>>): seq<string>
  {
    if FailureCount(rs) > 0 then
      [SslProblemsLine]
      + (if Count(rs, IsSslError) > 0 then SslBlock(os) else [])
      + (if Count(rs, IsNetworkError) > 0 then [StartServerLine, RunServerLine] else [])
      + (if Count(rs, IsTimeoutError) > 0 then [SlowServerLine, RaiseTimeoutLine] else [])
    else
      [AllWorkingLine, PluginOkLine]
  }

  /** All recommendations of a run, the connectivity warning first. */
  function Recommendations<J>(hasBasicConnectivity: bool, os: string, rs: seq<ProbeResult<J>>): seq<string>
  {
    (if hasBasicConnectivity then [] else NoConnectivityLines) + RuleLines(os, rs)
  }

  /** Without basic connectivity the two warning lines open the list; with it,
      the list starts with the rule lines. */
  lemma ConnectivityLinesFirst<J>(hasBasicConnectivity: bool, os: string, rs: seq<ProbeResult<J>>)
    ensures !hasBasicConnectivity ==> Recommendations(hasBasicConnectivity, os, rs)[..2] == NoConnectivityLines
    ensures hasBasicConnectivity ==> Recommendations(hasBasicConnectivity, os, rs) == RuleLines(os, rs)
  {
  }

  /** The SSL problem line comes right after the connectivity lines exactly when some probe failed. */
  lemma ProblemLineIffFailure<J>(hasBasicConnectivity: bool, os: string, rs: seq<ProbeResult<J>>)
    ensures var recs := Recommendations(hasBasicConnectivity, os, rs);
            var at := if hasBasicConnectivity then 0 else 2;
            at < |recs| && (recs[at] == SslProblemsLine <==> exists k :: 0 <= k < |rs| && !rs[k].success)
  {
    FailuresAreFailedRecords(rs);
  }

  /** The two success lines appear exactly when every probe succeeded. */
  lemma {:induction false} SuccessLinesIffAllSucceeded<J>(hasBasicConnectivity: bool, os: string, rs: seq<ProbeResult<J>>)
    ensures AllWorkingLine in Recommendations(hasBasicConnectivity, os, rs) <==> forall k :: 0 <= k < |rs| ==> rs[k].success
  {
    FailuresAreFailedRecords(rs);
  }

  /** Without the `axios` module every axios probe still adds a failed record,
      so such a run never reports that all connections work. */
  lemma AxiosMissingBlocksAllWorking<J>(hasBasicConnectivity: bool, os: string, net: Net<J>, parse: string -> Option<J>)
    requires forall u :: net.axios(u).outcome.AxiosMissing?
    ensures AllWorkingLine !in Recommendations(hasBasicConnectivity, os, ProbeAll(TestUrls(os), net, parse))
  {
    var urls := TestUrls(os);
    var rs := ProbeAll(urls, net, parse);
    ProbeAllAt(urls, net, parse, 0);
    assert !rs[1].success;
    SuccessLinesIffAllSucceeded(hasBasicConnectivity, os, rs);
  }

  /** The SSL-configuration guidance appears exactly when some probe failed and
      some error message mentions "SSL" or "certificate". */
  lemma {:induction false} SslGuidanceIff<J>(hasBasicConnectivity: bool, os: string, rs: seq<ProbeResult<J>>)
    ensures RebuildLine in Recommendations(hasBasicConnectivity, os, rs)
            <==> FailureCount(rs) > 0 && exists k :: 0 <= k < |rs| && IsSslError(rs[k])
  {
    CountNone(rs, IsSslError);
  }

  /** The start-the-server guidance appears exactly when some probe failed and
      some error message mentions "rede" or "inacessível". */
  lemma {:induction false} NetworkGuidanceIff<J>(hasBasicConnectivity: bool, os: string, rs: seq<ProbeResult<J>>)
    ensures StartServerLine in Recommendations(hasBasicConnectivity, os, rs)
            <==> FailureCount(rs) > 0 && exists k :: 0 <= k < |rs| && IsNetworkError(rs[k])
  {
    CountNone(rs, IsNetworkError);
  }

  /** The raise-the-timeout guidance appears exactly when some probe failed and
      some error message mentions "Timeout". */
  lemma {:induction false} TimeoutGuidanceIff<J>(hasBasicConnectivity: bool, os: string, rs: seq<ProbeResult<J>>)
    ensures SlowServerLine in Recommendations(hasBasicConnectivity, os, rs)
            <==> FailureCount(rs) > 0 && exists k :: 0 <= k < |rs| && IsTimeoutError(rs[k])
  {
    CountNone(rs, IsTimeoutError);
  }

  /** A fetch probe rejected for its certificate leads the run's report to the
      SSL-configuration guidance. */
  lemma CertificateRejectionYieldsSslGuidance<J>(hasBasicConnectivity: bool, os: string, net: Net<J>, parse: string -> Option<J>, k: nat)
    requires k < |TestUrls(os)|
    requires net.fetch(TestUrls(os)[k]).outcome.Threw?
    requires Classify(net.fetch(TestUrls(os)[k]).outcome.thrown) == Tls
    ensures RebuildLine in Recommendations(hasBasicConnectivity, os, ProbeAll(TestUrls(os), net, parse))
  {
    var urls := TestUrls(os);
    var rs := ProbeAll(urls, net, parse);
    var e := net.fetch(urls[k]).outcome.thrown;
    ProbeAllAt(urls, net, parse, k);
    assert IsSslError(rs[2 * k]) && !rs[2 * k].success;
    FailuresAreFailedRecords(rs);
    SslGuidanceIff(hasBasicConnectivity, os, rs);
  }

  datatype PlatformInfo = PlatformInfo(os: string, version: string)

  datatype Report<J> = Report(
    totalTests: nat,
    successCount: nat,
    failureCount: nat,
    results: seq<ProbeResult<J>>,
    recommendations: seq<string>,
    platformInfo: PlatformInfo)

  /** The pushes that follow the probe sweep in `runDiagnostic`, one line at a time. */
  method AppendRuleLines<J>(recs: seq<string>, os: string, results: seq<ProbeResult<J>>, failureCount: nat)
    returns (out: seq<string>)
    requires failureCount == FailureCount(results)
    ensures out == recs + RuleLines(os, results)
  {
    out := recs;
    if failureCount > 0 {
      out := out + [SslProblemsLine];
      if Count(results, IsSslError) > 0 {
        out := out + [RebuildLine];
        out := out + [PluginLine];
        if os == Android {
          out := out + [AndroidConfigLine];
        } else {
          out := out + [IosConfigLine];
        }
      }
      if Count(results, IsNetworkError) > 0 {
        out := out + [StartServerLine];
        out := out + [RunServerLine];
      }
      if Count(results, IsTimeoutError) > 0 {
        out := out + [SlowServerLine];
        out := out + [RaiseTimeoutLine];
      }
    } else {
      out := out + [AllWorkingLine];
      out := out + [PluginOkLine];
    }
  }

  /** The two `results.push` calls of one loop round: the fetch probe, then the axios probe. */
  method ProbeBoth<J>(results: seq<ProbeResult<J>>, url: string, net: Net<J>, parse: string -> Option<J>)
    returns (out: seq<ProbeResult<J>>)
    ensures out == results + [TestSSLUrl(url, FetchLib, net, parse), TestSSLUrl(url, AxiosLib, net, parse)]
  {
    out := results + [TestSSLUrl(url, FetchLib, net, parse)];
    out := out + [TestSSLUrl(url, AxiosLib, net, parse)];
  }

  /** The hook's state: whether a run is in progress and the last report. */
  class Diagnostic<J> {
    var isRunning: bool
    var report: Option<Report<J>>

    constructor ()
      ensures !isRunning && report == None
    {
      isRunning := false;
      report := None;
    }

    /** `runDiagnostic`: probes every candidate with fetch and then axios,
        counts, derives the recommendations, stores and returns the report. The
        `catch` blocks around each probe are unreachable, since a probe never
        fails outward, and are therefore absent. */
    method RunDiagnostic(hasBasicConnectivity: bool, os: string, version: string, net: Net<J>, parse: string -> Option<J>)
      returns (rep: Report<J>)
      modifies this
      ensures !isRunning && report == Some(rep)
      ensures rep.results == ProbeAll(TestUrls(os), net, parse)
      ensures rep.totalTests == |rep.results|
      ensures rep.successCount == SuccessCount(rep.results)
      ensures rep.failureCount == rep.totalTests - rep.successCount
      ensures rep.recommendations == Recommendations(hasBasicConnectivity, os, rep.results)
      ensures rep.platformInfo == PlatformInfo(os, version)
    {
      isRunning := true;
      var results: seq<ProbeResult<J>> := [];
      var recommendations: seq<string> := [];
      if !hasBasicConnectivity {
        recommendations := recommendations + [NoConnectivityLines[0]];
        recommendations := recommendations + [NoConnectivityLines[1]];
      }
      var urls := GetTestUrls(os);
      var i := 0;
      while i < |urls|
        invariant 0 <= i <= |urls|
        invariant results == ProbeAll(urls[..i], net, parse)
      {
        assert urls[..i + 1][..i] == urls[..i];
        results := ProbeBoth(results, urls[i], net, parse);
        i := i + 1;
      }
      assert urls[..i] == urls;
      var successCount := Count(results, Succeeded);
      var failureCount := |results| - successCount;
      recommendations := AppendRuleLines(recommendations, os, results, failureCount);
      rep := Report(|results|, successCount, failureCount, results, recommendations, PlatformInfo(os, version));
      report := Some(rep);
      isRunning := false;
    }
  }
}

/** `useSimpleSSLDiagnostic`: a fetch-only sweep over the candidate servers, one
    URL at a time, with the live result list growing as each probe settles, and
    the plain-text report with its three-way summary. The network is an oracle
    from URL to outcome and elapsed time. */
module SimpleDiagnostic {
  import opened Text
  import opened Seqs
  import opened Transport
  import D = SSLDiagnostic

  /** The candidate servers, in probe order. */
  function TestUrls(os: string): (urls: seq<string>)
    ensures os == D.Android ==> urls == ["https://10.0.2.2:8443", "https://localhost:8443", "https://127.0.0.1:8443",
                                         "https://192.168.0.18:8443"]
    ensures os != D.Android ==> urls == ["https://localhost:8443", "https://127.0.0.1:8443", "https://192.168.0.18:8443"]
  {
    if os == D.Android then [D.EmulatorUrl] + D.BaseUrls else D.BaseUrls
  }

  /** `getTestUrls`: the base list, with the emulator alias put in front on Android. */
  method GetTestUrls(os: string) returns (urls: seq<string>)
    ensures urls == TestUrls(os)
    ensures forall i, j :: 0 <= i < j < |urls| ==> urls[i] != urls[j]
  {
    urls := D.BaseUrls;
    if os == D.Android {
      urls := [D.EmulatorUrl] + urls;
    }
  }

  /** One probe's record (`SimpleTestResult`). */
  datatype SimpleResult = SimpleResult(url: string, success: bool, error: Option<string>, responseTimeMs: nat, statusCode: Option<nat>)

  /** What fetch met at each URL, and the time measured when the record was built. */
  type SimpleNet = string -> D.Timed<FetchOutcome>

  /** The `catch` chain of `testSingleUrl`: abort, then the network marker, then
      "SSL" or "certificate". */
  function Classify(e: Thrown): (k: FailureKind)
    ensures k in {Timeout, Network, Tls, Unclassified}
    ensures k == Timeout <==> IsAbort(e)
    ensures k == Network <==> !IsAbort(e) && MessageHas(e, "Network request failed")
    ensures k == Tls <==> !IsAbort(e) && !MessageHas(e, "Network request failed")
                          && (MessageHas(e, "SSL") || MessageHas(e, "certificate"))
  {
    if IsAbort(e) then Timeout
    else if MessageHas(e, "Network request failed") then Network
    else if MessageHas(e, "SSL") || MessageHas(e, "certificate") then Tls
    else Unclassified
  }

  const TimeoutText: string := "Timeout (10s)"
  const NetworkText: string := "Falha de rede"
  const TlsText: string := "Erro de certificado SSL"

  /** Each fixed text names its kind: "Timeout", "rede", "SSL". */
  lemma TextsMarked()
    ensures Contains(TimeoutText, "Timeout") && Contains(NetworkText, "rede") && Contains(TlsText, "SSL")
  {
    assert TimeoutText == "Timeout" + " (10s)";
    ContainsAt("Timeout", "Timeout", 0);
    ContainsExtended("", "Timeout", " (10s)", "Timeout");
    assert NetworkText == "Falha de " + "rede";
    ContainsSuffix("Falha de ", "rede");
    assert TlsText == "Erro de certificado " + "SSL";
    ContainsSuffix("Erro de certificado ", "SSL");
  }

  /** The `errorMessage` recorded for a thrown value: an unrecognised `Error`
      keeps its own message, a non-`Error` is "Erro desconhecido", and each
      recognised kind gets a short text that names it. */
  function Describe(e: Thrown): (m: string)
    ensures e.OtherValue? ==> m == "Erro desconhecido"
    ensures e.ErrorObject? && Classify(e) == Unclassified ==> m == e.message
    ensures Classify(e) == Timeout ==> Contains(m, "Timeout")
    ensures Classify(e) == Network ==> Contains(m, "rede")
    ensures Classify(e) == Tls ==> Contains(m, "SSL")
  {
    TextsMarked();
    match e
    case OtherValue => "Erro desconhecido"
    case ErrorObject(_, message) =>
      var k := Classify(e);
      if k == Timeout then TimeoutText
      else if k == Network then NetworkText
      else if k == Tls then TlsText
      else message
  }

  /** `testSingleUrl`: one GET of `url + "/api/test"`, which always yields a
      record. A response gives its status and no error, success meaning 2xx; a
      thrown value gives a failed record with its message and no status. */
  function TestSingleUrl(url: string, net: SimpleNet): (r: SimpleResult)
    ensures r.url == url && r.responseTimeMs == net(url).elapsedMs
    ensures r.success <==> net(url).outcome.Responded? && StatusOk(net(url).outcome.status)
    ensures r.error.Some? <==> r.statusCode.None?
    ensures net(url).outcome.Responded? ==> r.statusCode == Some(net(url).outcome.status)
    ensures net(url).outcome.Threw? ==> r.error == Some(Describe(net(url).outcome.thrown))
  {
    var t := net(url);
    match t.outcome
    case Responded(status, _, _) => SimpleResult(url, StatusOk(status), None, t.elapsedMs, Some(status))
    case Threw(e) => SimpleResult(url, false, Some(Describe(e)), t.elapsedMs, None)
  }

  /** The records of a sweep: one per URL, in URL order. */
  function ProbeAll(urls: seq<string>, net: SimpleNet): (rs: seq<SimpleResult>)
    ensures |rs| == |urls|
    ensures forall k :: 0 <= k < |urls| ==> rs[k] == TestSingleUrl(urls[k], net)
  {
    if urls == [] then []
    else ProbeAll(urls[..|urls| - 1], net) + [TestSingleUrl(urls[|urls| - 1], net)]
  }

  /** The hook's state: whether a run is in progress and the live result list. */
  class Diagnostic {
    var isRunning: bool
    var results: seq<SimpleResult>

    constructor ()
      ensures !isRunning && results == []
    {
      isRunning := false;
      results := [];
    }

    /** `runSimpleDiagnostic`: clears the live list, then probes each URL in
        turn, appending each record both to the returned list and to the live
        list, so that after every step the live list is the prefix of the
        returned records seen so far. */
    method RunSimpleDiagnostic(os: string, net: SimpleNet) returns (testResults: seq<SimpleResult>)
      modifies this
      ensures !isRunning
      ensures testResults == ProbeAll(TestUrls(os), net)
      ensures results == testResults
    {
      isRunning := true;
      results := [];
      var urls := GetTestUrls(os);
      testResults := [];
      var i := 0;
      while i < |urls|
        invariant 0 <= i <= |urls|
        invariant testResults == ProbeAll(urls[..i], net)
        invariant results == testResults
        invariant isRunning
      {
        assert urls[..i + 1][..i] == urls[..i];
        var result := TestSingleUrl(urls[i], net);
        testResults := testResults + [result];
        results := results + [result];
        i := i + 1;
      }
      assert urls[..i] == urls;
      isRunning := false;
    }
  }

  /** The summary branch of the report. */
  datatype Verdict = NoneWorking | SomeFailed | AllWorking

  function VerdictOf(successCount: nat, total: nat): Verdict
  {
    if successCount == 0 then NoneWorking
    else if successCount < total then SomeFailed
    else AllWorking
  }

  predicate Succeeded(r: SimpleResult) { r.success }

  /** With the count of successful records, the verdict says whether no record,
      some but not every record, or every record of a non-empty list succeeded;
      an empty list is treated as a total failure. */
  lemma {:induction false} VerdictByOutcomes(rs: seq<SimpleResult>)
    ensures VerdictOf(Count(rs, Succeeded), |rs|) == NoneWorking <==> forall k :: 0 <= k < |rs| ==> !rs[k].success
    ensures VerdictOf(Count(rs, Succeeded), |rs|) == AllWorking <==> |rs| > 0 && forall k :: 0 <= k < |rs| ==> rs[k].success
    ensures VerdictOf(Count(rs, Succeeded), |rs|) == SomeFailed
            <==> (exists k :: 0 <= k < |rs| && rs[k].success) && (exists k :: 0 <= k < |rs| && !rs[k].success)
  {
    CountNone(rs, Succeeded);
    CountAll(rs, Succeeded);
  }

  const Newline: string := "\n"
  const SolutionsTitle: string := "\n💡 POSSÍVEIS SOLUÇÕES:\n"
  const StartServerStep: string := "1. Verifique se o servidor está rodando: npm run test-server\n"
  const RebuildStep: string := "2. Execute: npx expo prebuild --clean\n"
  const RestartStep: string := "3. Reinicie o app\n"
  const AndroidStep: string := "4. Android: Verifique network_security_config.xml\n"
  const IosStep: string := "4. iOS: Verifique configurações ATS\n"
  const PartialNote: string := "\n💡 Algumas URLs falharam - isso é normal\n"
  const PartialHint: string := "Use a URL que funcionou para seus testes\n"
  const AllNote: string := "\n🎉 Todas as URLs funcionando!\n"
  const AllHint: string := "SSL bypass configurado corretamente\n"

  function PlatformStep(os: string): string
  {
    if os == D.Android then AndroidStep else IosStep
  }

  function Heading(os: string, total: nat): string
  {
    "🔍 DIAGNÓSTICO SSL SIMPLES\n\n" + "📱 Plataforma: " + os + "\n" + "📊 URLs testadas: " + NatToString(total) + "\n\n"
  }

  function LineHead(r: SimpleResult): string
  {
    (if r.success then "✅" else "❌") + " " + r.url + " (" + NatToString(r.responseTimeMs) + "ms)"
  }

  /** The status part, shown when the status code is present and non-zero. */
  function StatusPart(r: SimpleResult): string
  {
    if r.statusCode.Some? && r.statusCode.value != 0 then " - HTTP " + NatToString(r.statusCode.value) else ""
  }

  /** The error part, shown when the error is a non-empty string. */
  function ErrorPart(r: SimpleResult): string
  {
    if r.error.Some? && r.error.value != "" then " - " + r.error.value else ""
  }

  function ResultLine(r: SimpleResult): string
  {
    LineHead(r) + StatusPart(r) + ErrorPart(r) + Newline
  }

  function Lines(rs: seq<SimpleResult>): string
  {
    if rs == [] then "" else Lines(rs[..|rs| - 1]) + ResultLine(rs[|rs| - 1])
  }

  function Advice(os: string, v: Verdict): string
  {
    match v
    case NoneWorking => SolutionsTitle + StartServerStep + RebuildStep + RestartStep + PlatformStep(os)
    case SomeFailed => PartialNote + PartialHint
    case AllWorking => AllNote + AllHint
  }

  function Summary(os: string, rs: seq<SimpleResult>): string
  {
    var s := Count(rs, Succeeded);
    "\n📈 Sucessos: " + NatToString(s) + "/" + NatToString(|rs|) + "\n" + Advice(os, VerdictOf(s, |rs|))
  }

  /** The whole text of a simple report. */
  function ReportText(os: string, rs: seq<SimpleResult>): string
  {
    Heading(os, |rs|) + Lines(rs) + Summary(os, rs)
  }

  /** When both a non-zero status and a non-empty error are set, the line shows both. */
  lemma BothDetailsShown(r: SimpleResult)
    requires r.statusCode.Some? && r.statusCode.value != 0
    requires r.error.Some? && r.error.value != ""
    ensures Contains(ResultLine(r), "HTTP " + NatToString(r.statusCode.value))
    ensures Contains(ResultLine(r), r.error.value)
  {
    var http := "HTTP " + NatToString(r.statusCode.value);
    var err := r.error.value;
    var head := LineHead(r);
    assert StatusPart(r) == " - " + http;
    assert ErrorPart(r) == " - " + err;
    var line := ResultLine(r);
    assert line == head + (" - " + http) + (" - " + err) + Newline;
    ContainsAt(http, http, 0);
    ContainsAt(err, err, 0);
    assert line == (head + " - ") + http + (" - " + err + Newline);
    ContainsExtended(head + " - ", http, " - " + err + Newline, http);
    assert line == (head + (" - " + http) + " - ") + err + Newline;
    ContainsExtended(head + (" - " + http) + " - ", err, Newline, err);
  }

  /** A report in which nothing succeeded, an empty one included, ends with the
      platform's configuration step, preceded by the other three steps. */
  lemma {:induction false} SolutionsEndWithPlatformStep(os: string, rs: seq<SimpleResult>)
    requires forall k :: 0 <= k < |rs| ==> !rs[k].success
    ensures var text := ReportText(os, rs);
            var tail := SolutionsTitle + StartServerStep + RebuildStep + RestartStep + PlatformStep(os);
            |tail| <= |text| && text[|text| - |tail|..] == tail
  {
    VerdictByOutcomes(rs);
    var text := ReportText(os, rs);
    var tail := SolutionsTitle + StartServerStep + RebuildStep + RestartStep + PlatformStep(os);
    var s := Count(rs, Succeeded);
    var pre := Heading(os, |rs|) + Lines(rs) + ("\n📈 Sucessos: " + NatToString(s) + "/" + NatToString(|rs|) + "\n");
    assert Advice(os, VerdictOf(s, |rs|)) == tail;
    assert text == pre + tail;
  }

  /** Appends one record's line, piece by piece. */
  method AppendResultLine(report: string, r: SimpleResult) returns (out: string)
    ensures out == report + ResultLine(r)
  {
    out := report + LineHead(r);
    ghost var head := out;
    if r.statusCode.Some? && r.statusCode.value != 0 {
      out := out + " - HTTP " + NatToString(r.statusCode.value);
    }
    assert out == head + StatusPart(r);
    ghost var withStatus := out;
    if r.error.Some? && r.error.value != "" {
      out := out + " - " + r.error.value;
    }
    assert out == withStatus + ErrorPart(r);
    out := out + Newline;
    AppendAssoc(report, LineHead(r), StatusPart(r));
    AppendAssoc(report, LineHead(r) + StatusPart(r), ErrorPart(r));
    AppendAssoc(report, LineHead(r) + StatusPart(r) + ErrorPart(r), Newline);
  }

  /** Appends the success count and the advice of its branch. */
  method AppendSummary(report: string, os: string, results: seq<SimpleResult>) returns (out: string)
    ensures out == report + Summary(os, results)
  {
    var successCount := Count(results, Succeeded);
    var count := "\n📈 Sucessos: " + NatToString(successCount) + "/" + NatToString(|results|) + "\n";
    out := report + count;
    var advice: string;
    if successCount == 0 {
      advice := SolutionsTitle;
      advice := advice + StartServerStep;
      advice := advice + RebuildStep;
      advice := advice + RestartStep;
      if os == D.Android {
        advice := advice + AndroidStep;
      } else {
        advice := advice + IosStep;
      }
    } else if successCount < |results| {
      advice := PartialNote;
      advice := advice + PartialHint;
    } else {
      advice := AllNote;
      advice := advice + AllHint;
    }
    assert advice == Advice(os, VerdictOf(successCount, |results|));
    AppendAssoc(report, count, advice);
    out := out + advice;
  }

  /** `generateSimpleReport`. */
  method GenerateSimpleReport(os: string, results: seq<SimpleResult>) returns (report: string)
    ensures report == ReportText(os, results)
  {
    report := Heading(os, |results|);
    var i := 0;
    while i < |results|
      invariant 0 <= i <= |results|
      invariant report == Heading(os, |results|) + Lines(results[..i])
    {
      assert results[..i + 1][..i] == results[..i];
      AppendAssoc(Heading(os, |results|), Lines(results[..i]), ResultLine(results[i]));
      report := AppendResultLine(report, results[i]);
      i := i + 1;
    }
    assert results[..i] == results;
    report := AppendSummary(report, os, results);
  }
}

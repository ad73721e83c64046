/** `useSSLDiagnostic`, the report half: `generateReport` renders a report as
    text, with the records grouped by URL in first-seen order (the key order of
    the `urlGroups` object) and in probe order within a group, followed by the
    recommendations one per line. */
module SSLReport {
  import opened Text
  import opened Transport
  import opened SSLDiagnostic

  /** The distinct URLs of the records, in the order they first occur. */
  function UrlOrder<J>(rs: seq<ProbeResult<J>>): seq<string>
  {
    if rs == [] then []
    else
      var front := UrlOrder(rs[..|rs| - 1]);
      var u := rs[|rs| - 1].url;
      if u in front then front else front + [u]
  }

  /** The records for URL `u`, in their original order. */
  function Group<J>(rs: seq<ProbeResult<J>>, u: string): seq<ProbeResult<J>>
  {
    if rs == [] then []
    else Group(rs[..|rs| - 1], u) + (if rs[|rs| - 1].url == u then [rs[|rs| - 1]] else [])
  }

  /** What follows a record's time: its error when that is a non-empty string,
      otherwise its status code when that is present and non-zero, otherwise nothing. */
  function Detail<J>(r: ProbeResult<J>): string
  {
    if r.error.Some? && r.error.value != "" then " - " + r.error.value
    else if r.statusCode.Some? && r.statusCode.value != 0 then " - HTTP " + NatToString(r.statusCode.value)
    else ""
  }

  function ResultLine<J>(r: ProbeResult<J>): string
  {
    "   " + (if r.success then "✅" else "❌") + " " + Upper(r.library)
    + " (" + NatToString(r.responseTimeMs) + "ms)" + Detail(r) + "\n"
  }

  function Lines<J>(g: seq<ProbeResult<J>>): string
  {
    if g == [] then "" else Lines(g[..|g| - 1]) + ResultLine(g[|g| - 1])
  }

  const UrlMark: string := "🌐 "
  const Newline: string := "\n"

  function GroupTitle(u: string): string
  {
    UrlMark + u + Newline
  }

  function GroupText<J>(u: string, g: seq<ProbeResult<J>>): string
  {
    GroupTitle(u) + Lines(g) + Newline
  }

  function GroupsText<J>(keys: seq<string>, rs: seq<ProbeResult<J>>): string
  {
    if keys == [] then ""
    else GroupsText(keys[..|keys| - 1], rs) + GroupText(keys[|keys| - 1], Group(rs, keys[|keys| - 1]))
  }

  function RecommendationLines(recs: seq<string>): string
  {
    if recs == [] then "" else RecommendationLines(recs[..|recs| - 1]) + (recs[|recs| - 1] + Newline)
  }

  function Header<J>(rep: Report<J>): string
  {
    "🔍 RELATÓRIO DE DIAGNÓSTICO SSL\n\n"
    + "📱 Plataforma: " + rep.platformInfo.os + " " + rep.platformInfo.version + "\n"
    + "📊 Testes: " + NatToString(rep.successCount) + "/" + NatToString(rep.totalTests) + " sucessos\n\n"
  }

  const RecommendationsTitle: string := "💡 RECOMENDAÇÕES:\n"

  /** The whole text of a report. */
  function ReportText<J>(rep: Report<J>): string
  {
    Header(rep) + GroupsText(UrlOrder(rep.results), rep.results) + RecommendationsTitle + RecommendationLines(rep.recommendations)
  }

  /** A URL that never occurs has no records. */
  lemma {:induction false} GroupEmptyOutside<J>(rs: seq<ProbeResult<J>>, u: string)
    requires u !in UrlOrder(rs)
    ensures Group(rs, u) == []
  {
    if rs != [] {
      GroupEmptyOutside(rs[..|rs| - 1], u);
    }
  }

  /** Every URL is listed once. */
  lemma {:induction false} UrlOrderDistinct<J>(rs: seq<ProbeResult<J>>)
    ensures forall i, j :: 0 <= i < j < |UrlOrder(rs)| ==> UrlOrder(rs)[i] != UrlOrder(rs)[j]
  {
    if rs != [] {
      UrlOrderDistinct(rs[..|rs| - 1]);
    }
  }

  /** The listed URLs are exactly the URLs of the records. */
  lemma {:induction false} UrlOrderCovers<J>(rs: seq<ProbeResult<J>>, u: string)
    ensures u in UrlOrder(rs) <==> exists k :: 0 <= k < |rs| && rs[k].url == u
  {
    if rs != [] {
      var front := rs[..|rs| - 1];
      UrlOrderCovers(front, u);
      if exists k :: 0 <= k < |front| && front[k].url == u {
        var k :| 0 <= k < |front| && front[k].url == u;
        assert rs[k].url == u;
      }
      if exists k :: 0 <= k < |rs| && rs[k].url == u {
        var k :| 0 <= k < |rs| && rs[k].url == u;
        if k < |front| { assert front[k].url == u; }
      }
    }
  }

  /** Grouping distributes over concatenation: the records of an earlier stretch
      come before those of a later one, so probe order is kept inside a group. */
  lemma {:induction false} GroupAppend<J>(a: seq<ProbeResult<J>>, b: seq<ProbeResult<J>>, u: string)
    ensures Group(a + b, u) == Group(a, u) + Group(b, u)
  {
    if b == [] {
      assert a + b == a;
    } else {
      assert (a + b)[..|a + b| - 1] == a + b[..|b| - 1];
      assert (a + b)[|a + b| - 1] == b[|b| - 1];
      GroupAppend(a, b[..|b| - 1], u);
    }
  }

  /** Every record in a group carries that group's URL. */
  lemma {:induction false} GroupMembers<J>(rs: seq<ProbeResult<J>>, u: string)
    ensures forall k :: 0 <= k < |Group(rs, u)| ==> Group(rs, u)[k].url == u
  {
    if rs != [] {
      GroupMembers(rs[..|rs| - 1], u);
    }
  }

  function GroupedCount<J>(keys: seq<string>, rs: seq<ProbeResult<J>>): nat
  {
    if keys == [] then 0 else GroupedCount(keys[..|keys| - 1], rs) + |Group(rs, keys[|keys| - 1])|
  }

  function Occurrences(keys: seq<string>, u: string): nat
  {
    if keys == [] then 0 else Occurrences(keys[..|keys| - 1], u) + (if keys[|keys| - 1] == u then 1 else 0)
  }

  lemma {:induction false} GroupedCountStep<J>(keys: seq<string>, rs: seq<ProbeResult<J>>, r: ProbeResult<J>)
    ensures GroupedCount(keys, rs + [r]) == GroupedCount(keys, rs) + Occurrences(keys, r.url)
  {
    if keys != [] {
      GroupedCountStep(keys[..|keys| - 1], rs, r);
      assert (rs + [r])[..|rs + [r]| - 1] == rs;
    }
  }

  lemma {:induction false} OccursOnce(keys: seq<string>, u: string)
    requires forall i, j :: 0 <= i < j < |keys| ==> keys[i] != keys[j]
    ensures Occurrences(keys, u) == if u in keys then 1 else 0
  {
    if keys != [] {
      var front := keys[..|keys| - 1];
      OccursOnce(front, u);
      assert keys == front + [keys[|keys| - 1]];
    }
  }

  /** The groups partition the records: their sizes add up to the number of records. */
  lemma {:induction false} GroupsPartition<J>(rs: seq<ProbeResult<J>>)
    ensures GroupedCount(UrlOrder(rs), rs) == |rs|
  {
    if rs != [] {
      var front := rs[..|rs| - 1];
      var r := rs[|rs| - 1];
      var keys := UrlOrder(front);
      GroupsPartition(front);
      assert rs == front + [r];
      UrlOrderDistinct(front);
      if r.url in keys {
        GroupedCountStep(keys, front, r);
        OccursOnce(keys, r.url);
      } else {
        var keys' := keys + [r.url];
        assert keys'[..|keys'| - 1] == keys;
        GroupedCountStep(keys', front, r);
        OccursOnce(keys', r.url);
        GroupEmptyOutside(front, r.url);
      }
    }
  }

  /** Two records for a URL not seen before add that URL once, at the end. */
  lemma PairAddsUrl<J>(xs: seq<ProbeResult<J>>, f: ProbeResult<J>, a: ProbeResult<J>)
    requires f.url == a.url && f.url !in UrlOrder(xs)
    ensures UrlOrder(xs + [f] + [a]) == UrlOrder(xs) + [f.url]
  {
    assert (xs + [f] + [a])[..|xs| + 1] == xs + [f];
    assert (xs + [f])[..|xs|] == xs;
  }

  /** Records that come in pairs, one pair per distinct URL, list the URLs in order. */
  lemma {:induction false} PairedOrder<J>(urls: seq<string>, rs: seq<ProbeResult<J>>)
    requires forall i, j :: 0 <= i < j < |urls| ==> urls[i] != urls[j]
    requires |rs| == 2 * |urls|
    requires forall k :: 0 <= k < |urls| ==> rs[2 * k].url == urls[k] && rs[2 * k + 1].url == urls[k]
    ensures UrlOrder(rs) == urls
  {
    if urls != [] {
      var n := |urls| - 1;
      var front := urls[..n];
      var xs := rs[..2 * n];
      assert forall k :: 0 <= k < |front| ==> xs[2 * k] == rs[2 * k] && xs[2 * k + 1] == rs[2 * k + 1];
      PairedOrder(front, xs);
      assert urls[n] !in front;
      PairAddsUrl(xs, rs[2 * n], rs[2 * n + 1]);
      assert rs == xs + [rs[2 * n]] + [rs[2 * n + 1]];
      assert urls == front + [urls[n]];
    }
  }

  /** For a diagnostic run over distinct URLs, the report lists the URLs in
      probe order. */
  lemma RunOrder<J>(urls: seq<string>, net: Net<J>, parse: string -> Option<J>)
    requires forall i, j :: 0 <= i < j < |urls| ==> urls[i] != urls[j]
    ensures UrlOrder(ProbeAll(urls, net, parse)) == urls
  {
    var rs := ProbeAll(urls, net, parse);
    forall k | 0 <= k < |urls|
      ensures rs[2 * k].url == urls[k] && rs[2 * k + 1].url == urls[k]
    {
      ProbeAllAt(urls, net, parse, k);
    }
    PairedOrder(urls, rs);
  }

  /** In such paired records, each URL's group is its pair. */
  lemma {:induction false} PairedGroup<J>(urls: seq<string>, rs: seq<ProbeResult<J>>, k: nat)
    requires forall i, j :: 0 <= i < j < |urls| ==> urls[i] != urls[j]
    requires |rs| == 2 * |urls|
    requires forall k :: 0 <= k < |urls| ==> rs[2 * k].url == urls[k] && rs[2 * k + 1].url == urls[k]
    requires k < |urls|
    ensures Group(rs, urls[k]) == [rs[2 * k], rs[2 * k + 1]]
  {
    var n := |urls| - 1;
    var front := urls[..n];
    var xs := rs[..2 * n];
    assert forall i :: 0 <= i < |front| ==> xs[2 * i] == rs[2 * i] && xs[2 * i + 1] == rs[2 * i + 1];
    assert rs == xs + [rs[2 * n]] + [rs[2 * n + 1]];
    assert (xs + [rs[2 * n]])[..2 * n] == xs;
    if k == n {
      PairedOrder(front, xs);
      assert urls[n] !in front;
      GroupEmptyOutside(xs, urls[n]);
    } else {
      assert urls[k] == front[k] && urls[k] != urls[n];
      PairedGroup(front, xs, k);
    }
  }

  /** ... and each URL's block holds its fetch probe and then its axios probe. */
  lemma RunGroup<J>(urls: seq<string>, k: nat, net: Net<J>, parse: string -> Option<J>)
    requires forall i, j :: 0 <= i < j < |urls| ==> urls[i] != urls[j]
    requires k < |urls|
    ensures Group(ProbeAll(urls, net, parse), urls[k])
            == [TestSSLUrl(urls[k], FetchLib, net, parse), TestSSLUrl(urls[k], AxiosLib, net, parse)]
  {
    var rs := ProbeAll(urls, net, parse);
    forall i | 0 <= i < |urls|
      ensures rs[2 * i].url == urls[i] && rs[2 * i + 1].url == urls[i]
    {
      ProbeAllAt(urls, net, parse, i);
    }
    PairedGroup(urls, rs, k);
    ProbeAllAt(urls, net, parse, k);
  }

  /** The `reduce` of `generateReport`: the group of every URL seen, and the
      order in which the URLs were first added as keys. */
  method CollectGroups<J>(rs: seq<ProbeResult<J>>) returns (keys: seq<string>, groups: map<string, seq<ProbeResult<J>>>)
    ensures keys == UrlOrder(rs)
    ensures forall u :: u in groups <==> u in keys
    ensures forall u :: u in groups ==> groups[u] == Group(rs, u)
  {
    keys := [];
    groups := map[];
    var i := 0;
    while i < |rs|
      invariant 0 <= i <= |rs|
      invariant keys == UrlOrder(rs[..i])
      invariant forall u :: u in groups <==> u in keys
      invariant forall u :: u in groups ==> groups[u] == Group(rs[..i], u)
    {
      var r := rs[i];
      assert rs[..i + 1][..i] == rs[..i];
      if r.url !in groups {
        GroupEmptyOutside(rs[..i], r.url);
        groups := groups[r.url := []];
        keys := keys + [r.url];
      }
      groups := groups[r.url := groups[r.url] + [r]];
      i := i + 1;
    }
    assert rs[..i] == rs;
  }

  /** The body of the outer `forEach`: one group's block. */
  method AppendGroup<J>(output: string, u: string, g: seq<ProbeResult<J>>) returns (out: string)
    ensures out == output + GroupText(u, g)
  {
    out := output + GroupTitle(u);
    ghost var title := out;
    var j := 0;
    while j < |g|
      invariant 0 <= j <= |g|
      invariant out == title + Lines(g[..j])
    {
      assert g[..j + 1][..j] == g[..j];
      AppendAssoc(title, Lines(g[..j]), ResultLine(g[j]));
      out := out + ResultLine(g[j]);
      j := j + 1;
    }
    assert g[..j] == g;
    AppendAssoc(output, GroupTitle(u), Lines(g));
    AppendAssoc(output, GroupTitle(u) + Lines(g), Newline);
    out := out + Newline;
  }

  /** The three header lines of `generateReport`, written piecewise; the result
      is exactly `Header(rep)`. */
  method WriteHeader<J>(rep: Report<J>) returns (output: string)
    ensures output == Header(rep)
  {
    output := "🔍 RELATÓRIO DE DIAGNÓSTICO SSL\n\n";
    output := output + "📱 Plataforma: " + rep.platformInfo.os + " " + rep.platformInfo.version + "\n";
    output := output + "📊 Testes: " + NatToString(rep.successCount) + "/" + NatToString(rep.totalTests) + " sucessos\n\n";
  }

  /** The outer `forEach` over the keys: each group's block in key order. */
  method AppendGroups<J>(head: string, rs: seq<ProbeResult<J>>) returns (output: string)
    ensures output == head + GroupsText(UrlOrder(rs), rs)
  {
    output := head;
    var keys, groups := CollectGroups(rs);
    var k := 0;
    while k < |keys|
      invariant 0 <= k <= |keys|
      invariant output == head + GroupsText(keys[..k], rs)
    {
      assert keys[..k + 1][..k] == keys[..k];
      AppendAssoc(head, GroupsText(keys[..k], rs), GroupText(keys[k], Group(rs, keys[k])));
      output := AppendGroup(output, keys[k], groups[keys[k]]);
      k := k + 1;
    }
    assert keys[..k] == keys;
  }

  /** The recommendations, one per line. */
  method AppendRecommendations(body: string, recs: seq<string>) returns (output: string)
    ensures output == body + RecommendationLines(recs)
  {
    output := body;
    var n := 0;
    while n < |recs|
      invariant 0 <= n <= |recs|
      invariant output == body + RecommendationLines(recs[..n])
    {
      assert recs[..n + 1][..n] == recs[..n];
      AppendAssoc(body, RecommendationLines(recs[..n]), recs[n] + Newline);
      output := output + (recs[n] + Newline);
      n := n + 1;
    }
    assert recs[..n] == recs;
  }

  /** `generateReport`: the header, each group's block in key order, then the
      recommendations one per line. */
  method GenerateReport<J>(rep: Report<J>) returns (output: string)
    ensures output == ReportText(rep)
  {
    output := WriteHeader(rep);
    output := AppendGroups(output, rep.results);
    output := AppendRecommendations(output + RecommendationsTitle, rep.recommendations);
  }
}

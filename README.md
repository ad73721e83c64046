# SSL demo app: request hooks, diagnostics and test server in Dafny

This project models the decision and aggregation logic of a React Native demo
app. The app checks HTTPS connections to a development server that uses a
self-signed certificate. The model has three parts.

- **Three request hooks.** `useSSLRequest` uses the platform's native `fetch`.
  `useCrossFetch` uses the `cross-fetch` polyfill. `useAxiosSSLRequest` uses a
  shared axios instance. Each hook fills in default options, merges headers
  (the caller's values win) and attaches a body only for a truthy payload on a
  non-GET method. The two fetch hooks decode a response body as JSON, or keep
  it as raw text when it is not JSON, and turn a thrown error into a message
  chosen by an ordered chain of substring tests. The axios hook copies the data
  axios already decoded, and turns an error into one of three messages,
  chosen by whether the error carries a response, else a request, else
  neither.
- **Two diagnostics.** `useSSLDiagnostic` probes every candidate server with
  fetch and then with axios. It counts successes and failures, derives
  rule-based recommendations, and renders a report grouped by URL.
  `useSimpleSSLDiagnostic` is a fetch-only sweep. It keeps a live result list
  and writes a short report with a three-way summary.
- **The HTTPS test server's request handler.** It sets CORS headers, answers
  preflights, routes `GET /api/test` and `POST /api/users`, and echoes a 404
  for everything else.

The network is an input. For the two fetch hooks and the diagnostics' fetch
probes, a transport's outcome is either a response (status, headers, body
text) or a thrown value (`name` and `message`). For the axios hook it is a
response (status, status text, headers and the data axios already decoded),
an error that carries a request but no response, or an error raised while
setting the request up, the last two with a message only. For the full
diagnostic's axios probe it is an answer (status, status text, decoded data),
a thrown value without a response, or the `axios` module failing to load. In
the diagnostics, the network is a function from URL to outcome
and elapsed milliseconds. JSON is abstract: `JSON.parse` is a partial function
`string -> Option<J>` and `JSON.stringify` is a total function `J -> string`,
both passed in by the caller. Platform name and version, and the outcome of
the basic-connectivity check, are parameters.

Files:
- `text.dfy` holds string helpers: substring search, decimal rendering, ASCII
  case mapping and counting.
- `transport.dfy` holds the vocabulary the hooks share.
- `ssl_request.dfy`, `cross_fetch.dfy` and `axios_request.dfy` hold one hook each.
- `ssl_diagnostic.dfy` holds the runner and `ssl_report.dfy` the report renderer.
- `simple_diagnostic.dfy` holds the simple diagnostic.
- `test_server.dfy` holds the server handler.
- `comparisons.dfy` holds facts that relate the variants to each other.

Where the code works by changing state, the model does too. The two
diagnostics' hook state and the server's response object are classes. The
loops that build the probe results, the reports and the request body are
methods with loop invariants. The recommendations are built by a fixed
sequence of conditional pushes, which is a straight-line method. Each method
is proved equal to a specification function, and the lemmas state properties
of those functions.

Some behaviours of the code are easy to misread; the model follows the code:
- Each line of the full report shows the error when it is a non-empty string.
  Otherwise it shows the status when that is present and non-zero. An empty
  error string is therefore not shown.
- Each line of the simple report shows the status and then the error, and
  shows both when both are set.
- The two "no connectivity" lines are added whenever the basic-connectivity
  check fails. They do not depend on how many probes succeeded.
- The recommendation rules are not independent. The "SSL problems" line and
  the three guidance blocks appear only when some probe failed. The two
  success lines appear only when none failed.
- The native-fetch hook recognises a TLS failure only by the marker "SSL".
  Cross-fetch and both diagnostics also accept "certificate". The axios hook
  does no substring classification at all.

## Model

| member | source | states |
|---|---|---|
| Transport.MergeHeaders | hooks/ssl/useSSLRequest.ts:38-43 | Every key of the defaults or the caller is present; the caller's value wins on a collision; a default survives where the caller is silent |
| Transport.OutgoingBody | hooks/ssl/useSSLRequest.ts:46-48 | A body is attached iff it is truthy and the method is not GET; a string is sent verbatim, anything else through `JSON.stringify` |
| Transport.Decode | hooks/ssl/useSSLRequest.ts:55-62 | Decoding never fails: the parsed value when the text parses, the text itself exactly when it does not |
| Transport.Settle | hooks/ssl/useSSLRequest.ts:50-69 | Any response, whatever its status, succeeds with its status and headers copied and its body decoded; a thrown value fails with the hook's message for it |
| SSLRequest.Classify | hooks/ssl/useSSLRequest.ts:73-80 | The catch chain as an ordered case split: abort, else "Network request failed", else "SSL" (no "certificate"), else unclassified |
| SSLRequest.TimeoutNamesTimeoutAndUrl | hooks/ssl/useSSLRequest.ts:74-75 | The timeout message contains both the URL and the timeout in decimal |
| SSLRequest.FailureMessage | hooks/ssl/useSSLRequest.ts:73-83 | Every recognised failure (timeout, network, SSL) names the URL; an unrecognised Error gives "Fetch falhou: " followed by its own message; any other thrown value gives "Fetch falhou: Erro desconhecido" |
| SSLRequest.MakeRequest | hooks/ssl/useSSLRequest.ts:18-84 | Method defaults to GET and timeout to 30000; headers merged over Content-Type and Accept; body by the attach rule; the result settles the transport's outcome with this hook's messages |
| SSLRequest.Get | hooks/ssl/useSSLRequest.ts:87-88 | GET with no body, default timeout, merged headers |
| SSLRequest.Post | hooks/ssl/useSSLRequest.ts:90-91 | POST whose body is sent iff it is truthy |
| SSLRequest.Put | hooks/ssl/useSSLRequest.ts:93-94 | PUT whose body is sent iff it is truthy |
| SSLRequest.Delete | hooks/ssl/useSSLRequest.ts:96-97 | DELETE with no body |
| CrossFetch.Classify | hooks/ssl/useCrossFetch.ts:85-96 | Six-way ordered chain: abort, network, "SSL" or "certificate", ECONNREFUSED, ETIMEDOUT, unclassified, each as an iff |
| CrossFetch.TimeoutNamesTimeoutAndUrl | hooks/ssl/useCrossFetch.ts:86-87 | The timeout message contains both the URL and the timeout |
| CrossFetch.FailureMessage | hooks/ssl/useCrossFetch.ts:85-99 | Every recognised failure (timeout, network, certificate, refused, connect timeout) names the URL; an unrecognised Error gives "CrossFetch falhou: " followed by its own message; any other thrown value gives "CrossFetch falhou: Erro desconhecido" |
| CrossFetch.MakeRequest | hooks/ssl/useCrossFetch.ts:29-100 | As the native hook, with the User-Agent default header and its own messages |
| CrossFetch.Get | hooks/ssl/useCrossFetch.ts:103-104 | GET with no body |
| CrossFetch.Post | hooks/ssl/useCrossFetch.ts:106-107 | POST whose body is sent iff it is truthy |
| CrossFetch.Put | hooks/ssl/useCrossFetch.ts:109-110 | PUT whose body is sent iff it is truthy |
| CrossFetch.Delete | hooks/ssl/useCrossFetch.ts:112-113 | DELETE with no body |
| AxiosRequest.Configure | hooks/ssl/useAxiosSSLRequest.ts:83-101 | URL kept; method lower-cased; timeout defaults to 10000; headers merged over Content-Type; data set iff truthy and not GET, and then passed through unchanged |
| AxiosRequest.Settle | hooks/ssl/useAxiosSSLRequest.ts:103-122 | An accepted response is copied field by field; otherwise exactly one of three messages, by response, else request, else neither |
| AxiosRequest.RejectionShowsStatus | hooks/ssl/useAxiosSSLRequest.ts:111-114 | The message for a rejected status contains the status in decimal and its status text |
| AxiosRequest.MakeRequest | hooks/ssl/useAxiosSSLRequest.ts:82-123 | The config is the one `Configure` builds and the result the one `Settle` gives: URL, merged headers, default timeout 10000 and the lower-cased method go out, with data iff truthy and not GET; the call resolves iff a response with a status below 600 came back, copying data, status, headers and status text; a rejected status keeps the status and its text in the message; an error with a request but no response gives "Axios Network error: " and one raised in setup "Axios Request setup error: ", each followed by the underlying message |
| AxiosRequest.EveryHttpStatusResolves | hooks/ssl/useAxiosSSLRequest.ts:37 | Every status below 600 resolves as a response, never as an error |
| AxiosRequest.LowerCaseVerbs | hooks/ssl/useAxiosSSLRequest.ts:94 | The five methods reach axios as "get", "post", "put", "delete", "patch" |
| AxiosRequest.Get | hooks/ssl/useAxiosSSLRequest.ts:125-126 | Method "get", no data |
| AxiosRequest.Post | hooks/ssl/useAxiosSSLRequest.ts:128-129 | Method "post", data iff truthy |
| AxiosRequest.Put | hooks/ssl/useAxiosSSLRequest.ts:131-132 | Method "put", data iff truthy |
| AxiosRequest.Delete | hooks/ssl/useAxiosSSLRequest.ts:134-135 | Method "delete", no data |
| AxiosRequest.Patch | hooks/ssl/useAxiosSSLRequest.ts:137-138 | Method "patch", data iff truthy |
| SSLDiagnostic.TestUrls | hooks/ssl/useSSLDiagnostic.ts:31-44 | Exactly the five Android URLs in order, or the three base URLs elsewhere |
| SSLDiagnostic.GetTestUrls | hooks/ssl/useSSLDiagnostic.ts:31-44 | The unshift/push construction yields that list, and its URLs are distinct |
| SSLDiagnostic.Classify | hooks/ssl/useSSLDiagnostic.ts:164-179 | The six-way ordered chain, each kind as an iff over the markers |
| SSLDiagnostic.Describe | hooks/ssl/useSSLDiagnostic.ts:164-179 | An unrecognised Error keeps its own message and a non-Error gives "Erro desconhecido"; the TLS text says "SSL", the abort and connect-timeout texts say "Timeout", the network text says "rede", which are the markers the recommendation rules look for |
| SSLDiagnostic.AxiosMissingDescribed | hooks/ssl/useSSLDiagnostic.ts:124-128 | The missing-axios error matches no marker, so its record keeps "Axios não está disponível" |
| SSLDiagnostic.TestSSLUrl | hooks/ssl/useSSLDiagnostic.ts:71-189 | A probe never fails outward: URL, library and elapsed time kept. Fetch succeeds iff the response is 2xx; any response gives its status, no error and the decoded body. Axios succeeds iff answered below 400; an answer below 600 gives its status, no error and the data; an answer of 600 or more gives "HTTP n: text" with the status; a missing axios gives "Axios não está disponível" with no status. A thrown value gives a failed record with its described message and no status |
| SSLDiagnostic.ProbeAll | hooks/ssl/useSSLDiagnostic.ts:209-236 | A sweep yields exactly two records per URL |
| SSLDiagnostic.ProbeAllAt | hooks/ssl/useSSLDiagnostic.ts:209-236 | Record 2k is the fetch probe of URL k and record 2k+1 its axios probe |
| SSLDiagnostic.FailuresAreFailedRecords | hooks/ssl/useSSLDiagnostic.ts:238-239 | The failure count is the number of failed records, and is positive iff some record failed |
| SSLDiagnostic.ConnectivityLinesFirst | hooks/ssl/useSSLDiagnostic.ts:201-205 | The two warning lines open the list iff basic connectivity failed |
| SSLDiagnostic.ProblemLineIffFailure | hooks/ssl/useSSLDiagnostic.ts:242-243 | Right after the warnings comes the SSL-problem line iff some probe failed |
| SSLDiagnostic.SuccessLinesIffAllSucceeded | hooks/ssl/useSSLDiagnostic.ts:267-270 | The success lines appear iff every probe succeeded |
| SSLDiagnostic.AxiosMissingBlocksAllWorking | hooks/ssl/useSSLDiagnostic.ts:124-128 | When the `axios` module cannot be loaded, every axios probe still adds a failed record (despite the comment at lines 233-234 that no result is added), so the run never shows the all-working lines |
| SSLDiagnostic.SslGuidanceIff | hooks/ssl/useSSLDiagnostic.ts:245-254 | SSL guidance appears iff some probe failed and some error mentions "SSL" or "certificate" |
| SSLDiagnostic.NetworkGuidanceIff | hooks/ssl/useSSLDiagnostic.ts:256-260 | Start-the-server guidance appears iff some probe failed and some error mentions "rede" or "inacessível" |
| SSLDiagnostic.TimeoutGuidanceIff | hooks/ssl/useSSLDiagnostic.ts:262-266 | Timeout guidance appears iff some probe failed and some error mentions "Timeout" |
| SSLDiagnostic.CertificateRejectionYieldsSslGuidance | hooks/ssl/useSSLDiagnostic.ts:245-254 | A fetch probe rejected for its certificate makes the run recommend the SSL configuration steps |
| SSLDiagnostic.AppendRuleLines | hooks/ssl/useSSLDiagnostic.ts:242-270 | The pushes append exactly the rule lines, in the fixed order |
| SSLDiagnostic.ProbeBoth | hooks/ssl/useSSLDiagnostic.ts:210-230 | One loop round appends the URL's fetch probe and then its axios probe |
| SSLDiagnostic.Diagnostic.RunDiagnostic | hooks/ssl/useSSLDiagnostic.ts:192-291 | The report holds the sweep's records; total, success and failure counts add up; the recommendations follow the rules; the report is stored and the running flag is cleared |
| SSLReport.UrlOrderDistinct | hooks/ssl/useSSLDiagnostic.ts:301-305 | Each URL heads one group only |
| SSLReport.UrlOrderCovers | hooks/ssl/useSSLDiagnostic.ts:301-305 | The group keys are exactly the URLs of the records |
| SSLReport.GroupAppend | hooks/ssl/useSSLDiagnostic.ts:302-303 | Grouping distributes over concatenation, so probe order is kept within a group |
| SSLReport.GroupMembers | hooks/ssl/useSSLDiagnostic.ts:301-305 | Every record in a group has that group's URL |
| SSLReport.GroupsPartition | hooks/ssl/useSSLDiagnostic.ts:301-307 | The group sizes add up to the number of records |
| SSLReport.PairedOrder | hooks/ssl/useSSLDiagnostic.ts:301-305 | Records that come in pairs, one pair per distinct URL, are grouped in URL order |
| SSLReport.PairedGroup | hooks/ssl/useSSLDiagnostic.ts:301-305 | In such records, each URL's group is exactly its pair |
| SSLReport.RunOrder | hooks/ssl/useSSLDiagnostic.ts:301-307 | For a run over distinct URLs, the groups follow the probe order of the URLs |
| SSLReport.RunGroup | hooks/ssl/useSSLDiagnostic.ts:301-305 | For such a run, each URL's group is its fetch probe followed by its axios probe |
| SSLReport.CollectGroups | hooks/ssl/useSSLDiagnostic.ts:301-305 | The `reduce` yields the first-seen URL order and, for each URL, its records in order |
| SSLReport.AppendGroup | hooks/ssl/useSSLDiagnostic.ts:307-321 | Appends the URL title, one line per record and a blank line |
| SSLReport.WriteHeader | hooks/ssl/useSSLDiagnostic.ts:295-298 | The three header lines give the report's header text |
| SSLReport.AppendGroups | hooks/ssl/useSSLDiagnostic.ts:307-321 | The outer `forEach` appends every group's block in first-seen URL order |
| SSLReport.AppendRecommendations | hooks/ssl/useSSLDiagnostic.ts:323-328 | The recommendations are appended one per line, in order |
| SSLReport.GenerateReport | hooks/ssl/useSSLDiagnostic.ts:294-331 | The text is the header, the groups in first-seen order, and the recommendations one per line |
| SimpleDiagnostic.TestUrls | hooks/ssl/useSimpleSSLDiagnostic.ts:16-28 | Exactly the four Android URLs in order, or the last three elsewhere |
| SimpleDiagnostic.GetTestUrls | hooks/ssl/useSimpleSSLDiagnostic.ts:16-28 | The unshift construction yields that list, with distinct URLs |
| SimpleDiagnostic.Classify | hooks/ssl/useSimpleSSLDiagnostic.ts:66-77 | Four-way ordered chain: abort, network, "SSL" or "certificate", unclassified |
| SimpleDiagnostic.Describe | hooks/ssl/useSimpleSSLDiagnostic.ts:66-77 | An unrecognised Error keeps its own message and a non-Error gives "Erro desconhecido"; the timeout text says "Timeout", the network text "rede", the TLS text "SSL" |
| SimpleDiagnostic.TestSingleUrl | hooks/ssl/useSimpleSSLDiagnostic.ts:30-86 | Never fails outward; success iff 2xx; the record carries an error exactly when it carries no status code |
| SimpleDiagnostic.ProbeAll | hooks/ssl/useSimpleSSLDiagnostic.ts:98-102 | One record per URL, record k being the probe of URL k |
| SimpleDiagnostic.Diagnostic.RunSimpleDiagnostic | hooks/ssl/useSimpleSSLDiagnostic.ts:88-112 | Clears the live list, appends one record per URL in order, keeps the live list equal to the records so far, and ends with the running flag cleared |
| SimpleDiagnostic.VerdictByOutcomes | hooks/ssl/useSimpleSSLDiagnostic.ts:137-157 | The summary branch is determined by the outcomes: none succeeded (an empty list included), some but not all, or all of a non-empty list; the three are exclusive |
| SimpleDiagnostic.BothDetailsShown | hooks/ssl/useSimpleSSLDiagnostic.ts:124-134 | A line shows both the status and the error when both are set |
| SimpleDiagnostic.SolutionsEndWithPlatformStep | hooks/ssl/useSimpleSSLDiagnostic.ts:140-150 | With no success the report ends with the four solution steps, the fourth chosen by platform |
| SimpleDiagnostic.AppendResultLine | hooks/ssl/useSimpleSSLDiagnostic.ts:120-135 | The piecewise `+=` yields the record's line |
| SimpleDiagnostic.AppendSummary | hooks/ssl/useSimpleSSLDiagnostic.ts:137-157 | Appends the success count and the advice of its branch |
| SimpleDiagnostic.GenerateSimpleReport | hooks/ssl/useSimpleSSLDiagnostic.ts:114-160 | The text is the heading, one line per record in order, and the summary |
| TestServer.ApiTestLibrary | test-server/server.js:34-36 | The library is "Axios" iff the user agent contains lower-case "axios"; a missing header counts as empty |
| TestServer.CreateUser | test-server/server.js:60-83 | 200 iff the body parses and reading its name does not throw, with the user echoed; 400 Invalid JSON otherwise; library "Axios" iff the name contains "Axios" |
| TestServer.Route | test-server/server.js:20-92 | OPTIONS gets 200 and an empty body before routing; exact GET /api/test and POST /api/users are served; anything else gets 404 echoing URL and method |
| TestServer.StatusesKnown | test-server/server.js:20-92 | Only 200, 400 and 404 are sent, and 400 only to POST /api/users |
| TestServer.QueryStringIsNotFound | test-server/server.js:33 | A query string or any other suffix on either path leads to the 404 echo |
| TestServer.ConcatSplit | test-server/server.js:55-58 | Body accumulation keeps arrival order across any split of the chunks |
| TestServer.AccumulateBody | test-server/server.js:55-58 | The `data` loop yields the concatenation of the chunks |
| TestServer.SetCorsHeaders | test-server/server.js:16-18 | Adds the three CORS headers and nothing else |
| TestServer.Dispatch | test-server/server.js:31-92 | The routed branch writes the status and body of the routing decision |
| TestServer.Handle | test-server/server.js:14-93 | Status and payload are the routing decision; whatever the route, each of the three CORS headers ends up with its value, and Content-Type is set on every non-OPTIONS response |
| Comparisons.CrossFetchSortsLikeDiagnostic | hooks/ssl/useCrossFetch.ts:85-96 | The cross-fetch chain and the full diagnostic's chain sort every thrown value the same way |
| Comparisons.NativeKindsKeptByCrossFetch | hooks/ssl/useSSLRequest.ts:73-80 | Whatever the native hook recognises, cross-fetch recognises as the same kind |
| Comparisons.SimpleSortsLikeDiagnostic | hooks/ssl/useSimpleSSLDiagnostic.ts:66-77 | The simple diagnostic agrees with the full one except that refused and connect-timeout messages stay unclassified |
| Comparisons.CertificateOnlyMessagesPart | hooks/ssl/useSSLRequest.ts:78-83 | Any error that says "certificate" but not "SSL" (and is no abort or network failure) is generic for the native hook, with its raw message, but a certificate error naming the URL for cross-fetch |
| Comparisons.CertificateExpiredParts | hooks/ssl/useSSLRequest.ts:78-83 | "certificate has expired" is such an error |
| Comparisons.CrossFetchHeadersExtendNative | hooks/ssl/useCrossFetch.ts:49-54 | Cross-fetch sends the native defaults plus User-Agent, which the caller can still override |
| Comparisons.ServerAnswersCountAsSuccess | test-server/server.js:33-38 | The server's answer to GET /api/test counts as a success for the simple probe and for both full-diagnostic probes |

## Left out

- Network calls (`fetch`, `cross-fetch` and axios) are not modelled, nor are the module-level `require` fallbacks of `useCrossFetch.ts` (lines 4-12, falling back to the native `fetch`) and `useAxiosSSLRequest.ts` (lines 4-9). Their outcome, and the elapsed time `Date.now() - startTime`, are inputs.
- The `AbortController` and `setTimeout` timers are not modelled. A timeout is the `AbortError` outcome of the transport. A zero timeout failing at once cannot be stated without a clock.
- `testBasicConnectivity` is a boolean input. `Platform.OS` and `Platform.Version` are string parameters.
- `JSON.parse` and `JSON.stringify` are abstract functions passed in, not a JSON grammar. JavaScript truthiness of a non-string body is part of the input (`Body.Value`).
- Response headers are taken as a finished map. `Object.fromEntries(response.headers.entries())` is not modelled.
- AxiosRequest.MakeRequest: the axios instance's own defaults are not modelled. These are the Accept and User-Agent headers, the 30000 timeout that every call overrides, and `maxRedirects`. axios merges them internally. The model states only the config the hook builds.
- The axios interceptors and all `console` logging are left out. They only log.
- Upper and lower case mapping covers ASCII letters only. Library names and HTTP methods are ASCII.
- SSLReport.CollectGroups: `Object.entries` lists integer-like keys before other keys. The model keeps plain insertion order. URLs are never integer-like.
- SSLReport.CollectGroups: the source groups into a `{}` literal. For a URL that names an `Object.prototype` member (`"constructor"`, `"toString"`, `"__proto__"`), `groups[url]` is already set and `push` throws a TypeError. The model groups such a URL like any other. The report only ever receives the diagnostic's own records, whose URLs are the fixed candidate list.
- SSLDiagnostic.Diagnostic.RunDiagnostic: the `catch` blocks around each probe are not modelled. `testSSLUrl` never rejects, so they cannot run.
- SimpleDiagnostic.Diagnostic.RunSimpleDiagnostic: the `catch`/`finally` path is not modelled. Nothing in the modelled loop throws. The running flag is cleared on the one exit there is.
- React state is not modelled. `useState`, `useCallback` and `useMemo` become plain class fields. The functional update `setResults(prev => [...prev, result])` is an append to the field.
- TestServer.Route: the `GET /api/test` reply keeps only the library tag. The echoed request headers (`user-agent`, `content-type`), the `message` text (which names the same library), the constant `method` and `ssl_info` fields and the timestamp are left out.
- TestServer.CreateUser: the reply body leaves out the random id (`Math.random`) and the timestamps. The server's TLS setup, certificate reads and `listen` are left out too.
- TestServer.AccumulateBody: the chunks are strings. The server decodes each `Buffer` chunk on its own with `chunk.toString()`, so a multi-byte UTF-8 character split across two chunks comes out as replacement characters. The model does not capture this.
- TestServer.NameLookup: what `userData.name?.includes('Axios')` meets is an input. The model does not derive it from a JSON value.
- The UI's "first working URL wins" fallback lives in `app/(tabs)/index.tsx`, which is not part of this model. So do the SSL-bypass build plugin and the test client script.

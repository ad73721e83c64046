/** The HTTPS test server's request handler: three CORS headers on every
    response, a bare 200 for any `OPTIONS` preflight, `GET /api/test` and
    `POST /api/users` with the calling library guessed from the request, and a
    404 echo for everything else. TLS, the listening socket, timestamps and
    random ids are not modelled. */
module TestServer {
  import opened Text
  import opened Transport

  const Axios: string := "Axios"
  const Fetch: string := "Fetch"

  /** What `userData.name?.includes('Axios')` meets in the parsed body: reading
      `name` or calling `includes` throws (a `null` body, a `name` without an
      `includes` method), `name` is null or undefined, `name` is a string, or
      `name` is another value whose `includes` answered. */
  datatype NameLookup = Throws | Nullish | Name(text: string) | Other(includesAxios: bool)

  /** The JSON payload the handler sends, without its timestamp and random id. */
  datatype ReplyBody<J> =
    | Empty
    | ApiTest(library: string)
    | UserCreated(user: J, library: string)
    | InvalidJson
    | NotFound(url: string, verb: string)

  datatype Reply<J> = Reply(status: nat, body: ReplyBody<J>)

  /** `userAgent.includes('axios')`, a missing header read as the empty string. */
  function ApiTestLibrary(userAgent: Option<string>): (lib: string)
    ensures lib == Axios <==> Contains(userAgent.GetOr(""), "axios")
    ensures lib == Axios || lib == Fetch
  {
    if Contains(userAgent.GetOr(""), "axios") then Axios else Fetch
  }

  /** The `end` handler of `POST /api/users`: an unparsable body, or one whose
      `name` lookup throws, is answered 400 `Invalid JSON`; otherwise 200 with the
      user echoed and the library "Axios" iff the name contains "Axios". */
  function CreateUser<J>(body: string, parse: string -> Option<J>, nameOf: J -> NameLookup): (r: Reply<J>)
    ensures r.status == 200 <==> parse(body).Some? && nameOf(parse(body).value) != Throws
    ensures r.status != 200 ==> r == Reply(400, InvalidJson)
    ensures r.status == 200 ==> r.body.UserCreated? && r.body.user == parse(body).value
    ensures r.status == 200 ==>
              (r.body.library == Axios <==>
                 match nameOf(parse(body).value)
                 case Name(s) => Contains(s, "Axios")
                 case Other(b) => b
                 case _ => false)
  {
    match parse(body)
    case None => Reply(400, InvalidJson)
    case Some(user) =>
      match nameOf(user)
      case Throws => Reply(400, InvalidJson)
      case Nullish => Reply(200, UserCreated(user, Fetch))
      case Name(s) => Reply(200, UserCreated(user, if Contains(s, "Axios") then Axios else Fetch))
      case Other(b) => Reply(200, UserCreated(user, if b then Axios else Fetch))
  }

  /** The routing decision of the handler, on the exact method and URL strings. */
  function Route<J>(verb: string, url: string, userAgent: Option<string>, body: string,
                    parse: string -> Option<J>, nameOf: J -> NameLookup): (r: Reply<J>)
    ensures verb == "OPTIONS" ==> r == Reply(200, Empty)
    ensures verb != "OPTIONS" && url == "/api/test" && verb == "GET" ==>
              r == Reply(200, ApiTest(ApiTestLibrary(userAgent)))
    ensures verb != "OPTIONS" && url == "/api/users" && verb == "POST" ==> r == CreateUser(body, parse, nameOf)
    ensures verb != "OPTIONS" && !(url == "/api/test" && verb == "GET") && !(url == "/api/users" && verb == "POST") ==>
              r == Reply(404, NotFound(url, verb))
  {
    if verb == "OPTIONS" then Reply(200, Empty)
    else if url == "/api/test" && verb == "GET" then Reply(200, ApiTest(ApiTestLibrary(userAgent)))
    else if url == "/api/users" && verb == "POST" then CreateUser(body, parse, nameOf)
    else Reply(404, NotFound(url, verb))
  }

  /** The handler only ever answers 200, 400 or 404, and 400 only to `POST /api/users`. */
  lemma StatusesKnown<J>(verb: string, url: string, userAgent: Option<string>, body: string,
                         parse: string -> Option<J>, nameOf: J -> NameLookup)
    ensures Route(verb, url, userAgent, body, parse, nameOf).status in {200, 400, 404}
    ensures Route(verb, url, userAgent, body, parse, nameOf).status == 400 ==> verb == "POST" && url == "/api/users"
  {
  }

  /** Routing matches the whole URL: a query string or a trailing slash leads to
      the 404 echo. */
  lemma QueryStringIsNotFound<J>(verb: string, path: string, suffix: string, userAgent: Option<string>, body: string,
                                 parse: string -> Option<J>, nameOf: J -> NameLookup)
    requires path in {"/api/test", "/api/users"} && suffix != "" && verb != "OPTIONS"
    ensures Route(verb, path + suffix, userAgent, body, parse, nameOf) == Reply(404, NotFound(path + suffix, verb))
  {
    var url := path + suffix;
    if path == "/api/test" {
      assert url[5] == 't' && "/api/users"[5] == 'u';
    }
    assert |url| > |path|;
  }

  /** `body += chunk` over the chunks in arrival order. */
  function Concat(chunks: seq<string>): string
  {
    if chunks == [] then "" else Concat(chunks[..|chunks| - 1]) + chunks[|chunks| - 1]
  }

  /** Accumulation keeps arrival order across any split of the chunk stream. */
  lemma {:induction false} ConcatSplit(a: seq<string>, b: seq<string>)
    ensures Concat(a + b) == Concat(a) + Concat(b)
  {
    if b == [] {
      assert a + b == a;
    } else {
      assert (a + b)[..|a + b| - 1] == a + b[..|b| - 1];
      ConcatSplit(a, b[..|b| - 1]);
    }
  }

  /** The `data` handler's accumulation. */
  method AccumulateBody(chunks: seq<string>) returns (body: string)
    ensures body == Concat(chunks)
  {
    body := "";
    var i := 0;
    while i < |chunks|
      invariant 0 <= i <= |chunks|
      invariant body == Concat(chunks[..i])
    {
      assert chunks[..i + 1][..i] == chunks[..i];
      body := body + chunks[i];
      i := i + 1;
    }
    assert chunks[..i] == chunks;
  }

  /** An incoming request: method, URL, the `user-agent` header if sent, and the
      body chunks as they arrive. */
  datatype Request = Request(verb: string, url: string, userAgent: Option<string>, chunks: seq<string>)

  const CorsHeaders: Headers := map[
    "Access-Control-Allow-Origin" := "*",
    "Access-Control-Allow-Methods" := "GET, POST, PUT, DELETE, OPTIONS",
    "Access-Control-Allow-Headers" := "Content-Type, Authorization"]

  /** The `res` object: headers set so far, the status written by `writeHead`,
      and the payload once `end` was called. */
  class Response<J> {
    var headers: Headers
    var status: nat
    var payload: Option<ReplyBody<J>>

    constructor ()
      ensures headers == map[] && status == 200 && payload == None
    {
      headers := map[];
      status := 200;
      payload := None;
    }

    method SetHeader(name: string, value: string)
      modifies this
      ensures headers == old(headers)[name := value]
      ensures status == old(status) && payload == old(payload)
    {
      headers := headers[name := value];
    }

    method WriteHead(code: nat)
      modifies this
      ensures status == code
      ensures headers == old(headers) && payload == old(payload)
    {
      status := code;
    }

    method End(body: ReplyBody<J>)
      modifies this
      ensures payload == Some(body)
      ensures headers == old(headers) && status == old(status)
    {
      payload := Some(body);
    }
  }

  /** The three `setHeader` calls at the top of the handler. */
  method SetCorsHeaders<J>(res: Response<J>)
    modifies res
    ensures res.headers == old(res.headers) + CorsHeaders
    ensures res.status == old(res.status) && res.payload == old(res.payload)
  {
    res.SetHeader("Access-Control-Allow-Origin", "*");
    res.SetHeader("Access-Control-Allow-Methods", "GET, POST, PUT, DELETE, OPTIONS");
    res.SetHeader("Access-Control-Allow-Headers", "Content-Type, Authorization");
  }

  /** The routed part of the handler, after the preflight check. */
  method Dispatch<J>(req: Request, res: Response<J>, parse: string -> Option<J>, nameOf: J -> NameLookup)
    requires req.verb != "OPTIONS"
    modifies res
    ensures var r := Route(req.verb, req.url, req.userAgent, Concat(req.chunks), parse, nameOf);
            res.status == r.status && res.payload == Some(r.body)
    ensures res.headers == old(res.headers)
  {
    if req.url == "/api/test" && req.verb == "GET" {
      res.WriteHead(200);
      res.End(ApiTest(ApiTestLibrary(req.userAgent)));
    } else if req.url == "/api/users" && req.verb == "POST" {
      var body := AccumulateBody(req.chunks);
      var r := CreateUser(body, parse, nameOf);
      res.WriteHead(r.status);
      res.End(r.body);
    } else {
      res.WriteHead(404);
      res.End(NotFound(req.url, req.verb));
    }
  }

  /** The handler: the CORS headers first, the preflight answered before any
      routing, then `Content-Type: application/json` and the routed reply. */
  method Handle<J>(req: Request, res: Response<J>, parse: string -> Option<J>, nameOf: J -> NameLookup)
    modifies res
    ensures var r := Route(req.verb, req.url, req.userAgent, Concat(req.chunks), parse, nameOf);
            res.status == r.status && res.payload == Some(r.body)
    ensures req.verb == "OPTIONS" ==> res.headers == old(res.headers) + CorsHeaders
    ensures req.verb != "OPTIONS" ==> res.headers == old(res.headers) + CorsHeaders + map["Content-Type" := "application/json"]
    ensures forall k :: k in CorsHeaders ==> k in res.headers && res.headers[k] == CorsHeaders[k]
  {
    SetCorsHeaders(res);
    if req.verb == "OPTIONS" {
      res.WriteHead(200);
      res.End(Empty);
      return;
    }
    res.SetHeader("Content-Type", "application/json");
    Dispatch(req, res, parse, nameOf);
  }
}

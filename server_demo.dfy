/** The request handler of the demo HTTP server: a mocked `/api/` branch and
    static files from the public directory with a single-page fallback.
    Node's UTF-8 decoding of a Buffer, `JSON.parse`, `Date.now()`,
    `new Date().toISOString()`, `fs.stat` and `fs.readFile` are passed in as
    their results. */
module DemoServer {
  import opened Wrappers
  import opened Json

  type Bytes = seq<bv8>

  /** `req.method`, `req.url` and the body chunks, as the Buffers the `data` events deliver, in order. */
  datatype Request = Request(verb: string, url: string, chunks: seq<Bytes>)

  datatype Body = JsonBody(value: Json) | FileBody(data: Bytes) | HtmlBody(html: string)

  /** What the handler writes: nothing at all (the request is left open), or a status,
      a Content-Type header and a body. */
  datatype Reply = NoReply | Reply(status: nat, contentType: string, body: Body)

  predicate StartsWith(s: string, prefix: string)
  {
    |prefix| <= |s| && s[..|prefix|] == prefix
  }

  predicate EndsWith(s: string, suffix: string)
  {
    |suffix| <= |s| && s[|s| - |suffix|..] == suffix
  }

  /** The body `body += chunk` builds: each chunk converted to a string on its own (`decode`,
      Node's UTF-8 decoding of one Buffer) and appended in arrival order. */
  function Concat(chunks: seq<Bytes>, decode: Bytes -> string): string
  {
    if chunks == [] then "" else Concat(chunks[..|chunks| - 1], decode) + decode(chunks[|chunks| - 1])
  }

  /** Chunks delivered in two runs give the two runs' bodies joined: every chunk is decoded by
      itself, so the bytes of a character split across a chunk boundary are decoded apart. */
  lemma {:induction false} ConcatAppend(a: seq<Bytes>, b: seq<Bytes>, decode: Bytes -> string)
    ensures Concat(a + b, decode) == Concat(a, decode) + Concat(b, decode)
    decreases |b|
  {
    if b != [] {
      var n := |b| - 1;
      assert (a + b)[..|a + b| - 1] == a + b[..n];
      assert (a + b)[|a + b| - 1] == b[n];
      ConcatAppend(a, b[..n], decode);
      calc {
        Concat(a + b, decode);
        Concat(a + b[..n], decode) + decode(b[n]);
        Concat(a, decode) + Concat(b[..n], decode) + decode(b[n]);
        Concat(a, decode) + Concat(b, decode);
      }
    } else {
      assert a + b == a;
    }
  }

  /** `req.on('data', chunk => body += chunk)` until `end`. */
  method ReadBody(chunks: seq<Bytes>, decode: Bytes -> string) returns (body: string)
    ensures body == Concat(chunks, decode)
  {
    body := "";
    var i := 0;
    while i < |chunks|
      invariant 0 <= i <= |chunks|
      invariant body == Concat(chunks[..i], decode)
    {
      assert chunks[..i + 1][..i] == chunks[..i];
      body := body + decode(chunks[i]);
      i := i + 1;
    }
    assert chunks[..|chunks|] == chunks;
  }

  const JsonType := "application/json"

  /** The mock booking: `{ id: 'demo-' + Date.now(), ...data, createdAt: new Date().toISOString() }`.
      Later properties win, so a body field `id` replaces the generated one and `createdAt` is
      always the server's. */
  function Echo(data: Json, now: nat, isoNow: string): (r: map<string, Json>)
    ensures r.Keys == SpreadFields(data).Keys + {"id", "createdAt"}
    ensures r["createdAt"] == JString(isoNow)
  {
    map["id" := JString("demo-" + NatToString(now))] + SpreadFields(data) + map["createdAt" := JString(isoNow)]
  }

  datatype ApiRoute = EchoBooking | EmptyListing | Unanswered

  /** The `/api/` branch: only the exact URL `/api/bookings` is answered, for POST and GET. */
  function RouteApi(verb: string, url: string): ApiRoute
  {
    if verb == "POST" && url == "/api/bookings" then EchoBooking
    else if verb == "GET" && url == "/api/bookings" then EmptyListing
    else Unanswered
  }

  /** The reply of the `/api/` branch, given what `JSON.parse` made of the body (`None`: it threw). */
  function ApiReply(route: ApiRoute, parsed: Option<Json>, now: nat, isoNow: string): (r: Reply)
    ensures r.NoReply? <==> route == Unanswered
    ensures r.Reply? ==> r.contentType == JsonType && r.body.JsonBody?
    ensures route == EchoBooking ==> (r.status == 201 <==> parsed.Some?) && (r.status == 400 <==> parsed.None?)
  {
    match route
    case EchoBooking =>
      if parsed.None? then Reply(400, JsonType, JsonBody(JObject(map["message" := JString("Invalid request")])))
      else Reply(201, JsonType, JsonBody(JObject(Echo(parsed.value, now, isoNow))))
    case EmptyListing => Reply(200, JsonType, JsonBody(JArray([])))
    case Unanswered => NoReply
  }

  /** `path.join(dir, p)` for a directory without a trailing separator; `.` and `..`
      segments are not resolved. */
  function Join(dir: string, p: string): string
  {
    if StartsWith(p, "/") then dir + p else dir + "/" + p
  }

  /** The file served for `url`: `index.html` for `/`, the URL under the public directory
      otherwise, and `index.html` again when `fs.stat` finds nothing there. */
  function ServedPath(publicDir: string, url: string, stat: string -> bool): (p: string)
    ensures url == "/" ==> p == Join(publicDir, "index.html")
    ensures url != "/" && stat(Join(publicDir, url)) ==> p == Join(publicDir, url)
    ensures !stat(Join(publicDir, url)) ==> p == Join(publicDir, "index.html")
  {
    var requested := Join(publicDir, if url == "/" then "index.html" else url);
    if stat(requested) then requested else Join(publicDir, "index.html")
  }

  method ResolveFile(publicDir: string, url: string, stat: string -> bool) returns (filePath: string)
    ensures filePath == ServedPath(publicDir, url, stat)
    ensures url == "/" ==> filePath == Join(publicDir, "index.html")
    ensures url != "/" && stat(Join(publicDir, url)) ==> filePath == Join(publicDir, url)
    ensures !stat(Join(publicDir, url)) ==> filePath == Join(publicDir, "index.html")
  {
    filePath := Join(publicDir, if url == "/" then "index.html" else url);
    if !stat(filePath) {
      filePath := Join(publicDir, "index.html");
    }
  }

  /** Content types by file suffix, in the order they are tried. */
  const ContentTypes: seq<(string, string)> := [
    (".js", "application/javascript"),
    (".css", "text/css"),
    (".png", "image/png"),
    (".jpg", "image/jpeg"),
    (".json", JsonType)
  ]

  /** The type of the first entry whose suffix ends `path`, or `text/html` when none does. */
  function LookupContentType(table: seq<(string, string)>, path: string): (t: string)
    ensures t == "text/html" || exists i :: 0 <= i < |table| && t == table[i].1 && EndsWith(path, table[i].0)
    ensures (forall i :: 0 <= i < |table| ==> !EndsWith(path, table[i].0)) ==> t == "text/html"
  {
    if table == [] then "text/html"
    else if EndsWith(path, table[0].0) then table[0].1
    else
      var t := LookupContentType(table[1..], path);
      assert forall i :: 1 <= i < |table| ==> table[i] == table[1..][i - 1];
      t
  }

  method ContentTypeOf(filePath: string) returns (contentType: string)
    ensures contentType == LookupContentType(ContentTypes, filePath)
  {
    contentType := "text/html";
    if EndsWith(filePath, ".js") {
      contentType := "application/javascript";
    } else if EndsWith(filePath, ".css") {
      contentType := "text/css";
    } else if EndsWith(filePath, ".png") {
      contentType := "image/png";
    } else if EndsWith(filePath, ".jpg") {
      contentType := "image/jpeg";
    } else if EndsWith(filePath, ".json") {
      contentType := JsonType;
    }
    var t := ContentTypes;
    assert LookupContentType(t[4..], filePath) == if EndsWith(filePath, ".json") then JsonType else "text/html" by {
      assert t[4..][1..] == [];
    }
    assert LookupContentType(t[3..], filePath) ==
           if EndsWith(filePath, ".jpg") then "image/jpeg" else LookupContentType(t[4..], filePath) by {
      assert t[3..][1..] == t[4..];
    }
    assert LookupContentType(t[2..], filePath) ==
           if EndsWith(filePath, ".png") then "image/png" else LookupContentType(t[3..], filePath) by {
      assert t[2..][1..] == t[3..];
    }
    assert LookupContentType(t[1..], filePath) ==
           if EndsWith(filePath, ".css") then "text/css" else LookupContentType(t[2..], filePath) by {
      assert t[1..][1..] == t[2..];
    }
  }

  /** A `.jpeg` file matches none of the listed suffixes and is served as `text/html`. */
  lemma JpegServedAsHtml(path: string)
    requires EndsWith(path, ".jpeg")
    ensures LookupContentType(ContentTypes, path) == "text/html"
  {
    var n := |path|;
    assert path[n - 1] == 'g' && path[n - 2] == 'e' && path[n - 3] == 'p' && path[n - 4] == 'j' by {
      assert path[n - 5..][4] == 'g' && path[n - 5..][3] == 'e' && path[n - 5..][2] == 'p' && path[n - 5..][1] == 'j';
    }
    forall i | 0 <= i < |ContentTypes|
      ensures !EndsWith(path, ContentTypes[i].0)
    {
    }
  }

  /** The whole handler. */
  method Handle(publicDir: string, req: Request, decode: Bytes -> string, parse: string -> Option<Json>,
                now: nat, isoNow: string,
                stat: string -> bool, read: string -> Option<Bytes>) returns (reply: Reply)
    ensures StartsWith(req.url, "/api/") ==>
              reply == ApiReply(RouteApi(req.verb, req.url), parse(Concat(req.chunks, decode)), now, isoNow)
    ensures !StartsWith(req.url, "/api/") ==>
              var path := ServedPath(publicDir, req.url, stat);
              reply == if read(path).None? then Reply(404, "text/html", HtmlBody("<h1>404 Not Found</h1>"))
                       else Reply(200, LookupContentType(ContentTypes, path), FileBody(read(path).value))
  {
    if StartsWith(req.url, "/api/") {
      var route := RouteApi(req.verb, req.url);
      if route == EchoBooking {
        var body := ReadBody(req.chunks, decode);
        reply := ApiReply(route, parse(body), now, isoNow);
      } else {
        reply := ApiReply(route, None, now, isoNow);
      }
      return;
    }
    var filePath := ResolveFile(publicDir, req.url, stat);
    var data := read(filePath);
    if data.None? {
      return Reply(404, "text/html", HtmlBody("<h1>404 Not Found</h1>"));
    }
    var contentType := ContentTypeOf(filePath);
    reply := Reply(200, contentType, FileBody(data.value));
  }

  /** Any parsable body is accepted without validation: 201 with every own property of the body,
      an `id` that is the body's own when it has one and `demo-` followed by the clock otherwise,
      and the server's `createdAt` even when the body has one. */
  lemma EchoAcceptsAnyBody(data: Json, now: nat, isoNow: string)
    ensures var r := ApiReply(RouteApi("POST", "/api/bookings"), Some(data), now, isoNow);
            var f := SpreadFields(data);
            var e := Echo(data, now, isoNow);
            && r == Reply(201, JsonType, JsonBody(JObject(e)))
            && e.Keys == f.Keys + {"id", "createdAt"}
            && e["createdAt"] == JString(isoNow)
            && e["id"] == (if "id" in f then f["id"] else JString("demo-" + NatToString(now)))
            && forall k :: k in f && k != "createdAt" ==> e[k] == f[k]
  {
  }

  /** A body `JSON.parse` rejects gets 400 `{ message: 'Invalid request' }`, whatever the clocks read. */
  lemma UnparsableBody(now: nat, isoNow: string)
    ensures ApiReply(RouteApi("POST", "/api/bookings"), None, now, isoNow) ==
            Reply(400, JsonType, JsonBody(JObject(map["message" := JString("Invalid request")])))
  {
  }

  /** Under `/api/`, only POST and GET on exactly `/api/bookings` get a reply; every other request,
      such as `/api/bookings?x=1`, gets none. */
  lemma ApiAnswersOnlyBookings(verb: string, url: string, parsed: Option<Json>, now: nat, isoNow: string)
    requires StartsWith(url, "/api/")
    ensures ApiReply(RouteApi(verb, url), parsed, now, isoNow).NoReply? <==>
            !(url == "/api/bookings" && (verb == "POST" || verb == "GET"))
    ensures verb == "GET" && url == "/api/bookings" ==>
            ApiReply(RouteApi(verb, url), parsed, now, isoNow) == Reply(200, JsonType, JsonBody(JArray([])))
    ensures verb == "POST" && url == "/api/bookings" ==> RouteApi(verb, url) == EchoBooking
  {
  }

  /** The type chosen is that of the first listed suffix the path ends with: a `.js` file is
      JavaScript even if an entry further down would also match. */
  lemma {:induction false} FirstSuffixWins(table: seq<(string, string)>, path: string, i: nat)
    requires i < |table| && EndsWith(path, table[i].0)
    requires forall j :: 0 <= j < i ==> !EndsWith(path, table[j].0)
    ensures LookupContentType(table, path) == table[i].1
  {
    if i > 0 {
      FirstSuffixWins(table[1..], path, i - 1);
    }
  }
}

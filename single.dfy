/** The single-module version (aligi.py): `HTTPRequest`, `build_environ`
    and `WSGI.__call__`. Header keys become `HTTP_` + the upper-cased name
    with `-` replaced by `_`. */
module Single {
  import opened Wrappers
  import opened Bytes
  import opened PyDict
  import opened Ascii
  import opened Types
  import opened RequestView
  import Capture
  import Base64

  /** `HTTPRequest`: a read-only view of the parsed event. */
  datatype Request = Request(event: Event, context: Context) {
    /** `method`: the HTTP method upper-cased. */
    function Method(): string {
      Upper(event.httpMethod)
    }

    function Path(): string {
      event.path
    }

    /** `header`: the event headers keyed by their upper-cased names. */
    function Header(): (r: Dict<string>)
      ensures Keys(r) == set k | k in Keys(event.headers) :: Upper(k)
    {
      UpperKeyedKeys(event.headers);
      UpperKeyed(event.headers)
    }

    function Query(): Dict<string> {
      event.queryParameters
    }

    function Param(): Dict<string> {
      event.pathParameters
    }

    function Body(): Result<seq<byte>, Error> {
      DecodeBody(event.body, event.isBase64Encoded)
    }
  }

  /** The environ key of a header: `f"HTTP_{k.replace('-','_')}"`. */
  function HttpKey(k: string): string {
    "HTTP_" + Underscored(k)
  }

  function HttpItems(header: seq<(string, string)>): (r: seq<(string, string)>)
    ensures |r| == |header|
    ensures forall i :: 0 <= i < |header| ==> r[i] == (HttpKey(header[i].0), header[i].1)
  {
    seq(|header|, i requires 0 <= i < |header| => (HttpKey(header[i].0), header[i].1))
  }

  /** The `headers` dict of `build_environ`; two header names that differ
      only in `-` versus `_` collapse into one key, which holds the value
      of the one that comes later in the upper-cased header dict. */
  function HttpHeaders(header: Dict<string>): Dict<string> {
    PutAll([], HttpItems(header))
  }

  function StrValues(m: map<string, string>): Environ {
    map k | k in m :: Str(m[k])
  }

  /** The eighteen keys `build_environ` always sets, given the request's
      values. */
  function FixedEnviron(context: Context, path: string, httpMethod: string, query: string, body: seq<byte>,
                        contentType: string, contentLength: string): Environ {
    map[
      "fc.context" := FcContext(context),
      "fc.request_uri" := Str(path),
      "wsgi.version" := Version(1, 0),
      "wsgi.url_scheme" := Str("http"),
      "wsgi.input" := Input(body, 0),
      "wsgi.errors" := ErrorStream,
      "wsgi.multithread" := Flag(false),
      "wsgi.multiprocess" := Flag(false),
      "wsgi.run_once" := Flag(true),
      "SERVER_NAME" := Str("127.0.0.1"),
      "SERVER_PORT" := Str("80"),
      "SERVER_PROTOCOL" := Str("HTTP/1.0"),
      "REQUEST_METHOD" := Str(httpMethod),
      "SCRIPT_NAME" := Str(""),
      "PATH_INFO" := Str(path),
      "QUERY_STRING" := Str(query),
      "CONTENT_TYPE" := Str(contentType),
      "CONTENT_LENGTH" := Str(contentLength)
    ]
  }

  function RequestFixed(request: Request, body: seq<byte>, headers: Dict<string>): Environ {
    FixedEnviron(request.context, request.Path(), request.Method(), QueryString(request.Query()), body,
                 GetOr(headers, "HTTP_CONTENT_TYPE", ""), GetOr(headers, "HTTP_CONTENT_LENGTH", ""))
  }

  /** `d.get(k, default)`. */
  function GetOr(d: Dict<string>, k: string, default: string): string {
    match Get(d, k)
    case Some(v) => v
    case None => default
  }

  /** `build_environ(request, errors)`: the fixed keys, then
      `environ.update(headers)`. Reading `request.body` raises on a bad
      Base64 body. */
  function EnvironOf(request: Request): Result<Environ, Error> {
    var headers := HttpHeaders(request.Header());
    match request.Body()
    case Failure(e) => Failure(e)
    case Success(body) => Success(RequestFixed(request, body, headers) + StrValues(AsMap(headers)))
  }

  function FixedKeys(): set<string> {
    {"fc.context", "fc.request_uri", "wsgi.version", "wsgi.url_scheme", "wsgi.input", "wsgi.errors",
     "wsgi.multithread", "wsgi.multiprocess", "wsgi.run_once", "SERVER_NAME", "SERVER_PORT",
     "SERVER_PROTOCOL", "REQUEST_METHOD", "SCRIPT_NAME", "PATH_INFO", "QUERY_STRING",
     "CONTENT_TYPE", "CONTENT_LENGTH"}
  }

  /** The environ keys of a request's headers. */
  function HeaderKeys(event: Event): set<string> {
    set k | k in Keys(event.headers) :: HttpKey(Upper(k))
  }

  lemma {:induction false} HttpItemsKeys(header: seq<(string, string)>)
    ensures Keys(HttpItems(header)) == set k | k in Keys(header) :: HttpKey(k)
  {
    var items := HttpItems(header);
    forall x | x in Keys(items) ensures x in set k | k in Keys(header) :: HttpKey(k) {
      var i :| 0 <= i < |items| && items[i].0 == x;
      assert header[i].0 in Keys(header);
    }
    forall k | k in Keys(header) ensures HttpKey(k) in Keys(items) {
      var i :| 0 <= i < |header| && header[i].0 == k;
      assert items[i].0 == HttpKey(k);
    }
  }

  lemma HttpHeadersKeysOf(header: Dict<string>)
    ensures Keys(HttpHeaders(header)) == set k | k in Keys(header) :: HttpKey(k)
  {
    PutAllKeys([], HttpItems(header));
    HttpItemsKeys(header);
  }

  /** The `HTTP_*` keys are exactly the converted event header names. */
  /** Of header names that collapse into one `HTTP_` key, the one later in
      the upper-cased header dict supplies the value: the value is the last
      one `HttpItems` gives for that key. */
  lemma HttpHeadersLastWins(upper: Dict<string>, name: string)
    ensures Get(HttpHeaders(upper), name) == LastValue(HttpItems(upper), name)
    ensures Get(HttpHeaders(upper), name).Some? <==> exists i :: 0 <= i < |upper| && HttpKey(upper[i].0) == name
  {
    PutAllLastWins([], HttpItems(upper), name);
    LastValueIsLastItem(HttpItems(upper), name);
    if exists i :: 0 <= i < |upper| && HttpKey(upper[i].0) == name {
      var i :| 0 <= i < |upper| && HttpKey(upper[i].0) == name;
      assert HttpItems(upper)[i].0 == name;
    }
  }

  lemma HttpHeadersKeys(event: Event)
    ensures Keys(HttpHeaders(UpperKeyed(event.headers))) == HeaderKeys(event)
  {
    var upper := UpperKeyed(event.headers);
    HttpHeadersKeysOf(upper);
    UpperKeyedKeys(event.headers);
    forall x | x in HeaderKeys(event) ensures x in Keys(HttpHeaders(upper)) {
      var k :| k in Keys(event.headers) && x == HttpKey(Upper(k));
      assert Upper(k) in Keys(upper);
    }
  }

  /** The whole key set: the eighteen fixed keys and one key per header
      name; reading the body fails exactly on a bad Base64 body. */
  lemma EnvironKeys(request: Request)
    ensures EnvironOf(request).Failure? <==> request.event.isBase64Encoded && Base64.Decode(request.event.body).None?
    ensures EnvironOf(request).Failure? ==> EnvironOf(request).error == Base64Error
    ensures EnvironOf(request).Success? ==> EnvironOf(request).value.Keys == FixedKeys() + HeaderKeys(request.event)
  {
    HttpHeadersKeys(request.event);
    if EnvironOf(request).Success? {
      EnvironParts(request);
    }
  }

  predicate IsHttpKey(k: string) {
    |k| >= 5 && k[..5] == "HTTP_"
  }

  /** Every key of the `headers` dict starts with `HTTP_`. */
  lemma HttpHeadersArePrefixed(upper: Dict<string>)
    ensures forall k :: k in Keys(HttpHeaders(upper)) ==> IsHttpKey(k)
  {
    PutAllKeys([], HttpItems(upper));
    HttpItemsKeys(upper);
    forall k | k in Keys(HttpHeaders(upper)) ensures IsHttpKey(k) {
      var u :| u in Keys(upper) && k == HttpKey(u);
    }
  }

  /** No fixed key starts with `HTTP_`. */
  lemma FixedKeysAreNotPrefixed(request: Request, body: seq<byte>, headers: Dict<string>)
    ensures RequestFixed(request, body, headers).Keys == FixedKeys()
    ensures forall k :: k in FixedKeys() ==> !IsHttpKey(k)
  {
    forall k | IsHttpKey(k) ensures k !in FixedKeys() {
      assert k[0] == k[..5][0] == 'H';
    }
  }

  /** `environ.update(headers)` with header keys disjoint from the fixed
      keys: the fixed entries stay, and the `HTTP_` entries are exactly the
      `headers` dict. */
  lemma UpdateWithHeaders(fixed: Environ, headers: Dict<string>)
    requires forall k :: k in fixed ==> !IsHttpKey(k)
    requires forall k :: k in Keys(headers) ==> IsHttpKey(k)
    ensures (fixed + StrValues(AsMap(headers))).Keys == fixed.Keys + Keys(headers)
    ensures forall k :: k in fixed ==> (fixed + StrValues(AsMap(headers)))[k] == fixed[k]
    ensures forall k :: k in Keys(headers) ==> (fixed + StrValues(AsMap(headers)))[k] == Str(Get(headers, k).value)
  {
  }

  /** The environ is the fixed entries updated with the `headers` dict, and
      the two key sets are disjoint. */
  lemma EnvironParts(request: Request)
    requires EnvironOf(request).Success?
    ensures var headers := HttpHeaders(request.Header());
            var fixed := RequestFixed(request, request.Body().value, headers);
            var env := EnvironOf(request).value;
            env.Keys == FixedKeys() + Keys(headers) &&
            (forall k :: k in fixed ==> env[k] == fixed[k]) &&
            (forall k :: k in Keys(headers) ==> env[k] == Str(Get(headers, k).value)) &&
            (forall k :: k in Keys(headers) ==> IsHttpKey(k))
  {
    var headers := HttpHeaders(request.Header());
    var fixed := RequestFixed(request, request.Body().value, headers);
    HttpHeadersArePrefixed(request.Header());
    FixedKeysAreNotPrefixed(request, request.Body().value, headers);
    UpdateWithHeaders(fixed, headers);
  }

  /** The fixed keys hold the PEP 3333 constants. */
  lemma EnvironConstants(request: Request)
    requires EnvironOf(request).Success?
    ensures var env := EnvironOf(request).value;
            env["wsgi.version"] == Version(1, 0) &&
            env["wsgi.url_scheme"] == Str("http") &&
            env["wsgi.errors"] == ErrorStream &&
            env["wsgi.multithread"] == Flag(false) &&
            env["wsgi.multiprocess"] == Flag(false) &&
            env["wsgi.run_once"] == Flag(true) &&
            env["SERVER_NAME"] == Str("127.0.0.1") &&
            env["SERVER_PORT"] == Str("80") &&
            env["SERVER_PROTOCOL"] == Str("HTTP/1.0") &&
            env["SCRIPT_NAME"] == Str("")
  {
    EnvironParts(request);
    var env := EnvironOf(request).value;
    var headers := HttpHeaders(request.Header());
    var fixed := RequestFixed(request, request.Body().value, headers);
    FixedConstants(request.context, request.Path(), request.Method(), QueryString(request.Query()),
                   request.Body().value, GetOr(headers, "HTTP_CONTENT_TYPE", ""), GetOr(headers, "HTTP_CONTENT_LENGTH", ""));
  }

  lemma FixedConstants(context: Context, path: string, httpMethod: string, query: string, body: seq<byte>,
                       contentType: string, contentLength: string)
    ensures var fixed := FixedEnviron(context, path, httpMethod, query, body, contentType, contentLength);
            fixed["wsgi.version"] == Version(1, 0) &&
            fixed["wsgi.url_scheme"] == Str("http") &&
            fixed["wsgi.errors"] == ErrorStream &&
            fixed["wsgi.multithread"] == Flag(false) &&
            fixed["wsgi.multiprocess"] == Flag(false) &&
            fixed["wsgi.run_once"] == Flag(true)
    ensures var fixed := FixedEnviron(context, path, httpMethod, query, body, contentType, contentLength);
            fixed["SERVER_NAME"] == Str("127.0.0.1") &&
            fixed["SERVER_PORT"] == Str("80") &&
            fixed["SERVER_PROTOCOL"] == Str("HTTP/1.0") &&
            fixed["SCRIPT_NAME"] == Str("")
  {
    var fixed := FixedEnviron(context, path, httpMethod, query, body, contentType, contentLength);
    assert fixed["wsgi.version"] == Version(1, 0);
    assert fixed["wsgi.url_scheme"] == Str("http");
    assert fixed["wsgi.errors"] == ErrorStream;
    assert fixed["wsgi.multithread"] == Flag(false);
    assert fixed["wsgi.multiprocess"] == Flag(false);
    assert fixed["wsgi.run_once"] == Flag(true);
    assert fixed["SERVER_NAME"] == Str("127.0.0.1");
    assert fixed["SERVER_PORT"] == Str("80");
    assert fixed["SERVER_PROTOCOL"] == Str("HTTP/1.0");
  }

  /** The request-dependent fixed keys: the context object, the path (both
      as `fc.request_uri` and `PATH_INFO`), the body stream at offset 0,
      the upper-cased method and the rebuilt query string. */
  lemma EnvironRequestValues(request: Request)
    requires EnvironOf(request).Success?
    ensures var env := EnvironOf(request).value;
            "fc.context" in env && env["fc.context"] == FcContext(request.context) &&
            "fc.request_uri" in env && env["fc.request_uri"] == Str(request.event.path) &&
            "PATH_INFO" in env && env["PATH_INFO"] == Str(request.event.path) &&
            "wsgi.input" in env && env["wsgi.input"] == Input(request.Body().value, 0) &&
            "REQUEST_METHOD" in env && env["REQUEST_METHOD"] == Str(Upper(request.event.httpMethod)) &&
            "QUERY_STRING" in env && env["QUERY_STRING"] == Str(QueryString(request.event.queryParameters))
  {
    EnvironParts(request);
    var headers := HttpHeaders(request.Header());
    FixedRequestValues(request.context, request.Path(), request.Method(), QueryString(request.Query()),
                       request.Body().value, GetOr(headers, "HTTP_CONTENT_TYPE", ""), GetOr(headers, "HTTP_CONTENT_LENGTH", ""));
  }

  lemma FixedRequestValues(context: Context, path: string, httpMethod: string, query: string, body: seq<byte>,
                           contentType: string, contentLength: string)
    ensures var fixed := FixedEnviron(context, path, httpMethod, query, body, contentType, contentLength);
            fixed["fc.context"] == FcContext(context) &&
            fixed["fc.request_uri"] == Str(path) &&
            fixed["PATH_INFO"] == Str(path) &&
            fixed["wsgi.input"] == Input(body, 0) &&
            fixed["REQUEST_METHOD"] == Str(httpMethod) &&
            fixed["QUERY_STRING"] == Str(query)
  {
    var fixed := FixedEnviron(context, path, httpMethod, query, body, contentType, contentLength);
    assert fixed["fc.context"] == FcContext(context);
    assert fixed["fc.request_uri"] == Str(path);
    assert fixed["PATH_INFO"] == Str(path);
    assert fixed["wsgi.input"] == Input(body, 0);
    assert fixed["REQUEST_METHOD"] == Str(httpMethod);
  }

  /** `CONTENT_TYPE` and `CONTENT_LENGTH` copy the `HTTP_CONTENT_TYPE` and
      `HTTP_CONTENT_LENGTH` entries, or are empty when there is none; that
      entry exists exactly when some header name converts to it. */
  lemma EnvironContentHeaders(request: Request)
    requires EnvironOf(request).Success?
    ensures var env := EnvironOf(request).value;
            ("HTTP_CONTENT_TYPE" in env <==> "HTTP_CONTENT_TYPE" in HeaderKeys(request.event)) &&
            env["CONTENT_TYPE"] == (if "HTTP_CONTENT_TYPE" in env then env["HTTP_CONTENT_TYPE"] else Str(""))
    ensures var env := EnvironOf(request).value;
            ("HTTP_CONTENT_LENGTH" in env <==> "HTTP_CONTENT_LENGTH" in HeaderKeys(request.event)) &&
            env["CONTENT_LENGTH"] == (if "HTTP_CONTENT_LENGTH" in env then env["HTTP_CONTENT_LENGTH"] else Str(""))
  {
    EnvironParts(request);
    HttpHeadersKeys(request.event);
    var headers := HttpHeaders(request.Header());
    var contentType := GetOr(headers, "HTTP_CONTENT_TYPE", "");
    var contentLength := GetOr(headers, "HTTP_CONTENT_LENGTH", "");
    FixedContent(request.context, request.Path(), request.Method(), QueryString(request.Query()),
                 request.Body().value, contentType, contentLength);
    ContentKeysArePrefixed();
  }

  lemma FixedContent(context: Context, path: string, httpMethod: string, query: string, body: seq<byte>,
                     contentType: string, contentLength: string)
    ensures var fixed := FixedEnviron(context, path, httpMethod, query, body, contentType, contentLength);
            fixed["CONTENT_TYPE"] == Str(contentType) && fixed["CONTENT_LENGTH"] == Str(contentLength)
  {
  }

  lemma ContentKeysArePrefixed()
    ensures IsHttpKey("HTTP_CONTENT_TYPE") && IsHttpKey("HTTP_CONTENT_LENGTH")
    ensures "HTTP_CONTENT_TYPE" !in FixedKeys() && "HTTP_CONTENT_LENGTH" !in FixedKeys()
  {
    var t := "HTTP_CONTENT_TYPE";
    var l := "HTTP_CONTENT_LENGTH";
    assert t[..5] == "HTTP_";
    assert l[..5] == "HTTP_";
  }

  /** A header named `Content-Type` becomes `HTTP_CONTENT_TYPE`, which
      feeds `CONTENT_TYPE`. */
  lemma ContentTypeHyphenated()
    ensures HttpKey(Upper("Content-Type")) == "HTTP_CONTENT_TYPE"
  {
  }

  /** So does a header named `content_type`: the two spellings collide. */
  lemma ContentTypeUnderscored()
    ensures HttpKey(Upper("content_type")) == "HTTP_CONTENT_TYPE"
  {
  }

  /** An entry of the `headers` dict holds the value of an entry of the
      upper-cased header dict whose key converts to it. */
  lemma HttpHeadersFrom(upper: Dict<string>, name: string)
    requires name in Keys(HttpHeaders(upper))
    ensures exists p :: 0 <= p < |upper| && HttpKey(upper[p].0) == name && Get(HttpHeaders(upper), name) == Some(upper[p].1)
    ensures forall q :: 0 <= q < |upper| && HttpKey(upper[q].0) == name && (forall p :: 0 <= p < |upper| && p != q ==> HttpKey(upper[p].0) != name)
               ==> Get(HttpHeaders(upper), name) == Some(upper[q].1)
  {
    var items := HttpItems(upper);
    PutAllLastWins([], items, name);
    LastValueIsLastItem(items, name);
    PutAllKeys([], items);
    var p :| 0 <= p < |items| && items[p] == (name, LastValue(items, name).value) &&
             forall j :: p < j < |items| ==> items[j].0 != name;
    assert HttpKey(upper[p].0) == name;
  }

  /** Every `HTTP_*` entry holds the value of an event header whose name
      converts to that key. */
  lemma EnvironHeaderValue(request: Request, name: string)
    requires EnvironOf(request).Success? && name in HeaderKeys(request.event)
    ensures var env := EnvironOf(request).value;
            name in env &&
            exists i :: 0 <= i < |request.event.headers| && HttpKey(Upper(request.event.headers[i].0)) == name &&
                        env[name] == Str(request.event.headers[i].1)
  {
    var h := request.event.headers;
    var upper := request.Header();
    EnvironParts(request);
    HttpHeadersKeys(request.event);
    HttpHeadersFrom(upper, name);
    var p :| 0 <= p < |upper| && HttpKey(upper[p].0) == name && Get(HttpHeaders(upper), name) == Some(upper[p].1);
    GetAt(upper, p);
    UpperKeyedKeys(h);
    assert upper[p].0 in Keys(upper);
    UpperKeyedLastWins(h, upper[p].0);
  }

  /** In the upper-cased header dict, the only key that converts to the
      key of a header no other header shares is that header's own. */
  lemma SoleUpperKey(h: Dict<string>, i: nat)
    requires i < |h|
    requires forall j :: 0 <= j < |h| && j != i ==> HttpKey(Upper(h[j].0)) != HttpKey(Upper(h[i].0))
    ensures Get(UpperKeyed(h), Upper(h[i].0)) == Some(h[i].1)
    ensures exists q :: 0 <= q < |UpperKeyed(h)| && UpperKeyed(h)[q].0 == Upper(h[i].0)
    ensures forall p :: 0 <= p < |UpperKeyed(h)| && HttpKey(UpperKeyed(h)[p].0) == HttpKey(Upper(h[i].0)) ==>
              UpperKeyed(h)[p].0 == Upper(h[i].0)
  {
    var upper := UpperKeyed(h);
    forall j | 0 <= j < |h| && j != i ensures !EqualIgnoringCase(h[j].0, h[i].0) {
      UpperCollapses(h[j].0, h[i].0);
    }
    UpperKeyedUnique(h, i);
    UpperKeyedKeys(h);
    assert h[i].0 in Keys(h);
    forall p | 0 <= p < |upper| && HttpKey(upper[p].0) == HttpKey(Upper(h[i].0))
      ensures upper[p].0 == Upper(h[i].0)
    {
      assert upper[p].0 in Keys(upper);
      var k :| k in Keys(h) && upper[p].0 == Upper(k);
      var j :| 0 <= j < |h| && h[j].0 == k;
    }
  }

  /** A header whose converted key no other header shares appears under
      that key with its own value; this includes Content-Type and
      Content-Length, which are therefore also hoisted. */
  lemma EnvironHeaderUnique(request: Request, i: nat)
    requires EnvironOf(request).Success? && i < |request.event.headers|
    requires forall j :: 0 <= j < |request.event.headers| && j != i ==>
               HttpKey(Upper(request.event.headers[j].0)) != HttpKey(Upper(request.event.headers[i].0))
    ensures var env := EnvironOf(request).value;
            var name := HttpKey(Upper(request.event.headers[i].0));
            name in env && env[name] == Str(request.event.headers[i].1)
  {
    EnvironParts(request);
    HttpHeadersUnique(request.event.headers, i);
  }

  lemma HttpHeadersUnique(h: Dict<string>, i: nat)
    requires i < |h|
    requires forall j :: 0 <= j < |h| && j != i ==> HttpKey(Upper(h[j].0)) != HttpKey(Upper(h[i].0))
    ensures HttpKey(Upper(h[i].0)) in Keys(HttpHeaders(UpperKeyed(h)))
    ensures Get(HttpHeaders(UpperKeyed(h)), HttpKey(Upper(h[i].0))) == Some(h[i].1)
  {
    var upper := UpperKeyed(h);
    var name := HttpKey(Upper(h[i].0));
    SoleUpperKey(h, i);
    var q :| 0 <= q < |upper| && upper[q].0 == Upper(h[i].0);
    GetAt(upper, q);
    PutAllKeys([], HttpItems(upper));
    assert HttpItems(upper)[q].0 == name;
    HttpHeadersFrom(upper, name);
  }

  /** Whether this outcome is the reply the gateway receives for `app`
      called with `environ`: the captured status and headers, and the body. */
  function ReplyFor(app: App, environ: Environ): Result<Outcome, Error> {
    match Capture.Assemble(app(environ))
    case Failure(e) => Failure(e)
    case Success(reply) => Success(GatewayReply(reply))
  }

  /** The reply to a gateway invocation, or the exception that escapes. */
  function Handle(app: App, invocation: Invocation): Result<Outcome, Error> {
    match invocation
    case WsgiCall(environ) => Success(Passthrough(app(environ)))
    case GatewayCall(event, context) =>
      match EnvironOf(Request(event, context))
      case Failure(e) => Failure(e)
      case Success(environ) => ReplyFor(app, environ)
  }

  /** `build_environ` with its in-place `environ.update(headers)`. */
  method BuildEnviron(request: Request) returns (r: Result<Environ, Error>)
    ensures r == EnvironOf(request)
  {
    var headers := HttpHeaders(request.Header());
    var body := request.Body();
    if body.Failure? {
      return Failure(body.error);
    }
    var environ := RequestFixed(request, body.value, headers);
    environ := environ + StrValues(AsMap(headers));
    return Success(environ);
  }

  /** `WSGI`: wraps the application so that it answers both plain WSGI
      calls and gateway invocations. */
  class WSGI {
    const app: App

    constructor (app: App)
      ensures this.app == app
    {
      this.app := app;
    }

    /** `__call__`. A plain WSGI call goes straight to the application;
        a gateway call builds the environ, runs the application and
        assembles the reply. */
    method Call(invocation: Invocation) returns (r: Result<Outcome, Error>)
      ensures invocation.WsgiCall? ==> r == Success(Passthrough(app(invocation.environ)))
      ensures r == Handle(app, invocation)
    {
      if invocation.WsgiCall? {
        return Success(Passthrough(app(invocation.environ)));
      }
      var request := Request(invocation.event, invocation.context);
      var environ := BuildEnviron(request);
      if environ.Failure? {
        return Failure(environ.error);
      }
      var reply := Capture.Respond(app(environ.value));
      if reply.Failure? {
        return Failure(reply.error);
      }
      return Success(GatewayReply(reply.value));
    }
  }

  /** A gateway invocation that succeeds answers with a reply whose body
      decodes to the application's chunks joined in yield order, flagged
      as Base64. */
  lemma GatewayReplyBody(app: App, event: Event, context: Context)
    requires Handle(app, GatewayCall(event, context)).Success?
    ensures var environ := EnvironOf(Request(event, context)).value;
            var reply := Handle(app, GatewayCall(event, context)).value;
            reply.GatewayReply? &&
            Get(reply.reply, "isBase64Encoded") == Some(JBool(true)) &&
            Get(reply.reply, "body").Some? && Get(reply.reply, "body").value.JString? &&
            Base64.Decode(Get(reply.reply, "body").value.text) == Some(Join(app(environ).chunks))
  {
    var environ := EnvironOf(Request(event, context)).value;
    Capture.AssembleBody(app(environ));
  }

  /** A gateway invocation fails exactly when the Base64 body is malformed
      or the application passes `start_response` a status with no integer
      prefix. */
  lemma GatewayErrors(app: App, event: Event, context: Context)
    ensures var outcome := Handle(app, GatewayCall(event, context));
            var environ := EnvironOf(Request(event, context));
            outcome.Failure? <==>
              (event.isBase64Encoded && Base64.Decode(event.body).None?) ||
              (environ.Success? && Capture.HasBadStatus(app(environ.value).calls))
  {
    EnvironKeys(Request(event, context));
    var environ := EnvironOf(Request(event, context));
    if environ.Success? {
      Capture.ReplayFailsOnBadStatus(app(environ.value).calls);
    }
  }

  lemma UpperGet()
    ensures Upper("get") == "GET"
  {
  }

  /** A GET request with one `Content-Type` header and no query: the
      method is upper-cased, the content type is hoisted and the query
      string is a lone `?`. */
  lemma ExampleGetRequest(context: Context, path: string, contentType: string)
    ensures var event := Event(path, "get", [("Content-Type", contentType)], [], [], "", false);
            var environ := EnvironOf(Request(event, context));
            environ.Success? &&
            "REQUEST_METHOD" in environ.value && environ.value["REQUEST_METHOD"] == Str("GET") &&
            "CONTENT_TYPE" in environ.value && environ.value["CONTENT_TYPE"] == Str(contentType) &&
            "QUERY_STRING" in environ.value && environ.value["QUERY_STRING"] == Str("?")
  {
    var event := Event(path, "get", [("Content-Type", contentType)], [], [], "", false);
    var request := Request(event, context);
    assert request.Body().Success?;
    EnvironRequestValues(request);
    UpperGet();
    EnvironHeaderUnique(request, 0);
    ContentTypeHyphenated();
    EnvironContentHeaders(request);
  }
}

/** The package version's `aligi.wsgi`: `build_environ` over
    `aligi.core.HTTPRequest`, and `WSGI.__call__`. Header keys become
    `HTTP_` + the upper-cased name with `-` kept, and the two content keys
    come from the defaulted header dict. */
module Package {
  import opened Wrappers
  import opened Bytes
  import opened PyDict
  import opened Types
  import opened Ascii
  import RequestView
  import Core
  import Capture
  import Base64

  /** The first `environ` dict literal: the seven `wsgi.*` keys. */
  function WsgiEnviron(body: seq<byte>): Environ {
    map[
      "wsgi.version" := Version(1, 0),
      "wsgi.url_scheme" := Str("http"),
      "wsgi.input" := Input(body, 0),
      "wsgi.errors" := ErrorStream,
      "wsgi.multithread" := Flag(false),
      "wsgi.multiprocess" := Flag(false),
      "wsgi.run_once" := Flag(true)
    ]
  }

  /** The first `environ.update`: the nine CGI keys. */
  function CgiEnviron(httpMethod: string, path: string, query: string, contentType: EnvValue,
                      contentLength: EnvValue): Environ {
    map[
      "REQUEST_METHOD" := Str(httpMethod),
      "SCRIPT_NAME" := Str(""),
      "PATH_INFO" := Str(path),
      "QUERY_STRING" := Str(query),
      "CONTENT_TYPE" := contentType,
      "CONTENT_LENGTH" := contentLength,
      "SERVER_NAME" := Str("127.0.0.1"),
      "SERVER_PORT" := Str("80"),
      "SERVER_PROTOCOL" := Str("HTTP/1.0")
    ]
  }

  function WsgiKeys(): set<string> {
    {"wsgi.version", "wsgi.url_scheme", "wsgi.input", "wsgi.errors", "wsgi.multithread",
     "wsgi.multiprocess", "wsgi.run_once"}
  }

  function CgiKeys(): set<string> {
    {"REQUEST_METHOD", "SCRIPT_NAME", "PATH_INFO", "QUERY_STRING", "CONTENT_TYPE", "CONTENT_LENGTH",
     "SERVER_NAME", "SERVER_PORT", "SERVER_PROTOCOL"}
  }

  /** `f"HTTP_{k}"`, with `-` kept. */
  function HttpKey(k: string): string {
    "HTTP_" + k
  }

  function HttpItems(header: seq<(string, HeaderValue)>): (r: seq<(string, EnvValue)>)
    ensures |r| == |header|
    ensures forall i :: 0 <= i < |header| ==> r[i] == (HttpKey(header[i].0), FromHeaderValue(header[i].1))
  {
    seq(|header|, i requires 0 <= i < |header| => (HttpKey(header[i].0), FromHeaderValue(header[i].1)))
  }

  /** The prefixed items have distinct keys, since the header's keys are. */
  lemma HttpItemsDistinct(header: Dict<HeaderValue>)
    ensures DistinctKeys(HttpItems(header))
  {
    var items := HttpItems(header);
    forall a, b | 0 <= a < b < |items| ensures items[a].0 != items[b].0 {
      assert items[a].0[5..] == header[a].0;
      assert items[b].0[5..] == header[b].0;
    }
  }

  /** The dict comprehension of the second `environ.update`, as a map: the
      prefixed keys never collide, so it holds every prefixed item. */
  function HeaderEnviron(header: Dict<HeaderValue>): Environ {
    AsMap(HttpItems(header))
  }

  /** The value a present header key contributes. */
  function HeaderValueOf(header: Dict<HeaderValue>, k: string): EnvValue
    requires k in Keys(header)
  {
    FromHeaderValue(Get(header, k).value)
  }

  /** `build_environ(request)` for a request built from `event`; reading
      `request.body` raises on a bad Base64 body. */
  function EnvironOf(event: Event): Result<Environ, Error> {
    var header := Core.HeaderOf(event);
    Core.DefaultsPresent(event);
    match RequestView.DecodeBody(event.body, event.isBase64Encoded)
    case Failure(e) => Failure(e)
    case Success(body) =>
      Success(Layered(body, Upper(event.httpMethod), event.path, RequestView.QueryString(event.queryParameters),
                      header))
  }

  /** The `wsgi.*` literal, updated with the CGI keys, then with the
      header entries; the content keys are read from the header dict. */
  function Layered(body: seq<byte>, httpMethod: string, path: string, query: string,
                   header: Dict<HeaderValue>): Environ
    requires "CONTENT-TYPE" in Keys(header) && "CONTENT-LENGTH" in Keys(header)
  {
    WsgiEnviron(body)
    + CgiEnviron(httpMethod, path, query, HeaderValueOf(header, "CONTENT-TYPE"), HeaderValueOf(header, "CONTENT-LENGTH"))
    + HeaderEnviron(header)
  }

  /** `build_environ`: the `wsgi.*` literal and two in-place updates. */
  method BuildEnviron(request: Core.Request) returns (r: Result<Environ, Error>)
    requires request.Valid()
    ensures r == EnvironOf(request.event)
  {
    var body := request.Body();
    if body.Failure? {
      return Failure(body.error);
    }
    var header := request.Header();
    var environ := WsgiEnviron(body.value);
    environ := environ + CgiEnviron(request.Method(), request.Path(), request.QueryString(),
                                    FromHeaderValue(Get(header, "CONTENT-TYPE").value),
                                    FromHeaderValue(Get(header, "CONTENT-LENGTH").value));
    HttpItemsDistinct(header);
    PutAllFresh(HttpItems(header));
    environ := environ + AsMap(PutAll([], HttpItems(header)));
    return Success(environ);
  }

  lemma {:induction false} HttpItemsKeys(header: seq<(string, HeaderValue)>)
    ensures Keys(HttpItems(header)) == set k | k in Keys(header) :: HttpKey(k)
  {
    var items := HttpItems(header);
    forall x | x in Keys(items) ensures x in set k | k in Keys(header) :: HttpKey(k) {
      var i :| 0 <= i < |items| && items[i].0 == x;
      assert header[i].0 in Keys(header);
    }
    forall k | k in Keys(header) ensures HttpKey(k) in Keys(items) {
      var i :| 0 <= i < |header| && header[i].0 == k;
      assert items[i].0 == HttpKey(k);
    }
  }

  /** The header entries: one `HTTP_` + name key per header, holding that
      header's value; prefixing keeps names apart, so nothing collapses. */
  lemma HeaderEnvironEntries(header: Dict<HeaderValue>)
    ensures HeaderEnviron(header).Keys == set k | k in Keys(header) :: HttpKey(k)
    ensures forall k :: k in Keys(header) ==> HeaderEnviron(header)[HttpKey(k)] == HeaderValueOf(header, k)
  {
    var items := HttpItems(header);
    HttpItemsKeys(header);
    HttpItemsDistinct(header);
    forall k | k in Keys(header) ensures HeaderEnviron(header)[HttpKey(k)] == HeaderValueOf(header, k) {
      var i :| 0 <= i < |header| && header[i].0 == k;
      GetAt(items, i);
      GetAt(header, i);
    }
  }

  predicate IsHttpKey(k: string) {
    |k| >= 5 && k[..5] == "HTTP_"
  }

  /** No reserved key starts with `HTTP_`, so no header entry overwrites
      one. */
  lemma ReservedKeysAreNotPrefixed()
    ensures forall k :: k in WsgiKeys() + CgiKeys() ==> !IsHttpKey(k)
  {
    forall k | IsHttpKey(k) ensures k !in WsgiKeys() + CgiKeys() {
      assert k[0] == k[..5][0] == 'H';
    }
  }

  /** The `wsgi.*` keys and the CGI keys are told apart by their first
      letter. */
  lemma ReservedKeysAreDisjoint()
    ensures WsgiKeys() !! CgiKeys()
  {
    assert forall k :: k in WsgiKeys() ==> k[0] == 'w';
    assert forall k :: k in CgiKeys() ==> k[0] != 'w';
  }

  lemma LayerKeys(body: seq<byte>, httpMethod: string, path: string, query: string, contentType: EnvValue,
                  contentLength: EnvValue)
    ensures WsgiEnviron(body).Keys == WsgiKeys()
    ensures CgiEnviron(httpMethod, path, query, contentType, contentLength).Keys == CgiKeys()
  {
  }

  /** Three updates with disjoint key sets: each key keeps the value of the
      one layer that has it. */
  lemma DisjointUpdates(wsgi: Environ, cgi: Environ, headers: Environ)
    requires wsgi.Keys !! cgi.Keys && wsgi.Keys !! headers.Keys && cgi.Keys !! headers.Keys
    ensures (wsgi + cgi + headers).Keys == wsgi.Keys + cgi.Keys + headers.Keys
    ensures forall k :: k in wsgi ==> (wsgi + cgi + headers)[k] == wsgi[k]
    ensures forall k :: k in cgi ==> (wsgi + cgi + headers)[k] == cgi[k]
    ensures forall k :: k in headers ==> (wsgi + cgi + headers)[k] == headers[k]
  {
  }

  /** The layered environ: the reserved keys keep their layer's values and
      every header entry appears under `HTTP_` + its name. */
  lemma LayeredEntries(body: seq<byte>, httpMethod: string, path: string, query: string, header: Dict<HeaderValue>)
    requires "CONTENT-TYPE" in Keys(header) && "CONTENT-LENGTH" in Keys(header)
    ensures var env := Layered(body, httpMethod, path, query, header);
            var cgi := CgiEnviron(httpMethod, path, query, HeaderValueOf(header, "CONTENT-TYPE"), HeaderValueOf(header, "CONTENT-LENGTH"));
            env.Keys == WsgiKeys() + CgiKeys() + (set k | k in Keys(header) :: HttpKey(k)) &&
            (forall k :: k in WsgiEnviron(body) ==> env[k] == WsgiEnviron(body)[k]) &&
            (forall k :: k in cgi ==> env[k] == cgi[k]) &&
            (forall k :: k in Keys(header) ==> env[HttpKey(k)] == HeaderValueOf(header, k))
  {
    var ct := HeaderValueOf(header, "CONTENT-TYPE");
    var cl := HeaderValueOf(header, "CONTENT-LENGTH");
    var cgi := CgiEnviron(httpMethod, path, query, ct, cl);
    HeaderEnvironEntries(header);
    ReservedKeysAreNotPrefixed();
    LayerKeys(body, httpMethod, path, query, ct, cl);
    forall k | k in Keys(header) ensures IsHttpKey(HttpKey(k)) {
      assert HttpKey(k)[..5] == "HTTP_";
    }
    ReservedKeysAreDisjoint();
    DisjointUpdates(WsgiEnviron(body), cgi, HeaderEnviron(header));
  }

  /** The nine CGI values, by key. */
  lemma CgiValues(httpMethod: string, path: string, query: string, contentType: EnvValue, contentLength: EnvValue)
    ensures var cgi := CgiEnviron(httpMethod, path, query, contentType, contentLength);
            cgi["REQUEST_METHOD"] == Str(httpMethod) &&
            cgi["SCRIPT_NAME"] == Str("") &&
            cgi["PATH_INFO"] == Str(path) &&
            cgi["QUERY_STRING"] == Str(query) &&
            cgi["CONTENT_TYPE"] == contentType &&
            cgi["CONTENT_LENGTH"] == contentLength &&
            cgi["SERVER_NAME"] == Str("127.0.0.1") &&
            cgi["SERVER_PORT"] == Str("80") &&
            cgi["SERVER_PROTOCOL"] == Str("HTTP/1.0")
  {
  }

  /** The layered environ for an event, which is the environ whenever the
      body decodes. */
  lemma EnvironIsLayered(event: Event)
    requires EnvironOf(event).Success?
    ensures var header := Core.HeaderOf(event);
            "CONTENT-TYPE" in Keys(header) && "CONTENT-LENGTH" in Keys(header) &&
            EnvironOf(event).value ==
              Layered(RequestView.DecodeBody(event.body, event.isBase64Encoded).value, Upper(event.httpMethod),
                      event.path, RequestView.QueryString(event.queryParameters), header)
  {
    Core.DefaultsPresent(event);
  }

  /** The key set: the seven `wsgi.*` keys, the nine CGI keys and one
      `HTTP_*` key per header entry, among them always `HTTP_CONTENT-TYPE`
      and `HTTP_CONTENT-LENGTH`; it fails exactly on a bad Base64 body. */
  lemma EnvironKeys(event: Event)
    ensures EnvironOf(event).Failure? <==> event.isBase64Encoded && Base64.Decode(event.body).None?
    ensures EnvironOf(event).Failure? ==> EnvironOf(event).error == Base64Error
    ensures EnvironOf(event).Success? ==>
              EnvironOf(event).value.Keys == WsgiKeys() + CgiKeys() + (set k | k in Keys(Core.HeaderOf(event)) :: HttpKey(k)) &&
              "HTTP_CONTENT-TYPE" in EnvironOf(event).value && "HTTP_CONTENT-LENGTH" in EnvironOf(event).value
  {
    if EnvironOf(event).Success? {
      var header := Core.HeaderOf(event);
      EnvironIsLayered(event);
      LayeredEntries(RequestView.DecodeBody(event.body, event.isBase64Encoded).value, Upper(event.httpMethod),
                     event.path, RequestView.QueryString(event.queryParameters), header);
      ContentHttpKeys();
    }
  }

  /** `CONTENT_TYPE` and `CONTENT_LENGTH` are the header dict's values, so
      they equal `HTTP_CONTENT-TYPE` and `HTTP_CONTENT-LENGTH`, and are
      `"text/plain"` and `0` when no event header has those names in any
      case. */
  lemma EnvironContentHeaders(event: Event)
    requires EnvironOf(event).Success?
    ensures var env := EnvironOf(event).value;
            var header := Core.HeaderOf(event);
            "CONTENT_TYPE" in env && "CONTENT_LENGTH" in env &&
            "HTTP_CONTENT-TYPE" in env && "HTTP_CONTENT-LENGTH" in env &&
            "CONTENT-TYPE" in Keys(header) && "CONTENT-LENGTH" in Keys(header) &&
            env["CONTENT_TYPE"] == FromHeaderValue(Get(header, "CONTENT-TYPE").value) &&
            env["CONTENT_LENGTH"] == FromHeaderValue(Get(header, "CONTENT-LENGTH").value) &&
            env["CONTENT_TYPE"] == env["HTTP_CONTENT-TYPE"] &&
            env["CONTENT_LENGTH"] == env["HTTP_CONTENT-LENGTH"]
    ensures var env := EnvironOf(event).value;
            "CONTENT-TYPE" !in Keys(RequestView.UpperKeyed(event.headers)) ==>
              "CONTENT_TYPE" in env && env["CONTENT_TYPE"] == Str("text/plain")
    ensures var env := EnvironOf(event).value;
            "CONTENT-LENGTH" !in Keys(RequestView.UpperKeyed(event.headers)) ==>
              "CONTENT_LENGTH" in env && env["CONTENT_LENGTH"] == Int(0)
  {
    var header := Core.HeaderOf(event);
    var body := RequestView.DecodeBody(event.body, event.isBase64Encoded).value;
    Core.DefaultsPresent(event);
    var ct := HeaderValueOf(header, "CONTENT-TYPE");
    var cl := HeaderValueOf(header, "CONTENT-LENGTH");
    EnvironIsLayered(event);
    LayeredEntries(body, Upper(event.httpMethod), event.path, RequestView.QueryString(event.queryParameters), header);
    CgiValues(Upper(event.httpMethod), event.path, RequestView.QueryString(event.queryParameters), ct, cl);
    LayerKeys(body, Upper(event.httpMethod), event.path, RequestView.QueryString(event.queryParameters), ct, cl);
    Core.HeaderDefaults(event);
    ContentHttpKeys();
  }

  lemma ContentHttpKeys()
    ensures HttpKey("CONTENT-TYPE") == "HTTP_CONTENT-TYPE"
    ensures HttpKey("CONTENT-LENGTH") == "HTTP_CONTENT-LENGTH"
  {
  }

  /** `REQUEST_METHOD`, `PATH_INFO` and `QUERY_STRING` come from the
      request view, and the other CGI keys are constants. */
  lemma EnvironRequestValues(event: Event)
    requires EnvironOf(event).Success?
    ensures var env := EnvironOf(event).value;
            CgiKeys() <= env.Keys &&
            env["REQUEST_METHOD"] == Str(Upper(event.httpMethod)) &&
            env["PATH_INFO"] == Str(event.path) &&
            env["QUERY_STRING"] == Str(RequestView.QueryString(event.queryParameters)) &&
            env["SCRIPT_NAME"] == Str("") &&
            env["SERVER_NAME"] == Str("127.0.0.1") &&
            env["SERVER_PORT"] == Str("80") &&
            env["SERVER_PROTOCOL"] == Str("HTTP/1.0")
  {
    var header := Core.HeaderOf(event);
    var body := RequestView.DecodeBody(event.body, event.isBase64Encoded).value;
    Core.DefaultsPresent(event);
    var ct := HeaderValueOf(header, "CONTENT-TYPE");
    var cl := HeaderValueOf(header, "CONTENT-LENGTH");
    EnvironIsLayered(event);
    LayeredEntries(body, Upper(event.httpMethod), event.path, RequestView.QueryString(event.queryParameters), header);
    CgiValues(Upper(event.httpMethod), event.path, RequestView.QueryString(event.queryParameters), ct, cl);
    LayerKeys(body, Upper(event.httpMethod), event.path, RequestView.QueryString(event.queryParameters), ct, cl);
  }

  /** The seven `wsgi.*` values of PEP 3333, with the body as input. */
  lemma WsgiValues(body: seq<byte>)
    ensures var wsgi := WsgiEnviron(body);
            wsgi["wsgi.version"] == Version(1, 0) &&
            wsgi["wsgi.url_scheme"] == Str("http") &&
            wsgi["wsgi.input"] == Input(body, 0) &&
            wsgi["wsgi.errors"] == ErrorStream &&
            wsgi["wsgi.multithread"] == Flag(false) &&
            wsgi["wsgi.multiprocess"] == Flag(false) &&
            wsgi["wsgi.run_once"] == Flag(true)
  {
  }

  lemma EnvironConstants(event: Event)
    requires EnvironOf(event).Success?
    ensures var env := EnvironOf(event).value;
            WsgiKeys() <= env.Keys &&
            env["wsgi.version"] == Version(1, 0) &&
            env["wsgi.url_scheme"] == Str("http") &&
            env["wsgi.input"] == Input(RequestView.DecodeBody(event.body, event.isBase64Encoded).value, 0) &&
            env["wsgi.errors"] == ErrorStream &&
            env["wsgi.multithread"] == Flag(false) &&
            env["wsgi.multiprocess"] == Flag(false) &&
            env["wsgi.run_once"] == Flag(true)
  {
    var header := Core.HeaderOf(event);
    var body := RequestView.DecodeBody(event.body, event.isBase64Encoded).value;
    Core.DefaultsPresent(event);
    var ct := HeaderValueOf(header, "CONTENT-TYPE");
    var cl := HeaderValueOf(header, "CONTENT-LENGTH");
    EnvironIsLayered(event);
    LayeredEntries(body, Upper(event.httpMethod), event.path, RequestView.QueryString(event.queryParameters), header);
    WsgiValues(body);
    LayerKeys(body, Upper(event.httpMethod), event.path, RequestView.QueryString(event.queryParameters), ct, cl);
  }

  /** Every header entry appears under `HTTP_` + its name with its value. */
  lemma EnvironHeaders(event: Event, name: string)
    requires EnvironOf(event).Success? && name in Keys(Core.HeaderOf(event))
    ensures var env := EnvironOf(event).value;
            HttpKey(name) in env && env[HttpKey(name)] == FromHeaderValue(Get(Core.HeaderOf(event), name).value)
  {
    var header := Core.HeaderOf(event);
    EnvironIsLayered(event);
    LayeredEntries(RequestView.DecodeBody(event.body, event.isBase64Encoded).value, Upper(event.httpMethod),
                   event.path, RequestView.QueryString(event.queryParameters), header);
  }

  function ReplyFor(app: App, environ: Environ): Result<Outcome, Error> {
    match Capture.Assemble(app(environ))
    case Failure(e) => Failure(e)
    case Success(reply) => Success(GatewayReply(reply))
  }

  /** The outcome of an invocation, or the exception that escapes. */
  function Handle(app: App, invocation: Invocation): Result<Outcome, Error> {
    match invocation
    case WsgiCall(environ) => Success(Passthrough(app(environ)))
    case GatewayCall(event, _) =>
      match EnvironOf(event)
      case Failure(e) => Failure(e)
      case Success(environ) => ReplyFor(app, environ)
  }

  /** `WSGI`: wraps the application so that it answers both plain WSGI
      calls and gateway invocations. */
  class WSGI {
    const app: App

    constructor (app: App)
      ensures this.app == app
    {
      this.app := app;
    }

    /** `__call__`. */
    method Call(invocation: Invocation) returns (r: Result<Outcome, Error>)
      ensures invocation.WsgiCall? ==> r == Success(Passthrough(app(invocation.environ)))
      ensures r == Handle(app, invocation)
    {
      if invocation.WsgiCall? {
        return Success(Passthrough(app(invocation.environ)));
      }
      var request := new Core.Request(invocation.event, invocation.context);
      var environ := BuildEnviron(request);
      if environ.Failure? {
        return Failure(environ.error);
      }
      var reply := Capture.Respond(app(environ.value));
      if reply.Failure? {
        return Failure(reply.error);
      }
      return Success(GatewayReply(reply.value));
    }
  }

  /** A successful gateway invocation answers with a reply whose body
      decodes to the application's chunks joined in yield order. */
  lemma GatewayReplyBody(app: App, event: Event, context: Context)
    requires Handle(app, GatewayCall(event, context)).Success?
    ensures var environ := EnvironOf(event).value;
            var reply := Handle(app, GatewayCall(event, context)).value;
            reply.GatewayReply? &&
            Get(reply.reply, "isBase64Encoded") == Some(JBool(true)) &&
            Get(reply.reply, "body").Some? && Get(reply.reply, "body").value.JString? &&
            Base64.Decode(Get(reply.reply, "body").value.text) == Some(Join(app(environ).chunks))
  {
    Capture.AssembleBody(app(EnvironOf(event).value));
  }

  /** If the application never calls `start_response`, the gateway gets a
      reply with only the body and the flag, and no error. */
  lemma GatewayReplyWithoutStatus(app: App, event: Event, context: Context)
    requires EnvironOf(event).Success? && |app(EnvironOf(event).value).calls| == 0
    ensures var chunks := app(EnvironOf(event).value).chunks;
            Handle(app, GatewayCall(event, context)) == Success(GatewayReply(Capture.BodyEntries(chunks)))
  {
    Capture.AssembleWithoutStartResponse(app(EnvironOf(event).value));
  }

  /** A gateway invocation fails exactly when the Base64 body is malformed
      or the application passes `start_response` a status with no integer
      prefix. */
  lemma GatewayErrors(app: App, event: Event, context: Context)
    ensures var outcome := Handle(app, GatewayCall(event, context));
            var environ := EnvironOf(event);
            outcome.Failure? <==>
              (event.isBase64Encoded && Base64.Decode(event.body).None?) ||
              (environ.Success? && Capture.HasBadStatus(app(environ.value).calls))
  {
    EnvironKeys(event);
    var environ := EnvironOf(event);
    if environ.Success? {
      Capture.ReplayFailsOnBadStatus(app(environ.value).calls);
    }
  }

  lemma UpperNames()
    ensures Upper("get") == "GET" && Upper("Content-Type") == "CONTENT-TYPE"
  {
  }

  /** A GET request with one `Content-Type` header and no query: the
      method is upper-cased, the content type replaces the `text/plain`
      default and the query string is a lone `?`. */
  lemma ExampleGetRequest(contentType: string)
    ensures var event := Event("/", "get", [("Content-Type", contentType)], [], [], "", false);
            var environ := EnvironOf(event);
            environ.Success? &&
            "REQUEST_METHOD" in environ.value && environ.value["REQUEST_METHOD"] == Str("GET") &&
            "CONTENT_TYPE" in environ.value && environ.value["CONTENT_TYPE"] == Str(contentType) &&
            "QUERY_STRING" in environ.value && environ.value["QUERY_STRING"] == Str("?")
  {
    var event := Event("/", "get", [("Content-Type", contentType)], [], [], "", false);
    assert EnvironOf(event).Success?;
    UpperNames();
    EnvironRequestValues(event);
    EnvironContentHeaders(event);
    Core.HeaderDefaultReplaced(event, 0);
  }
}

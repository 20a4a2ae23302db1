/** The shapes the adapter exchanges with the function-compute runtime and
    with the wrapped WSGI application: the already-parsed gateway event,
    the environ values, the application's observable behaviour, the reply
    and the exceptions that abort an invocation. */
module Types {
  import opened Bytes
  import opened PyDict

  /** The function-compute context object; the adapter only stores it and
      hands it on, so nothing about it is modelled. */
  type Context

  /** The API-gateway event after `json.loads`. Its three mappings are dicts
      in the order the JSON object listed them. */
  datatype Event = Event(
    path: string,
    httpMethod: string,
    headers: Dict<string>,
    queryParameters: Dict<string>,
    pathParameters: Dict<string>,
    body: string,
    isBase64Encoded: bool)

  /** A value in the package version's header dict: event headers are
      strings, but the CONTENT-LENGTH default is the integer 0. */
  datatype HeaderValue = Text(text: string) | Number(number: int)

  /** The values an environ holds. */
  datatype EnvValue =
    | Str(text: string)
    | Int(number: int)
    | Flag(flag: bool)
    | Version(major: nat, minor: nat)
    | Input(data: seq<byte>, position: nat)   // io.BytesIO over the body
    | ErrorStream                             // the no-op wsgi.errors sink
    | FcContext(context: Context)

  type Environ = map<string, EnvValue>

  function FromHeaderValue(h: HeaderValue): EnvValue {
    match h
    case Text(s) => Str(s)
    case Number(n) => Int(n)
  }

  /** The optional third argument of `start_response`; both versions
      accept it and ignore it. */
  datatype ExcInfo = NoExcInfo | ExcInfo(description: string)

  /** One call the application makes to `start_response`. */
  datatype StartCall = StartCall(status: string, headers: seq<(string, string)>, excInfo: ExcInfo)

  /** What the application does when called with an environ: the
      `start_response` calls it makes, in order, and the body chunks its
      iterable yields, in order. */
  datatype AppResult = AppResult(calls: seq<StartCall>, chunks: seq<seq<byte>>)

  type App = Environ -> AppResult

  /** Values of the reply dict that is serialised with `json.dumps`. */
  datatype ReplyValue =
    | JInt(number: int)
    | JHeaders(headers: Dict<string>)
    | JString(text: string)
    | JBool(flag: bool)

  type Reply = Dict<ReplyValue>

  /** The two ways `WSGI.__call__` is invoked that are modelled: with the
      gateway event (a `str` of JSON) and the context, or as a plain WSGI
      application with an environ (the host's own `start_response` is not
      modelled). Any other non-`str` first argument also takes the
      pass-through branch in the source. */
  datatype Invocation =
    | GatewayCall(event: Event, context: Context)
    | WsgiCall(environ: Environ)

  datatype Outcome =
    | Passthrough(result: AppResult)   // the application's own iterable, untouched
    | GatewayReply(reply: Reply)       // the dict handed to json.dumps

  /** Exceptions that end an invocation without a reply. */
  datatype Error =
    | Base64Error                      // binascii.Error from b64decode
    | StatusNotInteger(status: string) // ValueError from int(status[:3])
}

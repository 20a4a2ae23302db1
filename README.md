# aligi in Dafny

aligi adapts a WSGI application (PEP 3333) to the API-gateway trigger of
Alibaba Cloud Function Compute. A gateway invocation brings a JSON event
(path, method, headers, query and path parameters, a body that may be
Base64) and a context object. The adapter does four things:

- builds a WSGI `environ` from the event;
- hands the application a `start_response` that writes the status code and
  header dict into a reply dict;
- joins the body chunks the application yields;
- returns the reply with the body Base64-encoded and `isBase64Encoded: true`.

`WSGI.__call__` picks its branch with `isinstance(event_or_environ, str)`.
A `str` first argument is treated as the gateway event.
Any other first argument is passed straight through to the application, together with the second argument.
This includes an environ, and also an event passed as `bytes`.

The repository holds two versions of the same adapter, and both are modelled:

- the single module `aligi.py`;
- the package `aligi/core.py` plus `aligi/wsgi.py`.

They differ in how the environ is built:

| | `aligi.py` | package |
|---|---|---|
| header key | `HTTP_` + upper-cased name with `-` replaced by `_` | `HTTP_` + upper-cased name with `-` kept |
| `CONTENT_TYPE` / `CONTENT_LENGTH` | read from the `HTTP_CONTENT_TYPE` / `HTTP_CONTENT_LENGTH` entries, or `""` | read from a header dict whose constructor seeds `CONTENT-TYPE: "text/plain"` and `CONTENT-LENGTH: 0` |
| extra keys | `fc.context`, `fc.request_uri` | none |

`create_start_response` and the reply assembly behave the same in both
versions and are modelled once.
`aligi.py` first collects the chunks into a list, while `aligi/wsgi.py` joins the iterable directly.
Since the application is modelled as its finished list of chunks, the two are the same here.

Modules:

- `Wrappers`: Option and Result.
- `Bytes`: bytes and `b"".join`.
- `Ascii`: `str.upper` on ASCII, `replace('-', '_')`, digits.
- `PyDict`: Python's insertion-ordered dict as a list of pairs with distinct keys.
  - `Put` is `d[k] = v`.
  - `PutAll` is `update` or a dict comprehension.
  - `LastValue` is an independent definition of last-write-wins.
- `Base64`: section 4 of RFC 4648, with a strict decoder as the encoder's partner.
- `Utf8`: RFC 3629, with a decoder as the encoder's partner.
- `Types`: the event, environ values, application behaviour, reply and errors.
- `RequestView`: what both `HTTPRequest` classes derive from the event.
  - the upper-cased header dict;
  - `"?" + "&".join(...)`;
  - the body decoding.
- `Capture`: `start_response`, the reply dict (`class ReplyData`) and the
  assembly loop (`Respond`).
- `Single`: `aligi.py`.
  - `HTTPRequest` as a value with accessors;
  - `build_environ`;
  - `class WSGI`.
- `Core`: `aligi/core.py`. `HTTPRequest` is a class whose `header` field the
  constructor builds in place.
- `Package`: `aligi/wsgi.py`.
  - `build_environ` over `Core.Request`;
  - `class WSGI`.

The application is a function from an environ to an `AppResult`, which
holds two things:

- the `start_response` calls it makes, in order;
- the body chunks it yields, in order.

Two exceptions that can end a gateway invocation are modelled as results:

- a body marked Base64 that does not decode (`Base64Error`);
- a status whose first three characters are not an integer (`StatusNotInteger`).

Chunks are byte strings, so the `TypeError` that `b"".join` raises on a `str` chunk is outside the model (see "Left out").

## Model

| member | source | states |
|---|---|---|
| Bytes.JoinInOrder | aligi.py:199 | the joined body's length is the sum of the chunk lengths, and it is the first chunk followed by the join of the rest |
| Bytes.JoinAppend | aligi/wsgi.py:98 | joining two runs of chunks is concatenating their joins |
| Ascii.Upper | aligi.py:80-82 | `upper()` keeps the length, leaves no lower-case ASCII letter, changes each character only in case and leaves non-letters alone |
| Ascii.UpperCollapses | aligi.py:90 | two names upper-case to the same key exactly when they are equal ignoring ASCII case |
| Ascii.Underscored | aligi.py:126 | `replace('-', '_')` keeps the length, leaves no `-` and changes nothing else |
| PyDict.Get | aligi.py:146-147 | `dict.get` finds a value exactly when the key is present |
| PyDict.GetAt | aligi/core.py:17 | the entry at any position is what a lookup of its key finds |
| PyDict.Put | aligi/core.py:17 | `d[k] = v`: the key set gains `k`, `k` maps to `v`, every other key keeps its value, an existing key keeps its position and a new key is appended |
| PyDict.LastValueIsLastItem | aligi.py:90 | the reference last-write-wins value is absent exactly when no item has the key, and otherwise is the value of an item no later item shadows |
| PyDict.PutAllLastWins | aligi/core.py:17 | after `update(items)` a key holds the value of its last item, or its old value if no item names it |
| PyDict.PutAllKeys | aligi/core.py:17 | `update(items)` adds exactly the items' keys |
| PyDict.PutAllDistinct | aligi/wsgi.py:49 | a comprehension over items with distinct keys keeps every item's value |
| PyDict.PutAllFresh | aligi/wsgi.py:49 | a comprehension over items with distinct keys is those items, in order |
| PyDict.AsMap | aligi.py:149 | the dict as a map has the same keys and each key's dict value |
| Base64.EncodeLength | aligi.py:199 | `b64encode` yields four characters per started group of three bytes |
| Base64.DecodeEncode | aligi.py:199 | decoding the encoded body gives back the bytes |
| Base64.EncodeDecode | aligi.py:103 | a string the strict decoder accepts is the encoding of what it decodes to |
| Base64.DecodeSucceedsOnEncodings | aligi.py:102-103 | the strict decoder succeeds exactly on strings that are some encoding |
| Base64.IndexOf | aligi.py:103 | a character with a 6-bit value is the alphabet character for that value, and the pad character has none |
| Base64.IndexOfCharOf | aligi.py:103 | every alphabet character is read back as its own 6-bit value |
| Utf8.Encode | aligi.py:104 | `encode("utf8")` takes one to four bytes per character |
| Utf8.DecodeEncode | aligi.py:104 | decoding the UTF-8 encoding of the body string gives back the string |
| Utf8.DecodeFirstEncodeChar | aligi.py:104 | the decoder reads back exactly the character the encoder wrote and its byte count |
| Utf8.EncodeAscii | aligi.py:104 | ASCII text encodes to one byte per character with the same code |
| Utf8.EncodeAppend | aligi.py:104 | encoding distributes over concatenation |
| RequestView.UpperKeyedKeys | aligi.py:88-90 | the upper-cased header dict has exactly the upper-cased event header names |
| RequestView.UpperKeyedLastWins | aligi.py:90 | each upper-cased entry holds the value of an event header with that name that no later header matching it ignoring case shadows |
| RequestView.UpperKeyedUnique | aligi/core.py:17 | a header no other header matches ignoring case keeps its value under its upper-cased name |
| RequestView.QueryString | aligi.py:145 | the query string starts with `?`, and is exactly `?` when there are no query parameters |
| RequestView.QueryStringLength | aligi/core.py:37 | the query string is one `?`, every key, `=` and value, and one `&` between consecutive pairs |
| RequestView.QueryStringRoundTrip | aligi/core.py:35-37 | when no key holds `=` or `&` and no value holds `&`, parsing the query string gives back the pairs in order |
| RequestView.QueryStringIsLossy | aligi/core.py:37 | without percent-encoding two different query dicts give the same string |
| RequestView.DecodeBody | aligi.py:100-104 | a text body becomes bytes that UTF-8-decode to it; a Base64 body fails exactly when it does not decode, and otherwise re-encodes to the body; the only failure is `Base64Error` |
| Single.Request.Header | aligi.py:88-90 | the header keys are exactly the upper-cased event header names |
| Single.HttpHeadersKeys | aligi.py:126 | the `HTTP_*` keys are exactly `HTTP_` + each event header name upper-cased with `-` made `_` |
| Single.HttpHeadersLastWins | aligi.py:126 | a converted key is present exactly when some upper-cased header converts to it, and holds the value of the last such header in the upper-cased dict, by the independent last-write-wins definition |
| Single.HttpHeadersArePrefixed | aligi.py:126 | every key of the `headers` dict starts with `HTTP_` |
| Single.FixedKeysAreNotPrefixed | aligi.py:127-148 | the literal has eighteen keys, none starting with `HTTP_` |
| Single.UpdateWithHeaders | aligi.py:149 | `environ.update(headers)` with disjoint keys keeps every fixed entry and adds every header entry |
| Single.EnvironParts | aligi.py:126-149 | the environ is the fixed entries plus the `headers` dict, and the two key sets are disjoint |
| Single.EnvironKeys | aligi.py:122-150 | the environ fails exactly on a bad Base64 body, with `Base64Error`; otherwise its keys are the eighteen fixed keys and one per converted header name |
| Single.FixedConstants | aligi.py:132-143 | the literal holds the WSGI and server constants |
| Single.EnvironConstants | aligi.py:132-143 | the environ holds the WSGI version, scheme, error stream, flags, server name, port, protocol and empty script name |
| Single.FixedRequestValues | aligi.py:129-145 | the literal holds the context, the path twice, the body stream at offset 0, the method and the query string |
| Single.EnvironRequestValues | aligi.py:129-145 | the environ holds the context, the path as `fc.request_uri` and `PATH_INFO`, the body stream at 0, the upper-cased method and the rebuilt query string |
| Single.EnvironContentHeaders | aligi.py:146-147 | `CONTENT_TYPE` and `CONTENT_LENGTH` equal the `HTTP_CONTENT_TYPE` and `HTTP_CONTENT_LENGTH` entries, or are empty; such an entry exists exactly when some header name converts to it |
| Single.ContentTypeHyphenated | aligi.py:126 | a header named `Content-Type` becomes `HTTP_CONTENT_TYPE` |
| Single.ContentTypeUnderscored | aligi.py:126 | a header named `content_type` also becomes `HTTP_CONTENT_TYPE` |
| Single.HttpHeadersFrom | aligi.py:126 | each `headers` entry holds the value of an upper-cased header that converts to its key, and of the only such header when there is one |
| Single.EnvironHeaderValue | aligi.py:126-149 | every `HTTP_*` entry holds the value of some event header whose name converts to that key |
| Single.SoleUpperKey | aligi.py:90 | a header whose converted key no other header shares keeps its value under its upper-cased name, and no other upper-cased key converts to that key |
| Single.HttpHeadersUnique | aligi.py:126 | a header whose converted key no other header shares is in the `headers` dict with its own value |
| Single.EnvironHeaderUnique | aligi.py:126-149 | a header whose converted key no other header shares appears in the environ with its own value |
| Single.BuildEnviron | aligi.py:122-150 | `build_environ` with its in-place update yields the environ `EnvironOf` specifies |
| Single.WSGI.constructor | aligi.py:179-181 | the wrapper keeps the application |
| Single.WSGI.Call | aligi.py:183-203 | a plain WSGI call is passed to the application untouched; a gateway call yields the outcome `Handle` specifies |
| Single.GatewayReplyBody | aligi.py:195-203 | a successful gateway reply is flagged Base64, and its body decodes to the application's chunks joined in order |
| Single.GatewayErrors | aligi.py:191-203 | a gateway invocation fails exactly on a bad Base64 body or a status with no integer prefix |
| Single.ExampleGetRequest | aligi.py:142-147 | a GET with one `Content-Type` header and no query gives `REQUEST_METHOD` `GET`, that content type and the query string `?` |
| Capture.StatusPrefix | aligi.py:166 | `status[:3]` is the first three characters, or the whole status when it is shorter |
| Capture.ParseStatus | aligi.py:166 | a parsed status code is below 1000 |
| Capture.ParseStatusIsInt | aligi.py:166 | the status parses exactly when its prefix is a non-empty run of ASCII digits; the code is that prefix's decimal value, read from the first three characters |
| Capture.ParseStatusLine | aligi.py:166 | the code of any three-digit status line is read back |
| Capture.OkStatus | aligi.py:166 | `"200 OK"` gives 200 |
| Capture.ReplyData.constructor | aligi.py:192 | the reply dict starts empty |
| Capture.ReplyData.StartResponse | aligi.py:158-169 | a call fails exactly when the status has no integer prefix, and then leaves the dict unchanged; otherwise the dict is updated as `Record` says |
| Capture.ReplyData.Complete | aligi.py:197-202 | the final update adds the Base64 body and the flag as `Finish` says |
| Capture.Respond | aligi/wsgi.py:92-101 | running the calls in order against a fresh reply dict, then adding the body, yields `Assemble` of the application result |
| Capture.ReplayFailureSticks | aligi.py:164-169 | once a `start_response` call has raised, the later calls do not change the outcome |
| Capture.ReplayStepFails | aligi.py:164-166 | one more call fails exactly when the earlier ones did or its own status has no integer prefix |
| Capture.ReplayFailsOnBadStatus | aligi.py:166 | the calls fail exactly when some status has no integer prefix |
| Capture.ReplayErrorNamesFirstBadStatus | aligi.py:166 | the error names the first status with no integer prefix |
| Capture.ReplyHeadersLastWins | aligi.py:167 | the reply's header dict has exactly the names the application passed, each with the value of its last header of that name |
| Capture.RepeatedHeaderCollapses | aligi.py:167 | two headers of one name, such as two `Set-Cookie` lines, leave only the second |
| Capture.RecordOverwrites | aligi.py:164-169 | a second call replaces both values in place and keeps `statusCode` before `headers` |
| Capture.ReplayLastCallWins | aligi.py:164-169 | after successful calls the reply holds exactly the last call's status code and header dict |
| Capture.ReplayIgnoresExcInfo | aligi.py:158-160 | calls that differ only in `exc_info` give the same result |
| Capture.AssembleWithoutStartResponse | aligi.py:192-202 | an application that never calls `start_response` gets a reply with only `body` and `isBase64Encoded`, and no error |
| Capture.AssembleAfterStartResponse | aligi.py:192-202 | after successful calls the reply is the last status code and headers, then the body and the flag |
| Capture.AssembleBody | aligi.py:197-202 | the reply's body decodes to the chunks joined in yield order, and the flag is true |
| Capture.OneCallReply | aligi.py:164-169 | one successful call gives that call's status code and headers, then the body and the flag |
| Capture.ExampleOkReply | aligi.py:164-202 | `start_response("200 OK", headers)` gives status 200, the header dict unchanged, the Base64 body and the flag |
| Core.Request.constructor | aligi/core.py:10-17 | the header field is the defaults updated with the upper-cased event headers |
| Core.Request.Header | aligi/core.py:27-29 | the header dict always holds `CONTENT-TYPE` and `CONTENT-LENGTH` |
| Core.Request.Body | aligi/core.py:43-47 | the body fails exactly on a bad Base64 body; it otherwise UTF-8-decodes to the text body or re-encodes to the Base64 body |
| Core.TextItemsKeys | aligi/core.py:17 | wrapping the values keeps the keys |
| Core.HeaderKeys | aligi/core.py:13-17 | the header keys are the two content keys and the upper-cased event header names |
| Core.DefaultsPresent | aligi/core.py:13-17 | the two content keys are always present |
| Core.HeaderFromEvent | aligi/core.py:17 | a name among the upper-cased headers holds the value of the last event header with that name in any case |
| Core.PutAllDistinctText | aligi/core.py:17 | wrapping the upper-cased headers as text leaves each name's value as the last value for that name |
| Core.HeaderDefaults | aligi/core.py:13-16 | with no Content-Type header in any case the default `text/plain` stays, and likewise `0` for Content-Length |
| Core.HeaderDefaultReplaced | aligi/core.py:13-17 | a Content-Type or Content-Length header that no other header matches replaces the default |
| Package.HttpItemsDistinct | aligi/wsgi.py:49 | the prefixed keys are distinct because the header keys are |
| Package.HttpItemsKeys | aligi/wsgi.py:49 | the prefixed keys are exactly `HTTP_` + each header name |
| Package.HeaderEnvironEntries | aligi/wsgi.py:49 | the header entries are one `HTTP_` key per header, holding its value |
| Package.ReservedKeysAreNotPrefixed | aligi/wsgi.py:26-47 | no `wsgi.*` or CGI key starts with `HTTP_` |
| Package.ReservedKeysAreDisjoint | aligi/wsgi.py:26-47 | the `wsgi.*` keys and the CGI keys are disjoint |
| Package.LayerKeys | aligi/wsgi.py:26-47 | the literal has the seven `wsgi.*` keys and the first update the nine CGI keys |
| Package.DisjointUpdates | aligi/wsgi.py:36-49 | three updates with disjoint keys leave each key with its one layer's value |
| Package.LayeredEntries | aligi/wsgi.py:26-49 | the environ has exactly the reserved keys and the prefixed header keys, each with its layer's value |
| Package.CgiValues | aligi/wsgi.py:37-47 | the first update holds the method, path, query string, content values and server constants |
| Package.EnvironKeys | aligi/wsgi.py:23-50 | the environ fails exactly on a bad Base64 body, with `Base64Error`; otherwise its keys are the reserved keys and one `HTTP_` key per header entry, always including `HTTP_CONTENT-TYPE` and `HTTP_CONTENT-LENGTH` |
| Package.EnvironContentHeaders | aligi/wsgi.py:42-43 | `CONTENT_TYPE` and `CONTENT_LENGTH` are the header dict's values and equal the `HTTP_CONTENT-*` entries; they are `text/plain` and `0` when no event header has those names |
| Package.EnvironRequestValues | aligi/wsgi.py:38-46 | the environ holds the upper-cased method, the path, the rebuilt query string and the server constants |
| Package.WsgiValues | aligi/wsgi.py:26-34 | the literal holds the WSGI version, scheme, body stream at 0, error stream and flags |
| Package.EnvironConstants | aligi/wsgi.py:26-34 | the environ holds the WSGI version, scheme, body stream at 0, error stream and flags |
| Package.EnvironHeaders | aligi/wsgi.py:49 | every header entry appears under `HTTP_` + its name with its value |
| Package.BuildEnviron | aligi/wsgi.py:23-50 | `build_environ` on a constructed request, with its in-place updates, yields the environ `EnvironOf` specifies |
| Package.WSGI.constructor | aligi/wsgi.py:79-81 | the wrapper keeps the application |
| Package.WSGI.Call | aligi/wsgi.py:83-102 | a plain WSGI call is passed to the application untouched; a gateway call yields the outcome `Handle` specifies |
| Package.GatewayReplyBody | aligi/wsgi.py:95-102 | a successful gateway reply is flagged Base64, and its body decodes to the chunks joined in order |
| Package.GatewayReplyWithoutStatus | aligi/wsgi.py:92-101 | an application that never calls `start_response` gets a reply with only the body and the flag |
| Package.GatewayErrors | aligi/wsgi.py:91-102 | a gateway invocation fails exactly on a bad Base64 body or a status with no integer prefix |
| Package.ExampleGetRequest | aligi/wsgi.py:38-43 | a GET with one `Content-Type` header and no query gives `REQUEST_METHOD` `GET`, that content type in place of the default, and the query string `?` |

What the code does where PEP 3333 or RFC 3875 would lead a reader to expect otherwise:

- A gateway reply with no `start_response` call succeeds with only `body` and `isBase64Encoded` (`Capture.AssembleWithoutStartResponse`).
  - PEP 3333 has the application call `start_response` before the body is used.
  - Neither version checks that it did.
- `exc_info` is accepted and ignored (`Capture.ReplayIgnoresExcInfo`).
  - PEP 3333 asks `start_response` to re-raise it once headers are sent, and to reject a second call made without it.
  - Here a second call simply overwrites the first (`Capture.RecordOverwrites`, `Capture.ReplayLastCallWins`).
- Content-Type and Content-Length headers appear both as `CONTENT_TYPE`/`CONTENT_LENGTH` and as `HTTP_*` entries in both versions (`Single.EnvironContentHeaders`, `Package.EnvironKeys`).
  - Section 4.1.18 of RFC 3875 lets a server leave out such duplicates; this code keeps them.
- The package version keeps `-` in the `HTTP_*` keys, e.g. `HTTP_CONTENT-TYPE` (`Package.HttpItemsKeys`, `Package.EnvironKeys`).
  - Section 4.1.18 of RFC 3875 replaces `-` with `_`, as `aligi.py` does.
- In the package version `CONTENT_TYPE` and `CONTENT_LENGTH` default to `text/plain` and the integer `0` (`Package.EnvironContentHeaders`).
  - In `aligi.py` they default to `""`.
- In `aligi.py` a header spelled `content_type` also feeds `CONTENT_TYPE` (`Single.ContentTypeUnderscored`).
- In `aligi.py` two header names that differ only in `-` versus `_` share one `HTTP_*` key.
  - It holds the value of the name later in the upper-cased header dict (`Single.HttpHeadersLastWins`).

## Left out

- JSON parsing of the event and `json.dumps` of the reply are not modelled.
  - The event is an already-parsed `Event`, and the reply is the dict handed to `json.dumps`.
  - A missing event field (`KeyError`) and invalid JSON are therefore not modelled.
- Event mappings are typed as string-to-string dicts.
  - Non-string query values, which `f"{k}={v}"` would format, are not modelled.
- The context object is opaque.
  - `print_type` and the typing declarations (`Credentials`, `FCContext`, `aligi/types.py`) are not part of this model.
- The `Errors`/`ErrorWriter` sinks are no-ops and are modelled only as the `ErrorStream` environ value.
- Single.WSGI.constructor and Package.WSGI.constructor do not take the `errors` argument of `WSGI(app, errors)`.
  - Every environ holds the same `ErrorStream` value.
  - A caller-supplied error sink, and its flow into `wsgi.errors`, is not modelled.
- `io.BytesIO(request.body)` is modelled as the body bytes with read position 0. Reading from the stream is not modelled.
- The application is modelled as a function from the environ to its `start_response` calls and body chunks.
  - An application that raises, or reads the environ lazily between chunks, is not modelled.
  - Every `ValueError` that `start_response` raises on a non-integer status ends the invocation.
  - An application that catches that error and calls `start_response` again gets a reply in Python, which the model does not capture.
- Capture.ReplayFailureSticks relies on the assumption that an application never catches the `start_response` error.
- Capture.ReplayFailsOnBadStatus relies on the same assumption.
- Single.GatewayErrors and Package.GatewayErrors rely on it too, in their direction from a bad status to failure.
- Bytes.Join takes byte-string chunks only.
  - A `str` chunk, which the source's `WSGIApp` type allows, makes `b"".join` raise `TypeError`.
  - That error path is not modelled.
- Concurrency is not modelled.
- Single.WSGI.Call and Package.WSGI.Call choose the branch by `isinstance(..., str)`.
  - `Invocation` models only two shapes: an environ (`WsgiCall`) and a `str` event already parsed (`GatewayCall`).
  - A JSON event passed as `bytes` is not a `str`, so the source hands it to the application untranslated, as if it were an environ.
  - That routing is not modelled.
- Single.WSGI.Call and Package.WSGI.Call: in a plain WSGI call, the host's own `start_response` is passed on but not modelled.
- Capture.ParseStatus accepts only ASCII digits. Python's `int()` also accepts the following, which are not modelled:
  - surrounding whitespace;
  - a sign;
  - `_` separators;
  - non-ASCII digits, e.g. `" 20"`, `"+20"`, `"2_0"`.
- Base64.Decode is strict.
  - It fails on any string that is not a canonical encoding.
  - `base64.b64decode` also discards non-alphabet characters and accepts non-zero pad bits, which the model does not.
- RequestView.DecodeBody inherits the strict Base64 decoder from `Base64.Decode`.
- Ascii.Upper upper-cases ASCII letters only. Python's `str.upper` also maps non-ASCII letters (and `ß` to `SS`), which is not modelled.
- Utf8.Encode encodes every `char` as its scalar value.
  - `str.encode` raises on lone surrogates.
  - Dafny strings hold no lone surrogates, so the model has no such error path.
- `Single.Request.Path`, `Query` and `Param`, and the same accessors of `Core.Request`, are plain field reads with no contract.
  - `Method` in both versions is `Ascii.Upper` of the event's method, and `Ascii.Upper` states what it promises.
  - `Single.Request.Body` is stated by `RequestView.DecodeBody`.
  - `Core.Request.QueryString` is stated by `RequestView.QueryString`.
- The environ is a map. Its insertion order is not modelled, since PEP 3333 does not observe it.
- Dict order is modelled for the header dicts, the query parameters and the reply.

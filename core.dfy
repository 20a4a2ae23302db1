/** `aligi.core.HTTPRequest` of the package version: the header dict is
    built once, in the constructor, from two defaults updated with the
    upper-cased event headers. */
module Core {
  import opened Wrappers
  import opened Bytes
  import opened PyDict
  import opened Ascii
  import opened Types
  import opened RequestView

  /** `{"CONTENT-TYPE": "text/plain", "CONTENT-LENGTH": 0}`. */
  function DefaultHeader(): Dict<HeaderValue> {
    [("CONTENT-TYPE", Text("text/plain")), ("CONTENT-LENGTH", Number(0))]
  }

  function TextItems(h: seq<(string, string)>): (r: seq<(string, HeaderValue)>)
    ensures |r| == |h|
    ensures forall i :: 0 <= i < |h| ==> r[i] == (h[i].0, Text(h[i].1))
  {
    seq(|h|, i requires 0 <= i < |h| => (h[i].0, Text(h[i].1)))
  }

  /** The header dict the constructor leaves behind. */
  function HeaderOf(event: Event): Dict<HeaderValue> {
    PutAll(DefaultHeader(), TextItems(UpperKeyed(event.headers)))
  }

  class Request {
    const event: Event
    const context: Context
    var header: Dict<HeaderValue>

    /** The field `_header` is what the constructor built. */
    ghost predicate Valid()
      reads this
    {
      header == HeaderOf(event)
    }

    /** `__init__`: store the event and context, start `_header` from the
        defaults, then `_header.update` it with the upper-cased headers. */
    constructor (event: Event, context: Context)
      ensures this.event == event && this.context == context
      ensures Valid()
    {
      this.event := event;
      this.context := context;
      header := [("CONTENT-TYPE", Text("text/plain")), ("CONTENT-LENGTH", Number(0))];
      new;
      header := PutAll(header, TextItems(UpperKeyed(event.headers)));
    }

    function Path(): string {
      event.path
    }

    /** `method`: the HTTP method upper-cased. */
    function Method(): string {
      Upper(event.httpMethod)
    }

    /** `header`: always holds the two content keys. */
    function Header(): (r: Dict<HeaderValue>)
      reads this
      requires Valid()
      ensures "CONTENT-TYPE" in Keys(r) && "CONTENT-LENGTH" in Keys(r)
    {
      DefaultsPresent(event);
      header
    }

    function Query(): Dict<string> {
      event.queryParameters
    }

    function QueryString(): string {
      RequestView.QueryString(Query())
    }

    function Param(): Dict<string> {
      event.pathParameters
    }

    /** `body`: the UTF-8 bytes of the body string, or its Base64 decoding,
        which re-encodes to the body. */
    function Body(): (r: Result<seq<byte>, Error>)
      ensures r.Failure? <==> event.isBase64Encoded && Base64.Decode(event.body).None?
      ensures r.Success? && !event.isBase64Encoded ==> Utf8.Decode(r.value) == Some(event.body)
      ensures r.Success? && event.isBase64Encoded ==> Base64.Encode(r.value) == event.body
    {
      DecodeBody(event.body, event.isBase64Encoded)
    }
  }

  lemma {:induction false} TextItemsKeys(h: seq<(string, string)>)
    ensures Keys(TextItems(h)) == Keys(h)
  {
    var t := TextItems(h);
    forall k | k in Keys(t) ensures k in Keys(h) {
      var i :| 0 <= i < |t| && t[i].0 == k;
    }
    forall k | k in Keys(h) ensures k in Keys(t) {
      var i :| 0 <= i < |h| && h[i].0 == k;
      assert t[i].0 == k;
    }
  }

  /** The header keys are the two content keys and the upper-cased event
      header names. */
  lemma HeaderKeys(event: Event)
    ensures Keys(HeaderOf(event)) == {"CONTENT-TYPE", "CONTENT-LENGTH"} + set k | k in Keys(event.headers) :: Upper(k)
  {
    var upper := UpperKeyed(event.headers);
    PutAllKeys(DefaultHeader(), TextItems(upper));
    TextItemsKeys(upper);
    UpperKeyedKeys(event.headers);
    assert Keys(DefaultHeader()) == {"CONTENT-TYPE", "CONTENT-LENGTH"} by {
      assert DefaultHeader()[0].0 == "CONTENT-TYPE" && DefaultHeader()[1].0 == "CONTENT-LENGTH";
    }
  }

  /** The two content keys are always present. */
  lemma DefaultsPresent(event: Event)
    ensures "CONTENT-TYPE" in Keys(HeaderOf(event)) && "CONTENT-LENGTH" in Keys(HeaderOf(event))
  {
    HeaderKeys(event);
  }

  /** A name among the upper-cased event headers holds the value of the
      last event header with that name in any case, replacing a default. */
  lemma HeaderFromEvent(event: Event, name: string)
    requires name in Keys(UpperKeyed(event.headers))
    ensures exists i :: 0 <= i < |event.headers| && Upper(event.headers[i].0) == name &&
              Get(HeaderOf(event), name) == Some(Text(event.headers[i].1)) &&
              forall j :: i < j < |event.headers| ==> !EqualIgnoringCase(event.headers[j].0, event.headers[i].0)
  {
    var upper := UpperKeyed(event.headers);
    var items := TextItems(upper);
    UpperKeyedLastWins(event.headers, name);
    PutAllLastWins(DefaultHeader(), items, name);
    PutAllDistinctText(upper, name);
  }

  /** The `Text`-wrapped items of a dict: the last item with a key is the
      dict's entry. */
  lemma PutAllDistinctText(upper: Dict<string>, name: string)
    requires name in Keys(upper)
    ensures LastValue(TextItems(upper), name) == Some(Text(Get(upper, name).value))
  {
    var items := TextItems(upper);
    TextItemsKeys(upper);
    LastValueIsLastItem(items, name);
    var p :| 0 <= p < |items| && items[p] == (name, LastValue(items, name).value) &&
             forall j :: p < j < |items| ==> items[j].0 != name;
    GetAt(upper, p);
  }

  /** With no event header named Content-Type (in any case) the default
      `text/plain` stays, and likewise `0` for Content-Length. */
  lemma HeaderDefaults(event: Event)
    ensures "CONTENT-TYPE" !in Keys(UpperKeyed(event.headers)) ==>
              Get(HeaderOf(event), "CONTENT-TYPE") == Some(Text("text/plain"))
    ensures "CONTENT-LENGTH" !in Keys(UpperKeyed(event.headers)) ==>
              Get(HeaderOf(event), "CONTENT-LENGTH") == Some(Number(0))
  {
    var upper := UpperKeyed(event.headers);
    var items := TextItems(upper);
    TextItemsKeys(upper);
    LastValueIsLastItem(items, "CONTENT-TYPE");
    LastValueIsLastItem(items, "CONTENT-LENGTH");
    PutAllLastWins(DefaultHeader(), items, "CONTENT-TYPE");
    PutAllLastWins(DefaultHeader(), items, "CONTENT-LENGTH");
    GetAt(DefaultHeader(), 0);
    GetAt(DefaultHeader(), 1);
  }

  /** An event header named Content-Type in some case replaces the
      default; so does one named Content-Length. */
  lemma HeaderDefaultReplaced(event: Event, i: nat)
    requires i < |event.headers| && Upper(event.headers[i].0) in {"CONTENT-TYPE", "CONTENT-LENGTH"}
    requires forall j :: 0 <= j < |event.headers| && j != i ==> !EqualIgnoringCase(event.headers[j].0, event.headers[i].0)
    ensures Get(HeaderOf(event), Upper(event.headers[i].0)) == Some(Text(event.headers[i].1))
  {
    var name := Upper(event.headers[i].0);
    UpperKeyedUnique(event.headers, i);
    PutAllLastWins(DefaultHeader(), TextItems(UpperKeyed(event.headers)), name);
    PutAllDistinctText(UpperKeyed(event.headers), name);
  }
}

/** The request view both versions of `HTTPRequest` derive from the gateway
    event: the upper-cased header dict, the rebuilt query string and the
    decoded body. */
module RequestView {
  import opened Wrappers
  import opened Bytes
  import opened PyDict
  import opened Ascii
  import opened Types
  import Base64
  import Utf8

  /** The items of `{k.upper(): v for k, v in headers.items()}`, before the
      comprehension collapses equal keys. */
  function UpperItems<V>(h: seq<(string, V)>): (r: seq<(string, V)>)
    ensures |r| == |h|
    ensures forall i :: 0 <= i < |h| ==> r[i] == (Upper(h[i].0), h[i].1)
  {
    seq(|h|, i requires 0 <= i < |h| => (Upper(h[i].0), h[i].1))
  }

  /** `{k.upper(): v for k, v in headers.items()}`. */
  function UpperKeyed(h: Dict<string>): Dict<string> {
    PutAll([], UpperItems(h))
  }

  /** The upper-cased dict has exactly the upper-cased event keys. */
  lemma UpperKeyedKeys(h: Dict<string>)
    ensures Keys(UpperKeyed(h)) == set k | k in Keys(h) :: Upper(k)
  {
    var items := UpperItems(h);
    PutAllKeys([], items);
    forall x | x in Keys(items) ensures x in set k | k in Keys(h) :: Upper(k) {
      var i :| 0 <= i < |items| && items[i].0 == x;
      assert h[i].0 in Keys(h);
    }
    forall k | k in Keys(h) ensures Upper(k) in Keys(items) {
      var i :| 0 <= i < |h| && h[i].0 == k;
      assert items[i].0 == Upper(k);
    }
  }

  /** Each entry of the upper-cased dict holds the value of an event header
      with that upper-cased name that no later header shadows: of keys that
      differ only in case, the later one wins. */
  lemma UpperKeyedLastWins(h: Dict<string>, name: string)
    requires name in Keys(UpperKeyed(h))
    ensures exists i :: 0 <= i < |h| && Upper(h[i].0) == name &&
              Get(UpperKeyed(h), name) == Some(h[i].1) &&
              forall j :: i < j < |h| ==> !EqualIgnoringCase(h[j].0, h[i].0)
  {
    var items := UpperItems(h);
    PutAllLastWins([], items, name);
    LastValueIsLastItem(items, name);
    var i :| 0 <= i < |items| && items[i] == (name, LastValue(items, name).value) &&
             forall j :: i < j < |items| ==> items[j].0 != name;
    forall j | i < j < |h|
      ensures !EqualIgnoringCase(h[j].0, h[i].0)
    {
      UpperCollapses(h[j].0, h[i].0);
      assert items[j].0 != name;
    }
  }

  /** A header whose name no other header matches ignoring case keeps its
      value under its upper-cased name. */
  lemma UpperKeyedUnique(h: Dict<string>, i: nat)
    requires i < |h|
    requires forall j :: 0 <= j < |h| && j != i ==> !EqualIgnoringCase(h[j].0, h[i].0)
    ensures Get(UpperKeyed(h), Upper(h[i].0)) == Some(h[i].1)
  {
    UpperKeyedKeys(h);
    assert h[i].0 in Keys(h);
    var name := Upper(h[i].0);
    UpperKeyedLastWins(h, name);
    var i' :| 0 <= i' < |h| && Upper(h[i'].0) == name && Get(UpperKeyed(h), name) == Some(h[i'].1) &&
              forall j :: i' < j < |h| ==> !EqualIgnoringCase(h[j].0, h[i'].0);
    UpperCollapses(h[i'].0, h[i].0);
  }

  /** `f"{k}={v}"`. */
  function Item(p: (string, string)): string {
    p.0 + "=" + p.1
  }

  /** `"&".join(f"{k}={v}" for k, v in query.items())`. */
  function Joined(q: seq<(string, string)>): string {
    if |q| == 0 then ""
    else if |q| == 1 then Item(q[0])
    else Item(q[0]) + "&" + Joined(q[1..])
  }

  /** `"?" + "&".join([f"{k}={v}" for k, v in query.items()])`: no
      percent-encoding, pairs in the dict's order. */
  function QueryString(q: Dict<string>): (r: string)
    ensures |r| >= 1 && r[0] == '?'
    ensures |q| == 0 <==> r == "?"
  {
    "?" + Joined(q)
  }

  /** Reference count of the characters the pairs contribute. */
  function PairsLength(q: seq<(string, string)>): nat {
    if |q| == 0 then 0 else |q[0].0| + 1 + |q[0].1| + PairsLength(q[1..])
  }

  lemma {:induction false} JoinedLength(q: seq<(string, string)>)
    ensures |Joined(q)| == PairsLength(q) + (if |q| == 0 then 0 else |q| - 1)
  {
    if |q| > 1 {
      JoinedLength(q[1..]);
    }
  }

  /** The query string is one `?`, each key, `=` and value, and one `&`
      between consecutive pairs. */
  lemma QueryStringLength(q: Dict<string>)
    ensures |QueryString(q)| == 1 + PairsLength(q) + (if |q| == 0 then 0 else |q| - 1)
  {
    JoinedLength(q);
  }

  /** Index of the first `c` in `t`, or `|t|` if there is none. */
  function FirstIndex(t: string, c: char): (i: nat)
    ensures i <= |t|
    ensures forall j :: 0 <= j < i ==> t[j] != c
    ensures i < |t| ==> t[i] == c
  {
    if |t| == 0 then 0 else if t[0] == c then 0 else 1 + FirstIndex(t[1..], c)
  }

  /** `t.split(c)`. */
  function Split(t: string, c: char): seq<string>
    decreases |t|
  {
    var i := FirstIndex(t, c);
    if i == |t| then [t] else [t[..i]] + Split(t[i + 1..], c)
  }

  /** `k, _, v = piece.partition("=")`. */
  function ParseItem(piece: string): (string, string) {
    var i := FirstIndex(piece, '=');
    (piece[..i], if i < |piece| then piece[i + 1..] else "")
  }

  /** Reads a query string back into its pairs: the inverse of
      `QueryString` where that one loses nothing. */
  function ParseQuery(s: string): seq<(string, string)> {
    if |s| <= 1 then []
    else
      var pieces := Split(s[1..], '&');
      seq(|pieces|, i requires 0 <= i < |pieces| => ParseItem(pieces[i]))
  }

  /** Keys free of `=` and `&`, values free of `&`: the pairs the unencoded
      join can carry without loss. */
  predicate Plain(q: seq<(string, string)>) {
    forall i :: 0 <= i < |q| ==> '=' !in q[i].0 && '&' !in q[i].0 && '&' !in q[i].1
  }

  lemma ParseItemOf(p: (string, string))
    requires '=' !in p.0
    ensures ParseItem(Item(p)) == p
  {
    var t := Item(p);
    assert t[|p.0|] == '=';
    assert forall j :: 0 <= j < |p.0| ==> t[j] == p.0[j];
    assert FirstIndex(t, '=') == |p.0|;
    assert t[..|p.0|] == p.0;
    assert t[|p.0| + 1..] == p.1;
  }

  lemma ItemHasNoAmpersand(p: (string, string))
    requires '&' !in p.0 && '&' !in p.1
    ensures '&' !in Item(p)
  {
    var t := Item(p);
    forall j | 0 <= j < |t| ensures t[j] != '&' {
      if j < |p.0| { assert t[j] == p.0[j]; }
      else if j > |p.0| { assert t[j] == p.1[j - |p.0| - 1]; }
    }
  }

  lemma SplitCons(first: string, rest: string)
    requires '&' !in first
    ensures Split(first + "&" + rest, '&') == [first] + Split(rest, '&')
  {
    var t := first + "&" + rest;
    assert t[|first|] == '&';
    assert forall j :: 0 <= j < |first| ==> t[j] == first[j];
    assert FirstIndex(t, '&') == |first|;
    assert t[..|first|] == first;
    assert t[|first| + 1..] == rest;
  }

  lemma SplitSingle(t: string)
    requires '&' !in t
    ensures Split(t, '&') == [t]
  {
    assert FirstIndex(t, '&') == |t|;
  }

  lemma {:induction false} SplitJoined(q: seq<(string, string)>)
    requires |q| > 0 && Plain(q)
    ensures Split(Joined(q), '&') == seq(|q|, i requires 0 <= i < |q| => Item(q[i]))
  {
    ItemHasNoAmpersand(q[0]);
    if |q| == 1 {
      SplitSingle(Item(q[0]));
    } else {
      SplitCons(Item(q[0]), Joined(q[1..]));
      assert Plain(q[1..]) by {
        forall i | 0 <= i < |q[1..]| ensures '=' !in q[1..][i].0 && '&' !in q[1..][i].0 && '&' !in q[1..][i].1 {
          assert q[1..][i] == q[i + 1];
        }
      }
      SplitJoined(q[1..]);
    }
  }

  /** The query string loses nothing when keys have no `=` or `&` and values
      no `&`: parsing it gives back the pairs, in order. */
  lemma QueryStringRoundTrip(q: Dict<string>)
    requires Plain(q)
    ensures ParseQuery(QueryString(q)) == q
  {
    var s := QueryString(q);
    if |q| > 0 {
      assert s[1..] == Joined(q);
      assert |Joined(q)| > 0 by {
        JoinedLength(q);
      }
      SplitJoined(q);
      var pieces := Split(s[1..], '&');
      forall i | 0 <= i < |q| ensures ParseItem(pieces[i]) == q[i] {
        ParseItemOf(q[i]);
      }
    }
  }

  /** Without encoding, different query dicts can give the same string. */
  lemma QueryStringIsLossy()
    ensures QueryString([("a", "b&c=d")]) == QueryString([("a", "b"), ("c", "d")])
  {
    assert Joined([("a", "b"), ("c", "d")]) == "a=b" + "&" + "c=d";
  }

  /** The `body` property: Base64-decoded when the event says so, otherwise
      the UTF-8 encoding of the body string. */
  function DecodeBody(body: string, isBase64Encoded: bool): (r: Result<seq<byte>, Error>)
    ensures !isBase64Encoded ==> r.Success? && Utf8.Decode(r.value) == Some(body)
    ensures isBase64Encoded ==> (r.Success? <==> Base64.Decode(body).Some?)
    ensures isBase64Encoded && r.Success? ==> Base64.Encode(r.value) == body
    ensures r.Failure? ==> r.error == Base64Error
  {
    if isBase64Encoded then
      match Base64.Decode(body)
      case Some(b) => Base64.EncodeDecode(body); Success(b)
      case None => Failure(Base64Error)
    else
      Utf8.DecodeEncode(body);
      Success(Utf8.Encode(body))
  }
}

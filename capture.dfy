/** `create_start_response` and the assembly of the reply dict, which
    behave the same in both versions: the `start_response` closure writes the
    status code and header dict into the shared reply dict, and after the
    application is done the Base64 body and the `isBase64Encoded` flag are
    added. */
module Capture {
  import opened Wrappers
  import opened Bytes
  import opened PyDict
  import opened Ascii
  import opened Types
  import Base64

  /** `status[:3]`. */
  function StatusPrefix(status: string): (p: string)
    ensures |p| <= 3 && |p| <= |status| && p == status[..|p|]
    ensures |p| == 3 || p == status
  {
    if |status| < 3 then status else status[..3]
  }

  lemma DecimalBound(p: string)
    requires AllDigits(p) && |p| <= 3
    ensures DecimalValue(p) < 1000
    ensures |p| == 3 ==> DecimalValue(p) == 100 * DigitValue(p[0]) + 10 * DigitValue(p[1]) + DigitValue(p[2])
  {
    if |p| > 0 {
      var q := p[..|p| - 1];
      if |q| > 0 {
        var r := q[..|q| - 1];
        if |r| > 0 {
          assert r[..|r| - 1] == [];
        }
      }
    }
  }

  /** `int(status[:3])`: the prefix is at most three characters long, so
      its test for ASCII digits is written out position by position; None
      where `int()` raises ValueError. */
  function ParseStatus(status: string): (r: Option<nat>)
    ensures r.Some? ==> r.value < 1000
  {
    var p := StatusPrefix(status);
    if |p| > 0 && IsDigit(p[0]) && (|p| < 2 || IsDigit(p[1])) && (|p| < 3 || IsDigit(p[2])) then
      assert AllDigits(p);
      DecimalBound(p);
      Some(DecimalValue(p))
    else None
  }

  /** The status is read as `int()` reads a string of ASCII digits: it
      parses exactly when its (at most three-character) prefix is a
      non-empty run of digits, the value is the decimal value of that
      prefix, and a status of three or more characters is read from its
      first three. */
  lemma ParseStatusIsInt(status: string)
    ensures ParseStatus(status).Some? <==> |StatusPrefix(status)| > 0 && AllDigits(StatusPrefix(status))
    ensures ParseStatus(status).Some? ==> ParseStatus(status).value == DecimalValue(StatusPrefix(status))
    ensures ParseStatus(status).Some? && |status| >= 3 ==>
              ParseStatus(status).value == 100 * DigitValue(status[0]) + 10 * DigitValue(status[1]) + DigitValue(status[2])
  {
    var p := StatusPrefix(status);
    if |p| > 0 && AllDigits(p) {
      DecimalBound(p);
    }
  }

  /** A status line as applications write it, e.g. "200 OK". */
  function StatusLine(code: nat, reason: string): string
    requires code < 1000
  {
    [DigitChar(code / 100), DigitChar((code / 10) % 10), DigitChar(code % 10)] + " " + reason
  }

  /** The status code of any three-digit status line is read back. */
  lemma ParseStatusLine(code: nat, reason: string)
    requires code < 1000
    ensures ParseStatus(StatusLine(code, reason)) == Some(code)
  {
    var s := StatusLine(code, reason);
    assert AllDigits(StatusPrefix(s)) by {
      assert StatusPrefix(s) == s[..3];
    }
    ParseStatusIsInt(s);
    assert DigitValue(s[0]) == code / 100 && DigitValue(s[1]) == (code / 10) % 10 && DigitValue(s[2]) == code % 10;
    ThreeDigits(code);
  }

  lemma ThreeDigits(code: nat)
    requires code < 1000
    ensures 100 * (code / 100) + 10 * ((code / 10) % 10) + code % 10 == code
  {
  }

  /** One `start_response(status, headers, exc_info)` call applied to the
      reply dict: `data.update({"statusCode": int(status[:3]), "headers":
      {h[0]: h[1] for h in headers}})`. `exc_info` is not looked at. */
  function Record(data: Reply, call: StartCall): Result<Reply, Error> {
    match ParseStatus(call.status)
    case None => Failure(StatusNotInteger(call.status))
    case Some(code) =>
      Success(PutAll(data, [("statusCode", JInt(code)), ("headers", JHeaders(PutAll([], call.headers)))]))
  }

  /** The reply dict after the application's `start_response` calls, in
      order, starting from the empty dict. */
  function Replay(calls: seq<StartCall>): Result<Reply, Error> {
    if |calls| == 0 then Success([])
    else
      match Replay(calls[..|calls| - 1])
      case Failure(e) => Failure(e)
      case Success(d) => Record(d, calls[|calls| - 1])
  }

  /** The final `resp_dict.update({"body": b64encode(b"".join(body)).decode(),
      "isBase64Encoded": True})`. */
  function Finish(data: Reply, chunks: seq<seq<byte>>): Reply {
    PutAll(data, BodyEntries(chunks))
  }

  function BodyEntries(chunks: seq<seq<byte>>): Reply {
    [("body", JString(Base64.Encode(Join(chunks)))), ("isBase64Encoded", JBool(true))]
  }

  /** The reply dict for an application result, or the exception that
      escapes. */
  function Assemble(result: AppResult): Result<Reply, Error> {
    match Replay(result.calls)
    case Failure(e) => Failure(e)
    case Success(d) => Success(Finish(d, result.chunks))
  }

  /** `resp_dict`, shared by the `start_response` closure and `__call__`. */
  class ReplyData {
    var data: Reply

    constructor ()
      ensures data == []
    {
      data := [];
    }

    /** The closure `create_start_response(resp_dict)` returns. A status
        whose prefix is not an integer raises before the dict changes. */
    method StartResponse(status: string, headers: seq<(string, string)>, excInfo: ExcInfo)
      returns (error: Option<Error>)
      modifies this
      ensures error.None? <==> ParseStatus(status).Some?
      ensures error.None? ==> Record(old(data), StartCall(status, headers, excInfo)) == Success(data)
      ensures error.Some? ==>
                Record(old(data), StartCall(status, headers, excInfo)) == Failure(error.value) && data == old(data)
    {
      var code := ParseStatus(status);
      if code.None? {
        return Some(StatusNotInteger(status));
      }
      var headerDict := PutAll([], headers);
      data := PutAll(data, [("statusCode", JInt(code.value)), ("headers", JHeaders(headerDict))]);
      return None;
    }

    method Complete(chunks: seq<seq<byte>>)
      modifies this
      ensures data == Finish(old(data), chunks)
    {
      var body := Join(chunks);
      data := PutAll(data, [("body", JString(Base64.Encode(body))), ("isBase64Encoded", JBool(true))]);
    }
  }

  /** Once a `start_response` call has raised, the invocation's outcome is
      that exception, whatever calls would have followed. */
  lemma {:induction false} ReplayFailureSticks(calls: seq<StartCall>, i: nat)
    requires i <= |calls| && Replay(calls[..i]).Failure?
    ensures Replay(calls) == Replay(calls[..i])
    decreases |calls| - i
  {
    if i < |calls| {
      assert calls[..i + 1][..i] == calls[..i];
      ReplayFailureSticks(calls, i + 1);
    } else {
      assert calls[..i] == calls;
    }
  }

  /** Runs the application's `start_response` calls against a fresh reply
      dict, in order, then adds the body: `__call__` from `resp_dict = {}`
      to the final update. */
  method Respond(result: AppResult) returns (r: Result<Reply, Error>)
    ensures r == Assemble(result)
  {
    var reply := new ReplyData();
    var i := 0;
    while i < |result.calls|
      invariant 0 <= i <= |result.calls|
      invariant Replay(result.calls[..i]) == Success(reply.data)
    {
      var call := result.calls[i];
      assert result.calls[..i + 1][..i] == result.calls[..i];
      var error := reply.StartResponse(call.status, call.headers, call.excInfo);
      if error.Some? {
        ReplayFailureSticks(result.calls, i + 1);
        return Failure(error.value);
      }
      i := i + 1;
    }
    assert result.calls[..i] == result.calls;
    reply.Complete(result.chunks);
    r := Success(reply.data);
  }

  function StatusEntries(call: StartCall, code: nat): Reply {
    [("statusCode", JInt(code)), ("headers", JHeaders(PutAll([], call.headers)))]
  }

  /** The reply's header dict holds each header name once, with the value
      of the last header of that name the application passed. */
  lemma ReplyHeadersLastWins(headers: seq<(string, string)>, name: string)
    ensures Get(PutAll([], headers), name).Some? <==> name in Keys(headers)
    ensures Get(PutAll([], headers), name) == LastValue(headers, name)
  {
    PutAllLastWins([], headers, name);
    LastValueIsLastItem(headers, name);
  }

  /** Two headers of the same name, such as two `Set-Cookie` lines, leave
      only the second. */
  lemma RepeatedHeaderCollapses(name: string, first: string, second: string)
    ensures PutAll([], [(name, first), (name, second)]) == [(name, second)]
  {
    var items := [(name, first), (name, second)];
    assert items[..1] == [(name, first)];
    assert PutAll([], items[..1]) == [(name, first)];
    var r := PutAll([], items);
    assert r == Put([(name, first)], name, second);
    assert |r| == 1 && r[0].0 == name;
    GetAt(r, 0);
  }

  /** Putting two new keys appends them in order. */
  lemma PutTwoNew<V>(d: Dict<V>, items: seq<(string, V)>)
    requires |items| == 2 && items[0].0 != items[1].0
    requires items[0].0 !in Keys(d) && items[1].0 !in Keys(d)
    ensures PutAll(d, items) == d + items
  {
    assert items[..1] == [items[0]];
    assert PutAll(d, items[..1]) == d + [items[0]];
    assert items[1].0 !in Keys(d + [items[0]]);
  }

  /** Putting both keys of a two-entry dict keeps their order and replaces
      both values. */
  lemma RecordOverwrites(old_: Reply, call: StartCall, code: nat)
    requires ParseStatus(call.status) == Some(code)
    requires |old_| == 2 && old_[0].0 == "statusCode" && old_[1].0 == "headers"
    ensures Record(old_, call) == Success(StatusEntries(call, code))
  {
    var items := [("statusCode", JInt(code)), ("headers", JHeaders(PutAll([], call.headers)))];
    var r := PutAll(old_, items);
    assert items[..1] == [items[0]];
    var mid := Put(old_, "statusCode", JInt(code));
    assert PutAll(old_, items[..1]) == mid;
    assert r == Put(mid, "headers", JHeaders(PutAll([], call.headers)));
    assert "statusCode" in Keys(old_) && "headers" in Keys(mid);
    GetAt(r, 0);
    GetAt(r, 1);
    assert r == StatusEntries(call, code);
  }

  /** The reply dict after one or more successful `start_response` calls
      holds exactly the status code and header dict of the LAST call, with
      `statusCode` before `headers`: each call overwrites the previous one. */
  lemma {:induction false} ReplayLastCallWins(calls: seq<StartCall>)
    requires |calls| > 0 && Replay(calls).Success?
    ensures ParseStatus(calls[|calls| - 1].status).Some?
    ensures Replay(calls) == Success(StatusEntries(calls[|calls| - 1], ParseStatus(calls[|calls| - 1].status).value))
  {
    var n := |calls| - 1;
    var last := calls[n];
    if n == 0 {
      var code := ParseStatus(last.status).value;
      assert calls[..n] == [];
      assert Replay(calls[..n]) == Success([]);
      PutTwoNew([], StatusEntries(last, code));
      var e: Reply := [];
      assert e + StatusEntries(last, code) == StatusEntries(last, code);
      assert Record([], last) == Success(PutAll([], StatusEntries(last, code)));
      assert Replay(calls) == Record([], last);
    } else {
      ReplayLastCallWins(calls[..n]);
      var prev := calls[..n][n - 1];
      RecordOverwrites(StatusEntries(prev, ParseStatus(prev.status).value), last, ParseStatus(last.status).value);
    }
  }

  /** Some call's status has no integer prefix. */
  predicate HasBadStatus(calls: seq<StartCall>) {
    exists i :: 0 <= i < |calls| && ParseStatus(calls[i].status).None?
  }

  /** The calls fail exactly when some status has no integer prefix. */
  lemma {:induction false} ReplayFailsOnBadStatus(calls: seq<StartCall>)
    ensures Replay(calls).Failure? <==> HasBadStatus(calls)
  {
    if |calls| > 0 {
      ReplayFailsOnBadStatus(calls[..|calls| - 1]);
      ReplayStepFails(calls);
      BadStatusSplit(calls);
    }
  }

  /** One more call fails the replay exactly when the earlier calls did or
      its own status has no integer prefix. */
  lemma ReplayStepFails(calls: seq<StartCall>)
    requires |calls| > 0
    ensures Replay(calls).Failure? <==>
              Replay(calls[..|calls| - 1]).Failure? || ParseStatus(calls[|calls| - 1].status).None?
  {
  }

  lemma BadStatusSplit(calls: seq<StartCall>)
    requires |calls| > 0
    ensures HasBadStatus(calls) <==>
              HasBadStatus(calls[..|calls| - 1]) || ParseStatus(calls[|calls| - 1].status).None?
  {
    var n := |calls| - 1;
    var prefix := calls[..n];
    if HasBadStatus(prefix) {
      var i :| 0 <= i < n && ParseStatus(prefix[i].status).None?;
      assert calls[i] == prefix[i];
    }
    if HasBadStatus(calls) {
      var i :| 0 <= i < |calls| && ParseStatus(calls[i].status).None?;
      if i < n {
        assert prefix[i] == calls[i];
      }
    }
  }

  /** The error raised names the first status with no integer prefix. */
  lemma ReplayErrorNamesFirstBadStatus(calls: seq<StartCall>, i: nat)
    requires i < |calls| && ParseStatus(calls[i].status).None?
    requires forall j :: 0 <= j < i ==> ParseStatus(calls[j].status).Some?
    ensures Replay(calls) == Failure(StatusNotInteger(calls[i].status))
  {
    var next := calls[..i + 1];
    NoBadStatusBefore(calls, i);
    ReplayFailsOnBadStatus(next[..i]);
    ReplayFailureSticks(calls, i + 1);
  }

  lemma NoBadStatusBefore(calls: seq<StartCall>, i: nat)
    requires i < |calls|
    requires forall j :: 0 <= j < i ==> ParseStatus(calls[j].status).Some?
    ensures !HasBadStatus(calls[..i + 1][..i]) && calls[..i + 1][i] == calls[i]
  {
    var prefix := calls[..i + 1][..i];
    forall j | 0 <= j < i ensures ParseStatus(prefix[j].status).Some? {
      assert prefix[j] == calls[j];
    }
  }

  predicate SameStartCalls(calls: seq<StartCall>, others: seq<StartCall>) {
    |calls| == |others| &&
    forall i :: 0 <= i < |calls| ==> calls[i].status == others[i].status && calls[i].headers == others[i].headers
  }

  /** `exc_info` has no effect: calls that differ only in it leave the same
      reply dict (or raise the same error). */
  lemma {:induction false} ReplayIgnoresExcInfo(calls: seq<StartCall>, others: seq<StartCall>)
    requires SameStartCalls(calls, others)
    ensures Replay(calls) == Replay(others)
  {
    if |calls| > 0 {
      var n := |calls| - 1;
      assert SameStartCalls(calls[..n], others[..n]) by {
        forall i | 0 <= i < n
          ensures calls[..n][i].status == others[..n][i].status && calls[..n][i].headers == others[..n][i].headers
        {
          assert calls[..n][i] == calls[i] && others[..n][i] == others[i];
        }
      }
      ReplayIgnoresExcInfo(calls[..n], others[..n]);
    }
  }

  /** If the application never calls `start_response`, the reply has only
      `body` and `isBase64Encoded`, and nothing is raised. */
  lemma AssembleWithoutStartResponse(result: AppResult)
    requires |result.calls| == 0
    ensures Assemble(result) == Success(BodyEntries(result.chunks))
  {
    var items := [("body", JString(Base64.Encode(Join(result.chunks)))), ("isBase64Encoded", JBool(true))];
    assert Replay(result.calls) == Success([]);
    PutTwoNew([], items);
    var e: Reply := [];
    assert e + items == items;
    assert Finish([], result.chunks) == PutAll([], items);
  }

  /** After successful `start_response` calls the reply is, in this order,
      the last call's status code and headers, the Base64 body and
      `isBase64Encoded: true`. */
  lemma AssembleAfterStartResponse(result: AppResult)
    requires |result.calls| > 0 && Replay(result.calls).Success?
    ensures var last := result.calls[|result.calls| - 1];
            ParseStatus(last.status).Some? &&
            Assemble(result) == Success(StatusEntries(last, ParseStatus(last.status).value) + BodyEntries(result.chunks))
  {
    ReplayLastCallWins(result.calls);
    var d := Replay(result.calls).value;
    var items := [("body", JString(Base64.Encode(Join(result.chunks)))), ("isBase64Encoded", JBool(true))];
    assert Keys(d) == {"statusCode", "headers"};
    PutTwoNew(d, items);
  }

  /** The reply body decodes back to the chunks joined in yield order, and
      the flag says it is Base64. */
  lemma AssembleBody(result: AppResult)
    requires Assemble(result).Success?
    ensures var reply := Assemble(result).value;
            Get(reply, "isBase64Encoded") == Some(JBool(true)) &&
            Get(reply, "body").Some? && Get(reply, "body").value.JString? &&
            Base64.Decode(Get(reply, "body").value.text) == Some(Join(result.chunks))
  {
    var d := Replay(result.calls).value;
    var items := [("body", JString(Base64.Encode(Join(result.chunks)))), ("isBase64Encoded", JBool(true))];
    var reply := Assemble(result).value;
    PutAllLastWins(d, items, "body");
    PutAllLastWins(d, items, "isBase64Encoded");
    Base64.DecodeEncode(Join(result.chunks));
  }

  /** One successful `start_response` call: its status and headers, then
      the body and the flag. */
  lemma OneCallReply(call: StartCall, code: nat, chunks: seq<seq<byte>>)
    requires ParseStatus(call.status) == Some(code)
    ensures Assemble(AppResult([call], chunks)) == Success(StatusEntries(call, code) + BodyEntries(chunks))
  {
    var result := AppResult([call], chunks);
    assert result.calls[..0] == [];
    assert Replay(result.calls).Success?;
    AssembleAfterStartResponse(result);
  }

  lemma OkStatus()
    ensures ParseStatus("200 OK") == Some(200)
  {
    assert StatusLine(200, "OK") == "200 OK";
    ParseStatusLine(200, "OK");
  }

  /** An application that calls `start_response("200 OK", headers)` once
      gets status 200, its header dict unchanged, then the body and the
      flag. */
  lemma ExampleOkReply(headers: Dict<string>, chunks: seq<seq<byte>>, excInfo: ExcInfo)
    ensures Assemble(AppResult([StartCall("200 OK", headers, excInfo)], chunks)) ==
            Success([("statusCode", JInt(200)), ("headers", JHeaders(headers)),
                     ("body", JString(Base64.Encode(Join(chunks)))), ("isBase64Encoded", JBool(true))])
  {
    var call := StartCall("200 OK", headers, excInfo);
    OkStatus();
    OneCallReply(call, 200, chunks);
    PutAllFresh(headers);
    var status, body := [("statusCode", JInt(200)), ("headers", JHeaders(headers))], BodyEntries(chunks);
    assert status + body == [status[0], status[1], body[0], body[1]];
  }
}

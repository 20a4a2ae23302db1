/** Base64 with the standard alphabet and `=` padding (section 4 of
    RFC 4648): `base64.b64encode` and a strict `base64.b64decode` that
    accepts exactly the canonical encodings. */
module Base64 {
  import opened Wrappers
  import opened Bytes

  /** The character for a 6-bit value. */
  function CharOf(n: nat): char
    requires n < 64
  {
    if n < 26 then ('A' as int + n) as char
    else if n < 52 then ('a' as int + (n - 26)) as char
    else if n < 62 then ('0' as int + (n - 52)) as char
    else if n == 62 then '+'
    else '/'
  }

  /** The 6-bit value of an alphabet character; None for anything else,
      including the pad character `=`. */
  function IndexOf(c: char): (r: Option<nat>)
    ensures r.Some? ==> r.value < 64 && CharOf(r.value) == c
    ensures c == '=' ==> r.None?
  {
    if 'A' <= c <= 'Z' then Some(c as int - 'A' as int)
    else if 'a' <= c <= 'z' then Some(c as int - 'a' as int + 26)
    else if '0' <= c <= '9' then Some(c as int - '0' as int + 52)
    else if c == '+' then Some(62)
    else if c == '/' then Some(63)
    else None
  }

  lemma IndexOfCharOf(n: nat)
    requires n < 64
    ensures IndexOf(CharOf(n)) == Some(n)
  {
  }

  /** Three bytes make four characters. */
  function EncodeBlock(b0: byte, b1: byte, b2: byte): string {
    Sextets(b0 as int, b1 as int, b2 as int)
  }

  function Sextets(b0: int, b1: int, b2: int): string
    requires 0 <= b0 < 256 && 0 <= b1 < 256 && 0 <= b2 < 256
  {
    [CharOf(b0 / 4), CharOf((b0 % 4) * 16 + b1 / 16), CharOf((b1 % 16) * 4 + b2 / 64), CharOf(b2 % 64)]
  }

  /** `base64.b64encode(b).decode()`. */
  function Encode(b: seq<byte>): (s: string)
    decreases |b|
  {
    if |b| == 0 then []
    else if |b| == 1 then Sextets(b[0] as int, 0, 0)[..2] + "=="
    else if |b| == 2 then Sextets(b[0] as int, b[1] as int, 0)[..3] + "="
    else EncodeBlock(b[0], b[1], b[2]) + Encode(b[3..])
  }

  /** Every three bytes, and a last partial group of one or two, become
      four characters. */
  lemma {:induction false} EncodeLength(b: seq<byte>)
    ensures |Encode(b)| == 4 * ((|b| + 2) / 3)
    decreases |b|
  {
    if |b| >= 3 {
      EncodeLength(b[3..]);
      assert (|b| + 2) / 3 == (|b[3..]| + 2) / 3 + 1;
    }
  }

  /** Four alphabet characters make three bytes. */
  function DecodeBlock(a: char, b: char, c: char, d: char): Option<seq<byte>> {
    if IndexOf(a).Some? && IndexOf(b).Some? && IndexOf(c).Some? && IndexOf(d).Some? then
      Some(Octets(IndexOf(a).value, IndexOf(b).value, IndexOf(c).value, IndexOf(d).value))
    else None
  }

  function Octets(x0: nat, x1: nat, x2: nat, x3: nat): seq<byte>
    requires x0 < 64 && x1 < 64 && x2 < 64 && x3 < 64
  {
    [(x0 * 4 + x1 / 16) as byte, ((x1 % 16) * 16 + x2 / 4) as byte, ((x2 % 4) * 64 + x3) as byte]
  }

  /** The last quantum may carry one or two pad characters; the bits the
      padding drops must be zero. */
  function DecodeFinal(a: char, b: char, c: char, d: char): Option<seq<byte>> {
    if c == '=' && d == '=' then
      if IndexOf(a).Some? && IndexOf(b).Some? && IndexOf(b).value % 16 == 0 then
        Some(Octets(IndexOf(a).value, IndexOf(b).value, 0, 0)[..1])
      else None
    else if d == '=' then
      if IndexOf(a).Some? && IndexOf(b).Some? && IndexOf(c).Some? && IndexOf(c).value % 4 == 0 then
        Some(Octets(IndexOf(a).value, IndexOf(b).value, IndexOf(c).value, 0)[..2])
      else None
    else DecodeBlock(a, b, c, d)
  }

  /** `base64.b64decode(s)` on canonical input; None where Python raises and
      also on the non-canonical inputs Python would tolerate. */
  function Decode(s: string): (r: Option<seq<byte>>)
    decreases |s|
  {
    if |s| == 0 then Some([])
    else if |s| < 4 then None
    else if |s| == 4 then DecodeFinal(s[0], s[1], s[2], s[3])
    else
      match DecodeBlock(s[0], s[1], s[2], s[3])
      case None => None
      case Some(head) =>
        match Decode(s[4..])
        case None => None
        case Some(tail) => Some(head + tail)
  }

  /** Splitting three bytes into four sextets and joining them back is the identity. */
  lemma BytesToSextetsAndBack(b0: int, b1: int, b2: int)
    requires 0 <= b0 < 256 && 0 <= b1 < 256 && 0 <= b2 < 256
    ensures var x0, x1, x2, x3 := b0 / 4, (b0 % 4) * 16 + b1 / 16, (b1 % 16) * 4 + b2 / 64, b2 % 64;
            x0 < 64 && x1 < 64 && x2 < 64 && x3 < 64 &&
            x0 * 4 + x1 / 16 == b0 && (x1 % 16) * 16 + x2 / 4 == b1 && (x2 % 4) * 64 + x3 == b2
  {
    var q0, r0 := b0 / 4, b0 % 4;
    var q1, r1 := b1 / 16, b1 % 16;
    var q2, r2 := b2 / 64, b2 % 64;
    assert b0 == 4 * q0 + r0 && b1 == 16 * q1 + r1 && b2 == 64 * q2 + r2;
    var x1 := r0 * 16 + q1;
    assert x1 / 16 == r0 && x1 % 16 == q1;
    var x2 := r1 * 4 + q2;
    assert x2 / 4 == r1 && x2 % 4 == q2;
  }

  /** Joining four sextets into three bytes and splitting them again is the identity. */
  lemma SextetsToBytesAndBack(x0: nat, x1: nat, x2: nat, x3: nat)
    requires x0 < 64 && x1 < 64 && x2 < 64 && x3 < 64
    ensures var b0, b1, b2 := x0 * 4 + x1 / 16, (x1 % 16) * 16 + x2 / 4, (x2 % 4) * 64 + x3;
            b0 < 256 && b1 < 256 && b2 < 256 &&
            b0 / 4 == x0 && (b0 % 4) * 16 + b1 / 16 == x1 && (b1 % 16) * 4 + b2 / 64 == x2 && b2 % 64 == x3
  {
    var q1, r1 := x1 / 16, x1 % 16;
    var q2, r2 := x2 / 4, x2 % 4;
    assert x1 == 16 * q1 + r1 && x2 == 4 * q2 + r2;
    var b0 := x0 * 4 + q1;
    assert b0 / 4 == x0 && b0 % 4 == q1;
    var b1 := r1 * 16 + q2;
    assert b1 / 16 == r1 && b1 % 16 == q2;
    var b2 := r2 * 64 + x3;
    assert b2 / 64 == r2 && b2 % 64 == x3;
  }

  /** The characters of `Sextets` decode to the sextets, and those to the bytes. */
  lemma SextetsDecode(b0: int, b1: int, b2: int)
    requires 0 <= b0 < 256 && 0 <= b1 < 256 && 0 <= b2 < 256
    ensures var t := Sextets(b0, b1, b2);
            IndexOf(t[0]).Some? && IndexOf(t[1]).Some? && IndexOf(t[2]).Some? && IndexOf(t[3]).Some? &&
            Octets(IndexOf(t[0]).value, IndexOf(t[1]).value, IndexOf(t[2]).value, IndexOf(t[3]).value)
              == [b0 as byte, b1 as byte, b2 as byte]
  {
    BytesToSextetsAndBack(b0, b1, b2);
    IndexOfCharOf(b0 / 4);
    IndexOfCharOf((b0 % 4) * 16 + b1 / 16);
    IndexOfCharOf((b1 % 16) * 4 + b2 / 64);
    IndexOfCharOf(b2 % 64);
  }

  /** Decoding a one- or two-byte final quantum. */
  lemma DecodeEncodeOne(b: seq<byte>)
    requires |b| == 1
    ensures Decode(Encode(b)) == Some(b)
  {
    var s := Encode(b);
    var t := Sextets(b[0] as int, 0, 0);
    assert s == t[..2] + "==";
    SextetsDecode(b[0] as int, 0, 0);
    assert IndexOf(t[1]).value % 16 == 0 by {
      BytesToSextetsAndBack(b[0] as int, 0, 0);
      IndexOfCharOf((b[0] as int % 4) * 16);
    }
    var x0, x1 := IndexOf(t[0]).value, IndexOf(t[1]).value;
    assert Octets(x0, x1, 0, 0)[0] == Octets(x0, x1, IndexOf(t[2]).value, IndexOf(t[3]).value)[0] == b[0];
    assert Octets(x0, x1, 0, 0)[..1] == [b[0]];
    assert s[0] == t[0] && s[1] == t[1] && s[2] == '=' && s[3] == '=';
    assert DecodeFinal(s[0], s[1], s[2], s[3]) == Some([b[0]]);
    assert Decode(s) == DecodeFinal(s[0], s[1], s[2], s[3]);
    assert b == [b[0]];
  }

  lemma DecodeEncodeTwo(b: seq<byte>)
    requires |b| == 2
    ensures Decode(Encode(b)) == Some(b)
  {
    var s := Encode(b);
    var t := Sextets(b[0] as int, b[1] as int, 0);
    assert s == t[..3] + "=";
    SextetsDecode(b[0] as int, b[1] as int, 0);
    assert IndexOf(t[2]).value % 4 == 0 by {
      BytesToSextetsAndBack(b[0] as int, b[1] as int, 0);
      IndexOfCharOf((b[1] as int % 16) * 4);
    }
    assert t[2] != '=' by {
      IndexOfCharOf((b[1] as int % 16) * 4);
    }
    var x0, x1, x2 := IndexOf(t[0]).value, IndexOf(t[1]).value, IndexOf(t[2]).value;
    var full := Octets(x0, x1, x2, IndexOf(t[3]).value);
    assert Octets(x0, x1, x2, 0)[..2] == full[..2] == [b[0], b[1]];
    assert Decode(s) == DecodeFinal(s[0], s[1], s[2], s[3]);
    assert b == [b[0], b[1]];
  }

  lemma EncodeUnfold(b: seq<byte>)
    requires |b| >= 3
    ensures Encode(b) == EncodeBlock(b[0], b[1], b[2]) + Encode(b[3..])
  {
  }

  lemma DecodeUnfold(s: string)
    requires |s| > 4
    requires DecodeBlock(s[0], s[1], s[2], s[3]).Some? && Decode(s[4..]).Some?
    ensures Decode(s) == Some(DecodeBlock(s[0], s[1], s[2], s[3]).value + Decode(s[4..]).value)
  {
  }

  /** The first quantum of an encoding of three or more bytes decodes to the first three bytes. */
  lemma FirstQuantum(b: seq<byte>)
    requires |b| >= 3
    ensures |Encode(b)| >= 4
    ensures DecodeBlock(Encode(b)[0], Encode(b)[1], Encode(b)[2], Encode(b)[3]) == Some(b[..3])
    ensures Encode(b)[4..] == Encode(b[3..])
    ensures Encode(b)[2] != '=' && Encode(b)[3] != '='
  {
    EncodeUnfold(b);
    SextetsDecode(b[0] as int, b[1] as int, b[2] as int);
    assert b[..3] == [b[0], b[1], b[2]];
  }

  /** Decoding an encoding gives back the bytes. */
  lemma {:induction false} DecodeEncode(b: seq<byte>)
    ensures Decode(Encode(b)) == Some(b)
    decreases |b|
  {
    if |b| == 1 {
      DecodeEncodeOne(b);
    } else if |b| == 2 {
      DecodeEncodeTwo(b);
    } else if |b| == 3 {
      FirstQuantum(b);
      var s := Encode(b);
      assert Decode(s) == DecodeFinal(s[0], s[1], s[2], s[3]);
      assert b[..3] == b;
    } else if |b| > 3 {
      DecodeEncode(b[3..]);
      FirstQuantum(b);
      var s := Encode(b);
      DecodeUnfold(s);
      assert b[..3] + b[3..] == b;
    }
  }

  /** Four sextets joined into bytes and split again give the same characters. */
  lemma OctetsEncode(x0: nat, x1: nat, x2: nat, x3: nat)
    requires x0 < 64 && x1 < 64 && x2 < 64 && x3 < 64
    ensures var v := Octets(x0, x1, x2, x3);
            Sextets(v[0] as int, v[1] as int, v[2] as int) == [CharOf(x0), CharOf(x1), CharOf(x2), CharOf(x3)]
  {
    var v := Octets(x0, x1, x2, x3);
    var b0, b1, b2 := x0 * 4 + x1 / 16, (x1 % 16) * 16 + x2 / 4, (x2 % 4) * 64 + x3;
    assert v[0] as int == b0 && v[1] as int == b1 && v[2] as int == b2;
    SextetsToBytesAndBack(x0, x1, x2, x3);
    assert b0 / 4 == x0;
    assert (b0 % 4) * 16 + b1 / 16 == x1;
    assert (b1 % 16) * 4 + b2 / 64 == x2;
    assert b2 % 64 == x3;
  }

  /** A full quantum re-encodes to itself. */
  lemma DecodeBlockRoundTrip(a: char, b: char, c: char, d: char)
    requires DecodeBlock(a, b, c, d).Some?
    ensures |DecodeBlock(a, b, c, d).value| == 3
    ensures var v := DecodeBlock(a, b, c, d).value; EncodeBlock(v[0], v[1], v[2]) == [a, b, c, d]
  {
    OctetsEncode(IndexOf(a).value, IndexOf(b).value, IndexOf(c).value, IndexOf(d).value);
  }

  /** A final quantum, padded or not, re-encodes to itself. */
  lemma DecodeFinalRoundTrip(a: char, b: char, c: char, d: char)
    requires DecodeFinal(a, b, c, d).Some?
    ensures 1 <= |DecodeFinal(a, b, c, d).value| <= 3
    ensures Encode(DecodeFinal(a, b, c, d).value) == [a, b, c, d]
  {
    var v := DecodeFinal(a, b, c, d).value;
    if c == '=' && d == '=' {
      var x0, x1 := IndexOf(a).value, IndexOf(b).value;
      OctetsEncode(x0, x1, 0, 0);
      assert CharOf(0) == 'A';
      assert Encode(v) == Sextets(v[0] as int, 0, 0)[..2] + "==";
      assert Octets(x0, x1, 0, 0)[1] == 0;
    } else if d == '=' {
      var x0, x1, x2 := IndexOf(a).value, IndexOf(b).value, IndexOf(c).value;
      OctetsEncode(x0, x1, x2, 0);
      assert Encode(v) == Sextets(v[0] as int, v[1] as int, 0)[..3] + "=";
      assert Octets(x0, x1, x2, 0)[2] == 0;
    } else {
      DecodeBlockRoundTrip(a, b, c, d);
      assert Encode(v) == EncodeBlock(v[0], v[1], v[2]) + Encode(v[3..]);
    }
  }

  /** A string the decoder accepts is the encoding of what it decodes to:
      the decoder accepts exactly the canonical encodings. */
  lemma {:induction false} EncodeDecode(s: string)
    requires Decode(s).Some?
    ensures Encode(Decode(s).value) == s
    decreases |s|
  {
    if |s| == 4 {
      DecodeFinalRoundTrip(s[0], s[1], s[2], s[3]);
      assert s == [s[0], s[1], s[2], s[3]];
    } else if |s| > 4 {
      EncodeDecodeStep(s);
    }
  }

  lemma {:induction false} EncodeDecodeStep(s: string)
    requires |s| > 4 && Decode(s).Some?
    ensures Encode(Decode(s).value) == s
    decreases |s|, 0
  {
    DecodeBlockRoundTrip(s[0], s[1], s[2], s[3]);
    var head := DecodeBlock(s[0], s[1], s[2], s[3]).value;
    var tail := Decode(s[4..]).value;
    EncodeDecode(s[4..]);
    var v := head + tail;
    assert Decode(s) == Some(v);
    assert v[3..] == tail && v[0] == head[0] && v[1] == head[1] && v[2] == head[2];
    EncodeUnfold(v);
    assert s == [s[0], s[1], s[2], s[3]] + s[4..];
  }

  /** Decoding succeeds exactly on the strings that are some encoding. */
  lemma DecodeSucceedsOnEncodings(s: string)
    ensures Decode(s).Some? <==> exists b :: Encode(b) == s
  {
    if Decode(s).Some? {
      EncodeDecode(s);
    }
    if exists b :: Encode(b) == s {
      var b :| Encode(b) == s;
      DecodeEncode(b);
    }
  }
}

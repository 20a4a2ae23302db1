/** Character-level helpers: `str.upper` restricted to ASCII, the
    `str.replace('-', '_')` used for environ keys, and decimal digits. */
module Ascii {

  predicate IsLower(c: char) {
    'a' <= c <= 'z'
  }

  predicate IsLetter(c: char) {
    'a' <= c <= 'z' || 'A' <= c <= 'Z'
  }

  function ToUpper(c: char): char {
    if IsLower(c) then (c as int - 32) as char else c
  }

  /** Two characters are the same letter up to ASCII case (or identical). */
  predicate SameIgnoringCase(x: char, y: char) {
    x == y || (IsLetter(x) && IsLetter(y) && (x as int - y as int == 32 || y as int - x as int == 32))
  }

  predicate EqualIgnoringCase(a: string, b: string) {
    |a| == |b| && forall i :: 0 <= i < |a| ==> SameIgnoringCase(a[i], b[i])
  }

  /** `s.upper()`: same length, no lower-case ASCII letter left, and each
      character is the original one up to case. */
  function Upper(s: string): (r: string)
    ensures |r| == |s|
    ensures forall i :: 0 <= i < |r| ==> !IsLower(r[i]) && SameIgnoringCase(s[i], r[i])
    ensures forall i :: 0 <= i < |r| && !IsLower(s[i]) ==> r[i] == s[i]
  {
    seq(|s|, i requires 0 <= i < |s| => ToUpper(s[i]))
  }

  /** Keys that differ only in ASCII case are exactly the keys that
      upper-case to the same string: this is why `k.upper()` collapses them. */
  lemma UpperCollapses(a: string, b: string)
    ensures Upper(a) == Upper(b) <==> EqualIgnoringCase(a, b)
  {
    if Upper(a) == Upper(b) {
      forall i | 0 <= i < |a|
        ensures SameIgnoringCase(a[i], b[i])
      {
        assert Upper(a)[i] == Upper(b)[i];
      }
    }
    if EqualIgnoringCase(a, b) {
      forall i | 0 <= i < |a|
        ensures Upper(a)[i] == Upper(b)[i]
      {
        assert SameIgnoringCase(a[i], b[i]);
      }
    }
  }

  /** `s.replace('-', '_')`. */
  function Underscored(s: string): (r: string)
    ensures |r| == |s|
    ensures forall i :: 0 <= i < |r| ==> r[i] != '-'
    ensures forall i :: 0 <= i < |r| ==> r[i] == (if s[i] == '-' then '_' else s[i])
  {
    seq(|s|, i requires 0 <= i < |s| => if s[i] == '-' then '_' else s[i])
  }

  predicate IsDigit(c: char) {
    '0' <= c <= '9'
  }

  function DigitValue(c: char): (d: nat)
    requires IsDigit(c)
    ensures d < 10
  {
    c as int - '0' as int
  }

  function DigitChar(d: nat): (c: char)
    requires d < 10
    ensures IsDigit(c) && DigitValue(c) == d
  {
    ('0' as int + d) as char
  }

  predicate AllDigits(s: string) {
    forall i :: 0 <= i < |s| ==> IsDigit(s[i])
  }

  /** The decimal value of a string of ASCII digits, most significant first. */
  function DecimalValue(s: string): (n: nat)
    requires AllDigits(s)
  {
    if |s| == 0 then 0 else DecimalValue(s[..|s| - 1]) * 10 + DigitValue(s[|s| - 1])
  }
}

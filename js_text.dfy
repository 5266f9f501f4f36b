/** The JavaScript string and number conversions the core relies on:
    `Number(s)`, `parseInt(s, 10)`, `isNaN`, decimal rendering of integers
    and `String.prototype.split` with a one-character separator. */
module JsText {
  import opened Common

  /** A JavaScript number as these conversions produce it (only integral values occur). */
  datatype NumValue = Num(v: int) | NaN

  predicate IsDigit(c: char) {
    '0' <= c <= '9'
  }

  predicate AllDigits(s: string) {
    forall k :: 0 <= k < |s| ==> IsDigit(s[k])
  }

  function DigitValue(c: char): (d: nat)
    requires IsDigit(c)
    ensures d < 10
  {
    c as int - '0' as int
  }

  function DigitChar(d: nat): (c: char)
    requires d < 10
    ensures IsDigit(c) && DigitValue(c) == d
  {
    (d + '0' as int) as char
  }

  /** The value of a string of decimal digits. */
  function DigitsValue(s: string): nat
    requires AllDigits(s)
  {
    if s == [] then 0 else 10 * DigitsValue(s[..|s| - 1]) + DigitValue(s[|s| - 1])
  }

  /** `String(n)` for a non-negative integer: decimal digits, no leading zero. */
  function NatToString(n: nat): (s: string)
    ensures |s| >= 1 && AllDigits(s)
    ensures |s| > 1 ==> s[0] != '0'
  {
    if n < 10 then [DigitChar(n)] else NatToString(n / 10) + [DigitChar(n % 10)]
  }

  lemma {:induction false} NatToStringRoundTrip(n: nat)
    ensures DigitsValue(NatToString(n)) == n
  {
    if n >= 10 {
      var s := NatToString(n);
      assert s[..|s| - 1] == NatToString(n / 10);
      NatToStringRoundTrip(n / 10);
    }
  }

  /** `Number(s)` on a string: white space around the text is ignored, the empty
      text is 0, an optionally signed run of decimal digits is its value and
      anything else is NaN (see README for the numeric forms not modelled). */
  function ToNumber(s: string): NumValue {
    var t := Trim(s);
    if t == [] then Num(0)
    else if AllDigits(t) then Num(DigitsValue(t))
    else if |t| > 1 && (t[0] == '-' || t[0] == '+') && AllDigits(t[1..]) then
      Num((if t[0] == '-' then 0 - DigitsValue(t[1..]) else DigitsValue(t[1..])) as int)
    else NaN
  }

  /** `Number` of a text of decimal digits is their value, and of a blank text 0. */
  lemma ToNumberOfDigits(s: string)
    ensures s != [] && AllDigits(s) ==> ToNumber(s) == Num(DigitsValue(s))
    ensures IsBlank(s) ==> ToNumber(s) == Num(0)
  {
    if s != [] && AllDigits(s) {
      assert !IsJsSpace(s[0]) && !IsJsSpace(s[|s| - 1]);
      assert TrimStart(s) == s;
      assert TrimEnd(s) == s;
    }
  }

  /** The global `isNaN` applied to a string. */
  predicate IsNaN(s: string) {
    ToNumber(s).NaN?
  }

  lemma ToNumberOfNat(n: nat)
    ensures ToNumber(NatToString(n)) == Num(n)
  {
    var s := NatToString(n);
    assert !IsBlank(s) by { assert !IsJsSpace(s[0]); }
    assert TrimStart(s) == s;
    assert TrimEnd(s) == s;
    NatToStringRoundTrip(n);
  }

  /** The longest prefix of `s` made of decimal digits. */
  function DigitPrefix(s: string): (p: string)
    ensures |p| <= |s| && p == s[..|p|] && AllDigits(p)
    ensures |p| < |s| ==> !IsDigit(s[|p|])
  {
    if s != [] && IsDigit(s[0]) then [s[0]] + DigitPrefix(s[1..]) else []
  }

  /** `parseInt(s, 10)`: leading white space, an optional sign, then the longest
      run of digits; NaN when there is no digit. */
  function ParseInt(s: string): (n: NumValue)
    ensures s != [] && AllDigits(s) ==> n == Num(DigitsValue(s))
    ensures IsBlank(s) ==> n == NaN
  {
    var t := TrimStart(s);
    var negative := t != [] && t[0] == '-';
    var body := if t != [] && (t[0] == '-' || t[0] == '+') then t[1..] else t;
    var digits := DigitPrefix(body);
    assert s != [] && AllDigits(s) ==> digits == s by {
      if s != [] && AllDigits(s) {
        assert !IsJsSpace(s[0]) && t == s;
        DigitPrefixOfDigits(s, []);
        assert s + [] == s;
      }
    }
    if digits == [] then NaN
    else Num(if negative then 0 - DigitsValue(digits) else DigitsValue(digits))
  }

  lemma ParseIntOfNat(n: nat, rest: string)
    requires rest == [] || !IsDigit(rest[0])
    ensures ParseInt(NatToString(n) + rest) == Num(n)
  {
    var s := NatToString(n);
    var t := s + rest;
    assert !IsJsSpace(t[0]) && t[0] == s[0];
    assert TrimStart(t) == t;
    DigitPrefixOfDigits(s, rest);
    NatToStringRoundTrip(n);
  }

  lemma {:induction false} DigitPrefixOfDigits(d: string, rest: string)
    requires AllDigits(d)
    requires rest == [] || !IsDigit(rest[0])
    ensures DigitPrefix(d + rest) == d
  {
    if d != [] {
      assert (d + rest)[1..] == d[1..] + rest;
      DigitPrefixOfDigits(d[1..], rest);
    } else {
      assert d + rest == rest;
    }
  }

  /** Joining the parts of a split with the separator again. */
  function Join(parts: seq<string>, sep: char): string
    requires |parts| >= 1
  {
    if |parts| == 1 then parts[0] else parts[0] + [sep] + Join(parts[1..], sep)
  }

  /** `s.split(sep)` for a one-character separator. */
  function Split(s: string, sep: char): (r: seq<string>)
    ensures |r| >= 1
    ensures forall k :: 0 <= k < |r| ==> sep !in r[k]
    ensures Join(r, sep) == s
    decreases |s|
  {
    var i := FindIndex(s, (c: char) => c == sep);
    if i < 0 then [s]
    else
      var rest := Split(s[i + 1..], sep);
      assert ([s[..i]] + rest)[1..] == rest;
      assert s == s[..i] + [sep] + s[i + 1..];
      [s[..i]] + rest
  }

  lemma SplitTwo(a: string, b: string, sep: char)
    requires sep !in a && sep !in b
    ensures Split(a + [sep] + b, sep) == [a, b]
  {
    var s := a + [sep] + b;
    var i := FindIndex(s, (c: char) => c == sep);
    assert s[|a|] == sep;
    assert forall j :: 0 <= j < |a| ==> s[j] == a[j];
    assert i == |a|;
    assert s[..i] == a;
    assert s[i + 1..] == b;
    assert FindIndex(b, (c: char) => c == sep) == -1;
  }

  lemma DigitsHaveNoLetter(s: string, c: char)
    requires AllDigits(s) && !IsDigit(c)
    ensures c !in s
  {
  }
}

/** The `Proxy-Authorization` credential of the HTTP proxy probe:
    `Buffer.from(user + ":" + password)` is the UTF-8 encoding of the text, and
    `.toString('base64')` is the base64 encoding of section 4 of RFC 4648
    (standard alphabet, `=` padding). The credential is the "Basic" scheme of
    section 2 of RFC 7617. */
module Base64 {
  import opened Common

  type byte = x: int | 0 <= x < 256
  type sextet = x: int | 0 <= x < 64

  /** The UTF-8 encoding of one Unicode scalar value. */
  function Utf8Char(c: char): (b: seq<byte>)
    ensures 1 <= |b| <= 4
    ensures (c as int) < 0x80 ==> b == [c as int]
  {
    var n := c as int;
    if n < 0x80 then [n]
    else if n < 0x800 then [0xC0 + n / 64, 0x80 + n % 64]
    else if n < 0x10000 then [0xE0 + n / 4096, 0x80 + (n / 64) % 64, 0x80 + n % 64]
    else [0xF0 + n / 262144, 0x80 + (n / 4096) % 64, 0x80 + (n / 64) % 64, 0x80 + n % 64]
  }

  /** `Buffer.from(s)`: the UTF-8 encoding of a string. */
  function Utf8(s: string): (b: seq<byte>)
    ensures |s| <= |b| <= 4 * |s|
  {
    if s == [] then [] else Utf8Char(s[0]) + Utf8(s[1..])
  }

  lemma {:induction false} Utf8Concat(a: string, b: string)
    ensures Utf8(a + b) == Utf8(a) + Utf8(b)
  {
    if a != [] {
      assert (a + b)[0] == a[0];
      assert (a + b)[1..] == a[1..] + b;
      Utf8Concat(a[1..], b);
    } else {
      assert a + b == b;
    }
  }

  predicate IsAscii(s: string) {
    forall k :: 0 <= k < |s| ==> (s[k] as int) < 0x80
  }

  lemma {:induction false} Utf8OfAscii(s: string)
    requires IsAscii(s)
    ensures |Utf8(s)| == |s|
    ensures forall k :: 0 <= k < |s| ==> Utf8(s)[k] == s[k] as int
  {
    if s != [] {
      Utf8OfAscii(s[1..]);
    }
  }

  /** The character of the base64 alphabet (Table 1 of RFC 4648) for a 6-bit value. */
  function SextetChar(v: sextet): char {
    if v < 26 then ('A' as int + v) as char
    else if v < 52 then ('a' as int + (v - 26)) as char
    else if v < 62 then ('0' as int + (v - 52)) as char
    else if v == 62 then '+'
    else '/'
  }

  /** The 6-bit value of a character of the alphabet; None for any other character. */
  function CharSextet(c: char): (r: Option<sextet>)
    ensures r.Some? ==> SextetChar(r.value) == c
  {
    if 'A' <= c <= 'Z' then Some(c as int - 'A' as int)
    else if 'a' <= c <= 'z' then Some(c as int - 'a' as int + 26)
    else if '0' <= c <= '9' then Some(c as int - '0' as int + 52)
    else if c == '+' then Some(62)
    else if c == '/' then Some(63)
    else None
  }

  lemma SextetRoundTrip(v: sextet)
    ensures CharSextet(SextetChar(v)) == Some(v)
  {
  }

  const Pad: char := '='

  /** Three bytes as four characters (section 4 of RFC 4648). */
  function EncodeTriple(b0: byte, b1: byte, b2: byte): string {
    [SextetChar(b0 / 4), SextetChar((b0 % 4) * 16 + b1 / 16),
     SextetChar((b1 % 16) * 4 + b2 / 64), SextetChar(b2 % 64)]
  }

  /** The final quantum of one byte: two characters and two pad characters. */
  function EncodeOne(b0: byte): string {
    [SextetChar(b0 / 4), SextetChar((b0 % 4) * 16), Pad, Pad]
  }

  /** The final quantum of two bytes: three characters and one pad character. */
  function EncodeTwo(b0: byte, b1: byte): string {
    [SextetChar(b0 / 4), SextetChar((b0 % 4) * 16 + b1 / 16), SextetChar((b1 % 16) * 4), Pad]
  }

  /** `Buffer.toString('base64')`. */
  function Encode(b: seq<byte>): (s: string)
    ensures |s| == 4 * ((|b| + 2) / 3)
    decreases |b|
  {
    if |b| == 0 then ""
    else if |b| == 1 then EncodeOne(b[0])
    else if |b| == 2 then EncodeTwo(b[0], b[1])
    else EncodeTriple(b[0], b[1], b[2]) + Encode(b[3..])
  }

  /** Decoding of padded base64 text; None when the text is not base64. */
  function Decode(s: string): Option<seq<byte>>
    decreases |s|
  {
    if s == [] then Some([])
    else if |s| < 4 then None
    else
      var c0, c1, c2, c3 := CharSextet(s[0]), CharSextet(s[1]), CharSextet(s[2]), CharSextet(s[3]);
      if c0.None? || c1.None? then None
      else if |s| == 4 && s[2] == Pad && s[3] == Pad then
        Some([c0.value * 4 + c1.value / 16])
      else if |s| == 4 && c2.Some? && s[3] == Pad then
        Some([c0.value * 4 + c1.value / 16, (c1.value % 16) * 16 + c2.value / 4])
      else if c2.None? || c3.None? then None
      else
        match Decode(s[4..])
        case None => None
        case Some(rest) =>
          Some([c0.value * 4 + c1.value / 16, (c1.value % 16) * 16 + c2.value / 4,
                (c2.value % 4) * 64 + c3.value] + rest)
  }

  lemma TripleBits(b0: byte, b1: byte, b2: byte)
    ensures (b0 / 4) * 4 + ((b0 % 4) * 16 + b1 / 16) / 16 == b0
    ensures (((b0 % 4) * 16 + b1 / 16) % 16) * 16 + ((b1 % 16) * 4 + b2 / 64) / 4 == b1
    ensures (((b1 % 16) * 4 + b2 / 64) % 4) * 64 + b2 % 64 == b2
  {
    assert ((b0 % 4) * 16 + b1 / 16) / 16 == b0 % 4;
    assert ((b0 % 4) * 16 + b1 / 16) % 16 == b1 / 16;
    assert ((b1 % 16) * 4 + b2 / 64) / 4 == b1 % 16;
    assert ((b1 % 16) * 4 + b2 / 64) % 4 == b2 / 64;
  }

  lemma DecodeOne(b0: byte)
    ensures Decode(EncodeOne(b0)) == Some([b0])
  {
    SextetRoundTrip(b0 / 4);
    SextetRoundTrip((b0 % 4) * 16);
    assert ((b0 % 4) * 16) / 16 == b0 % 4;
  }

  lemma DecodeTwo(b0: byte, b1: byte)
    ensures Decode(EncodeTwo(b0, b1)) == Some([b0, b1])
  {
    SextetRoundTrip(b0 / 4);
    SextetRoundTrip((b0 % 4) * 16 + b1 / 16);
    SextetRoundTrip((b1 % 16) * 4);
    TripleBits(b0, b1, 0);
  }

  lemma DecodeTriple(b0: byte, b1: byte, b2: byte, tail: string)
    ensures Decode(EncodeTriple(b0, b1, b2) + tail) ==
            match Decode(tail)
            case None => None
            case Some(rest) => Some([b0, b1, b2] + rest)
  {
    var s := EncodeTriple(b0, b1, b2) + tail;
    assert s[4..] == tail;
    SextetRoundTrip(b0 / 4);
    SextetRoundTrip((b0 % 4) * 16 + b1 / 16);
    SextetRoundTrip((b1 % 16) * 4 + b2 / 64);
    SextetRoundTrip(b2 % 64);
    TripleBits(b0, b1, b2);
    assert s[2] != Pad && s[3] != Pad;
  }

  lemma {:induction false} DecodeEncode(b: seq<byte>)
    ensures Decode(Encode(b)) == Some(b)
    decreases |b|
  {
    if |b| == 1 {
      DecodeOne(b[0]);
      assert b == [b[0]];
    } else if |b| == 2 {
      DecodeTwo(b[0], b[1]);
      assert b == [b[0], b[1]];
    } else if |b| > 2 {
      DecodeEncode(b[3..]);
      DecodeTriple(b[0], b[1], b[2], Encode(b[3..]));
      assert b == [b[0], b[1], b[2]] + b[3..];
    }
  }

  /** The `Proxy-Authorization` value for a user name and password (section 2 of RFC 7617). */
  function BasicCredentials(user: string, password: string): (v: string)
    ensures |v| > 6 && v[..6] == "Basic "
  {
    "Basic " + Encode(Utf8(user + ":" + password))
  }

  lemma BasicCredentialsDecode(user: string, password: string)
    ensures Decode(BasicCredentials(user, password)[6..]) == Some(Utf8(user) + [0x3A] + Utf8(password))
  {
    var text := user + ":" + password;
    var token := Encode(Utf8(text));
    assert BasicCredentials(user, password)[6..] == token;
    DecodeEncode(Utf8(text));
    calc {
      Utf8(text);
      { Utf8Concat(user + ":", password); }
      Utf8(user + ":") + Utf8(password);
      { Utf8Concat(user, ":"); }
      Utf8(user) + Utf8(":") + Utf8(password);
    }
    assert Utf8(":") == [0x3A];
  }
}

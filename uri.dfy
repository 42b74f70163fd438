/** `encodeURIComponent`, written out: every character outside the unreserved set
    of section 2.3 of RFC 3986 and the five marks ! ' ( ) * is replaced by the
    percent-encoding (section 2.1 of RFC 3986, upper-case hex digits) of each byte
    of its UTF-8 form (RFC 3629). `DecodeUriComponent` is its inverse, the way
    `decodeURIComponent` reads escapes back; the round trip is proved. */
module Uri {
  import opened Js

  type Byte = b: int | 0 <= b < 256

  /** Characters that `encodeURIComponent` leaves as they are. */
  predicate IsUnescaped(c: char) {
    || ('A' <= c <= 'Z') || ('a' <= c <= 'z') || ('0' <= c <= '9')
    || c == '-' || c == '_' || c == '.' || c == '~'
    || c == '!' || c == '\'' || c == '(' || c == ')' || c == '*'
  }

  function HexDigit(d: int): (c: char)
    requires 0 <= d < 16
    ensures IsUnescaped(c)
  {
    if d < 10 then ('0' as int + d) as char else ('A' as int + d - 10) as char
  }

  predicate IsHexDigit(c: char) {
    ('0' <= c <= '9') || ('A' <= c <= 'F') || ('a' <= c <= 'f')
  }

  function HexValue(c: char): (d: int)
    requires IsHexDigit(c)
    ensures 0 <= d < 16
  {
    if '0' <= c <= '9' then c as int - '0' as int
    else if 'A' <= c <= 'F' then c as int - 'A' as int + 10
    else c as int - 'a' as int + 10
  }

  /** `%XY` for one byte. */
  function PercentEncode(b: Byte): string {
    ['%', HexDigit(b / 16), HexDigit(b % 16)]
  }

  function PercentEncodeAll(bytes: seq<Byte>): (r: string)
    ensures |r| == 3 * |bytes|
    ensures forall i | 0 <= i < |r| :: IsUnescaped(r[i]) || r[i] == '%'
  {
    if bytes == [] then "" else PercentEncode(bytes[0]) + PercentEncodeAll(bytes[1..])
  }

  /** The UTF-8 form of one code point. */
  function Utf8(c: char): seq<Byte> {
    var n := c as int;
    if n < 0x80 then [n]
    else if n < 0x800 then [0xC0 + n / 0x40, 0x80 + n % 0x40]
    else if n < 0x1_0000 then [0xE0 + n / 0x1000, 0x80 + n / 0x40 % 0x40, 0x80 + n % 0x40]
    else [0xF0 + n / 0x4_0000, 0x80 + n / 0x1000 % 0x40, 0x80 + n / 0x40 % 0x40, 0x80 + n % 0x40]
  }

  function EncodeChar(c: char): (r: string)
    ensures forall i | 0 <= i < |r| :: IsUnescaped(r[i]) || r[i] == '%'
  {
    if IsUnescaped(c) then [c] else PercentEncodeAll(Utf8(c))
  }

  /** `encodeURIComponent(s)`: never shorter than `s`, and empty only for the
      empty string. */
  function EncodeUriComponent(s: string): (r: string)
    ensures |r| >= |s|
    ensures r == [] <==> s == []
  {
    if s == [] then "" else EncodeChar(s[0]) + EncodeUriComponent(s[1..])
  }

  /** Every character of `r` is unreserved or the `%` of an escape. */
  predicate InEncodedCharset(r: string) {
    forall i | 0 <= i < |r| :: IsUnescaped(r[i]) || r[i] == '%'
  }

  /** The encoding holds only unreserved characters and `%`, so it never
      contains a delimiter such as `/`, `?`, `&`, `=` or `#`. */
  lemma {:induction false} EncodedCharset(s: string)
    ensures InEncodedCharset(EncodeUriComponent(s))
  {
    if s != [] {
      EncodedCharset(s[1..]);
      var a, b := EncodeChar(s[0]), EncodeUriComponent(s[1..]);
      assert EncodeUriComponent(s) == a + b;
      forall i | 0 <= i < |a + b|
        ensures IsUnescaped((a + b)[i]) || (a + b)[i] == '%'
      {
        if i < |a| {
          assert (a + b)[i] == a[i];
        } else {
          assert (a + b)[i] == b[i - |a|];
        }
      }
    }
  }

  /** Such a string holds none of the URL delimiters `/`, `?`, `&`, `=`, `#`. */
  lemma NoDelimiters(r: string)
    requires InEncodedCharset(r)
    ensures forall i | 0 <= i < |r| :: r[i] !in "/?&=#"
  {
    forall i | 0 <= i < |r|
      ensures r[i] !in "/?&=#"
    {
      assert IsUnescaped(r[i]) || r[i] == '%';
    }
  }

  // ---------------------------------------------------------------------------
  // Decoding

  /** The byte written as `%XY` at index `i` of `s`, if there is one. */
  function EscapedByte(s: string, i: nat): (r: Option<Byte>)
    ensures r.Some? ==> i + 3 <= |s|
  {
    if i + 3 <= |s| && s[i] == '%' && IsHexDigit(s[i + 1]) && IsHexDigit(s[i + 2])
    then Some(HexValue(s[i + 1]) * 16 + HexValue(s[i + 2]))
    else None
  }

  /** The `k` bytes written as escapes at the start of `s`. */
  function EscapedBytes(s: string, k: nat): (r: Option<seq<Byte>>)
    ensures r.Some? ==> 3 * k <= |s| && |r.value| == k
  {
    if k == 0 then Some([])
    else match EscapedByte(s, 0)
      case None => None
      case Some(b) =>
        match EscapedBytes(s[3..], k - 1)
        case None => None
        case Some(rest) => Some([b] + rest)
  }

  predicate IsContinuation(b: Byte) {
    0x80 <= b < 0xC0
  }

  /** How many bytes a UTF-8 sequence that starts with `lead` has; 0 when `lead`
      cannot start one. */
  function SequenceLength(lead: Byte): nat {
    if lead < 0x80 then 1
    else if lead < 0xC0 then 0
    else if lead < 0xE0 then 2
    else if lead < 0xF0 then 3
    else if lead < 0xF8 then 4
    else 0
  }

  /** The code point that a complete UTF-8 sequence stands for, rejecting
      overlong forms, surrogates and values beyond U+10FFFF. */
  function DecodeUtf8(bytes: seq<Byte>): Option<char> {
    if |bytes| == 1 && bytes[0] < 0x80 then
      Some(bytes[0] as char)
    else if |bytes| == 2 && 0xC0 <= bytes[0] < 0xE0 && IsContinuation(bytes[1]) then
      var n := (bytes[0] as int - 0xC0) * 0x40 + (bytes[1] as int - 0x80);
      if 0x80 <= n then Some(n as char) else None
    else if |bytes| == 3 && 0xE0 <= bytes[0] < 0xF0 && IsContinuation(bytes[1])
         && IsContinuation(bytes[2]) then
      var n := (bytes[0] as int - 0xE0) * 0x1000 + (bytes[1] as int - 0x80) * 0x40
               + (bytes[2] as int - 0x80);
      if 0x800 <= n && !(0xD800 <= n < 0xE000) then Some(n as char) else None
    else if |bytes| == 4 && 0xF0 <= bytes[0] < 0xF8 && IsContinuation(bytes[1])
         && IsContinuation(bytes[2]) && IsContinuation(bytes[3]) then
      var n := (bytes[0] as int - 0xF0) * 0x4_0000 + (bytes[1] as int - 0x80) * 0x1000
               + (bytes[2] as int - 0x80) * 0x40 + (bytes[3] as int - 0x80);
      if 0x1_0000 <= n < 0x11_0000 then Some(n as char) else None
    else
      None
  }

  function Prepend(c: char, r: Option<string>): Option<string> {
    match r
    case None => None
    case Some(t) => Some([c] + t)
  }

  /** `decodeURIComponent(s)`; `None` where it would throw a URIError. */
  function DecodeUriComponent(s: string): (r: Option<string>)
    ensures r.Some? ==> |r.value| <= |s|
    decreases |s|
  {
    if s == [] then Some("")
    else if s[0] != '%' then Prepend(s[0], DecodeUriComponent(s[1..]))
    else match EscapedByte(s, 0)
      case None => None
      case Some(lead) =>
        var k := SequenceLength(lead);
        if k == 0 then None
        else match EscapedBytes(s, k)
          case None => None
          case Some(bytes) =>
            match DecodeUtf8(bytes)
            case None => None
            case Some(c) => Prepend(c, DecodeUriComponent(s[3 * k..]))
  }

  // ---------------------------------------------------------------------------
  // Round trip

  lemma HexRoundTrip(d: int)
    requires 0 <= d < 16
    ensures IsHexDigit(HexDigit(d)) && HexValue(HexDigit(d)) == d
  {
  }

  lemma EscapedByteOfEncoding(b: Byte, rest: string)
    ensures EscapedByte(PercentEncode(b) + rest, 0) == Some(b)
  {
    HexRoundTrip(b / 16);
    HexRoundTrip(b % 16);
  }

  lemma {:induction false} EscapedBytesOfEncoding(bytes: seq<Byte>, rest: string)
    ensures EscapedBytes(PercentEncodeAll(bytes) + rest, |bytes|) == Some(bytes)
  {
    if bytes != [] {
      var s := PercentEncodeAll(bytes) + rest;
      assert s == PercentEncode(bytes[0]) + (PercentEncodeAll(bytes[1..]) + rest);
      EscapedByteOfEncoding(bytes[0], PercentEncodeAll(bytes[1..]) + rest);
      assert s[3..] == PercentEncodeAll(bytes[1..]) + rest;
      EscapedBytesOfEncoding(bytes[1..], rest);
      assert [bytes[0]] + bytes[1..] == bytes;
    }
  }

  /** The UTF-8 form of a code point starts with a lead byte announcing its
      length and decodes back to that code point. */
  lemma Utf8RoundTrip(c: char)
    ensures |Utf8(c)| >= 1 && SequenceLength(Utf8(c)[0]) == |Utf8(c)|
    ensures DecodeUtf8(Utf8(c)) == Some(c)
  {
    var n := c as int;
    if n < 0x80 {
    } else if n < 0x800 {
      assert (n / 0x40) * 0x40 + n % 0x40 == n;
    } else if n < 0x1_0000 {
      var q := n / 0x40;
      assert q * 0x40 + n % 0x40 == n;
      assert (q / 0x40) * 0x40 + q % 0x40 == q;
      assert n / 0x1000 == q / 0x40;
      assert 0xD800 <= n < 0xE000 ==> false by {
        assert n as char == c;
      }
    } else {
      var q := n / 0x40;
      var p := q / 0x40;
      assert q * 0x40 + n % 0x40 == n;
      assert p * 0x40 + q % 0x40 == q;
      assert (p / 0x40) * 0x40 + p % 0x40 == p;
      assert n / 0x1000 == p;
      assert n / 0x4_0000 == p / 0x40;
    }
  }

  lemma DecodeEncodedChar(c: char, rest: string)
    ensures DecodeUriComponent(EncodeChar(c) + rest) == Prepend(c, DecodeUriComponent(rest))
  {
    if IsUnescaped(c) {
      var s := EncodeChar(c) + rest;
      assert s[0] == c && s[1..] == rest;
    } else {
      DecodeEscapedChar(c, rest);
    }
  }

  /** A character outside the unescaped set decodes from its escapes. */
  lemma DecodeEscapedChar(c: char, rest: string)
    requires !IsUnescaped(c)
    ensures DecodeUriComponent(PercentEncodeAll(Utf8(c)) + rest) == Prepend(c, DecodeUriComponent(rest))
  {
    var bytes := Utf8(c);
    var s := PercentEncodeAll(bytes) + rest;
    Utf8RoundTrip(c);
    assert s == PercentEncode(bytes[0]) + (PercentEncodeAll(bytes[1..]) + rest);
    EscapedByteOfEncoding(bytes[0], PercentEncodeAll(bytes[1..]) + rest);
    EscapedBytesOfEncoding(bytes, rest);
    assert s[0] == '%';
    assert EscapedByte(s, 0) == Some(bytes[0]);
    assert EscapedBytes(s, |bytes|) == Some(bytes);
    assert s[3 * |bytes|..] == rest;
  }

  /** `decodeURIComponent(encodeURIComponent(s)) == s` */
  lemma {:induction false} DecodeEncode(s: string)
    ensures DecodeUriComponent(EncodeUriComponent(s)) == Some(s)
  {
    if s != [] {
      DecodeEncodedChar(s[0], EncodeUriComponent(s[1..]));
      DecodeEncode(s[1..]);
      assert [s[0]] + s[1..] == s;
    }
  }

  /** Encoding distributes over concatenation, character by character. */
  lemma {:induction false} EncodeAppend(a: string, b: string)
    ensures EncodeUriComponent(a + b) == EncodeUriComponent(a) + EncodeUriComponent(b)
  {
    if a != [] {
      assert (a + b)[0] == a[0] && (a + b)[1..] == a[1..] + b;
      EncodeAppend(a[1..], b);
      calc {
        EncodeUriComponent(a + b);
        EncodeChar(a[0]) + EncodeUriComponent(a[1..] + b);
        EncodeChar(a[0]) + (EncodeUriComponent(a[1..]) + EncodeUriComponent(b));
        (EncodeChar(a[0]) + EncodeUriComponent(a[1..])) + EncodeUriComponent(b);
        EncodeUriComponent(a) + EncodeUriComponent(b);
      }
    } else {
      assert a + b == b;
    }
  }

  /** A string made only of unescaped characters is its own encoding. */
  lemma {:induction false} EncodeUnescaped(s: string)
    requires forall i | 0 <= i < |s| :: IsUnescaped(s[i])
    ensures EncodeUriComponent(s) == s
  {
    if s != [] {
      EncodeUnescaped(s[1..]);
    }
  }
}

/** The text encodings that carry user code from the browser into the Python
    interpreter (frontend/src/utils/executor.ts, `runPython`): the browser
    side computes `btoa(unescape(encodeURIComponent(code)))` on a JavaScript
    string (a sequence of UTF-16 code units), and the generated Python driver
    computes `base64.b64decode(...).decode("utf-8")`. The encodings follow
    RFC 3629 (UTF-8), RFC 3986 section 2.3 (unreserved characters kept by
    encodeURIComponent) and RFC 4648 section 4 (base64). */
module TextCodec {
  import opened Common

  type CodeUnit = u: int | 0 <= u < 0x1_0000
  type Byte = b: int | 0 <= b < 0x100
  /** A Unicode scalar value: a code point that is not a surrogate. */
  type Scalar = c: int | 0 <= c < 0x11_0000 && !(0xD800 <= c < 0xE000)

  predicate IsHighSurrogate(u: int) { 0xD800 <= u < 0xDC00 }
  predicate IsLowSurrogate(u: int) { 0xDC00 <= u < 0xE000 }

  // ---------------------------------------------------------------- UTF-16

  /** The scalar values a JavaScript string stands for; None when it holds a
      lone surrogate (encodeURIComponent then throws a URIError). */
  function Utf16Decode(s: seq<CodeUnit>): Option<seq<Scalar>>
    decreases |s|
  {
    if |s| == 0 then Some([])
    else if IsHighSurrogate(s[0]) then
      if |s| >= 2 && IsLowSurrogate(s[1]) then
        var c: Scalar := 0x1_0000 + (s[0] as int - 0xD800) * 0x400 + (s[1] as int - 0xDC00);
        match Utf16Decode(s[2..])
        case None => None
        case Some(rest) => Some([c] + rest)
      else None
    else if IsLowSurrogate(s[0]) then None
    else
      match Utf16Decode(s[1..])
      case None => None
      case Some(rest) => Some([s[0] as Scalar] + rest)
  }

  /** The UTF-16 code units of a scalar value. */
  function Utf16EncodeScalar(c: Scalar): (us: seq<CodeUnit>)
    ensures 1 <= |us| <= 2
  {
    if c < 0x1_0000 then [c]
    else [0xD800 + (c - 0x1_0000) / 0x400, 0xDC00 + (c - 0x1_0000) % 0x400]
  }

  function Utf16Encode(cs: seq<Scalar>): seq<CodeUnit> {
    if |cs| == 0 then [] else Utf16EncodeScalar(cs[0]) + Utf16Encode(cs[1..])
  }

  /** Every sequence of scalar values is some string, and that string decodes
      back to it: strings without lone surrogates are exactly the encodings. */
  lemma {:induction false} Utf16RoundTrip(cs: seq<Scalar>)
    ensures Utf16Decode(Utf16Encode(cs)) == Some(cs)
  {
    if |cs| > 0 {
      var c := cs[0];
      var e := Utf16EncodeScalar(c);
      var s := Utf16Encode(cs);
      assert s == e + Utf16Encode(cs[1..]);
      Utf16RoundTrip(cs[1..]);
      assert cs == [c] + cs[1..];
      if c < 0x1_0000 {
        assert s[1..] == Utf16Encode(cs[1..]);
      } else {
        var d := c as int - 0x1_0000;
        assert d == (d / 0x400) * 0x400 + d % 0x400;
        assert s[2..] == Utf16Encode(cs[1..]);
      }
    }
  }

  // ----------------------------------------------------------------- UTF-8

  predicate IsContinuation(b: int) { 0x80 <= b < 0xC0 }

  /** The UTF-8 bytes of one scalar value (section 3 of RFC 3629). */
  function EncodeScalar(c: Scalar): (bs: seq<Byte>)
    ensures 1 <= |bs| <= 4
  {
    if c < 0x80 then [c]
    else if c < 0x800 then [0xC0 + c / 64, 0x80 + c % 64]
    else if c < 0x1_0000 then [0xE0 + c / 4096, 0x80 + (c / 64) % 64, 0x80 + c % 64]
    else [0xF0 + c / 262144, 0x80 + (c / 4096) % 64, 0x80 + (c / 64) % 64, 0x80 + c % 64]
  }

  function Utf8Encode(cs: seq<Scalar>): seq<Byte> {
    if |cs| == 0 then [] else EncodeScalar(cs[0]) + Utf8Encode(cs[1..])
  }

  /** The first scalar value of a byte string and the number of bytes it
      takes, rejecting what a strict decoder rejects: a stray continuation
      byte, a truncated sequence, an overlong form, a surrogate, a value past
      U+10FFFF. */
  function DecodeFirst(bs: seq<Byte>): (r: Option<(Scalar, nat)>)
    requires |bs| > 0
    ensures r.Some? ==> 1 <= r.value.1 <= |bs|
  {
    var b0 := bs[0] as int;
    if b0 < 0x80 then Some((b0 as Scalar, 1))
    else if 0xC0 <= b0 < 0xE0 then
      if |bs| >= 2 && IsContinuation(bs[1]) then
        var v := (b0 - 0xC0) * 64 + (bs[1] as int - 0x80);
        if v >= 0x80 then Some((v as Scalar, 2)) else None
      else None
    else if 0xE0 <= b0 < 0xF0 then
      if |bs| >= 3 && IsContinuation(bs[1]) && IsContinuation(bs[2]) then
        var v := (b0 - 0xE0) * 4096 + (bs[1] as int - 0x80) * 64 + (bs[2] as int - 0x80);
        if v >= 0x800 && !(0xD800 <= v < 0xE000) then Some((v as Scalar, 3)) else None
      else None
    else if 0xF0 <= b0 < 0xF8 then
      if |bs| >= 4 && IsContinuation(bs[1]) && IsContinuation(bs[2]) && IsContinuation(bs[3]) then
        var v := (b0 - 0xF0) * 262144 + (bs[1] as int - 0x80) * 4096 + (bs[2] as int - 0x80) * 64 + (bs[3] as int - 0x80);
        if 0x1_0000 <= v < 0x11_0000 then Some((v as Scalar, 4)) else None
      else None
    else None
  }

  /** Python's strict `bytes.decode("utf-8")`: None where it raises. */
  function Utf8Decode(bs: seq<Byte>): Option<seq<Scalar>>
    decreases |bs|
  {
    if |bs| == 0 then Some([])
    else
      match DecodeFirst(bs)
      case None => None
      case Some((c, n)) =>
        match Utf8Decode(bs[n..])
        case None => None
        case Some(rest) => Some([c] + rest)
  }

  lemma DecodeTwo(c: Scalar, bs: seq<Byte>)
    requires 0x80 <= c < 0x800 && |bs| >= 2 && bs[0] == 0xC0 + c / 64 && bs[1] == 0x80 + c % 64
    ensures DecodeFirst(bs) == Some((c, 2))
  {
    assert c == (c / 64) * 64 + c % 64;
  }

  lemma DecodeThree(c: Scalar, bs: seq<Byte>)
    requires 0x800 <= c < 0x1_0000 && |bs| >= 3
    requires bs[0] == 0xE0 + c / 4096 && bs[1] == 0x80 + (c / 64) % 64 && bs[2] == 0x80 + c % 64
    ensures DecodeFirst(bs) == Some((c, 3))
  {
    assert c / 64 == (c / 4096) * 64 + (c / 64) % 64;
    assert c == (c / 64) * 64 + c % 64;
  }

  lemma DecodeFour(c: Scalar, bs: seq<Byte>)
    requires 0x1_0000 <= c && |bs| >= 4
    requires bs[0] == 0xF0 + c / 262144 && bs[1] == 0x80 + (c / 4096) % 64
    requires bs[2] == 0x80 + (c / 64) % 64 && bs[3] == 0x80 + c % 64
    ensures DecodeFirst(bs) == Some((c, 4))
  {
    assert c / 4096 == (c / 262144) * 64 + (c / 4096) % 64;
    assert c / 64 == (c / 4096) * 64 + (c / 64) % 64;
    assert c == (c / 64) * 64 + c % 64;
  }

  /** Decoding the encoding of one scalar value gives it back, whatever follows. */
  lemma DecodeFirstOfEncoding(c: Scalar, rest: seq<Byte>)
    ensures DecodeFirst(EncodeScalar(c) + rest) == Some((c, |EncodeScalar(c)|))
  {
    var bs := EncodeScalar(c) + rest;
    if c < 0x80 {
    } else if c < 0x800 {
      DecodeTwo(c, bs);
    } else if c < 0x1_0000 {
      DecodeThree(c, bs);
    } else {
      DecodeFour(c, bs);
    }
  }

  /** UTF-8 round trip: the strict decoder inverts the encoder. */
  lemma {:induction false} Utf8RoundTrip(cs: seq<Scalar>)
    ensures Utf8Decode(Utf8Encode(cs)) == Some(cs)
  {
    if |cs| > 0 {
      var e := EncodeScalar(cs[0]);
      var bs := Utf8Encode(cs);
      assert bs == e + Utf8Encode(cs[1..]);
      DecodeFirstOfEncoding(cs[0], Utf8Encode(cs[1..]));
      assert bs[|e|..] == Utf8Encode(cs[1..]);
      Utf8RoundTrip(cs[1..]);
      assert cs == [cs[0]] + cs[1..];
    }
  }

  // ------------------------------------------- encodeURIComponent, unescape

  const Percent: CodeUnit := 0x25
  const LetterU: CodeUnit := 0x75

  /** ASCII letters, digits and - _ . ! ~ * ' ( ), which encodeURIComponent
      leaves as they are. */
  predicate IsUnreserved(b: int) {
    || 0x41 <= b <= 0x5A || 0x61 <= b <= 0x7A || 0x30 <= b <= 0x39
    || b == 0x2D || b == 0x5F || b == 0x2E || b == 0x21 || b == 0x7E
    || b == 0x2A || b == 0x27 || b == 0x28 || b == 0x29
  }

  /** An upper-case hexadecimal digit. */
  function HexDigit(v: int): (u: CodeUnit)
    requires 0 <= v < 16
  {
    if v < 10 then 0x30 + v else 0x41 + v - 10
  }

  /** The value of a hexadecimal digit of either case. */
  function HexValue(u: int): (r: Option<int>)
    ensures r.Some? ==> 0 <= r.value < 16
  {
    if 0x30 <= u <= 0x39 then Some(u - 0x30)
    else if 0x41 <= u <= 0x46 then Some(u - 0x41 + 10)
    else if 0x61 <= u <= 0x66 then Some(u - 0x61 + 10)
    else None
  }

  function PercentEncodeByte(b: Byte): (us: seq<CodeUnit>) {
    if IsUnreserved(b) then [b] else [Percent, HexDigit(b / 16), HexDigit(b % 16)]
  }

  function PercentEncode(bs: seq<Byte>): seq<CodeUnit> {
    if |bs| == 0 then [] else PercentEncodeByte(bs[0]) + PercentEncode(bs[1..])
  }

  /** `encodeURIComponent`: percent-encoded UTF-8, or None (a URIError) for a
      string with a lone surrogate. */
  function EncodeUriComponent(s: seq<CodeUnit>): (r: Option<seq<CodeUnit>>)
    ensures r.None? <==> Utf16Decode(s).None?
  {
    match Utf16Decode(s)
    case None => None
    case Some(cs) => Some(PercentEncode(Utf8Encode(cs)))
  }

  /** The global `unescape`: "%uXXXX" and "%XX" become the code unit they
      name; every other unit, a lone "%" included, is kept. */
  function Unescape(s: seq<CodeUnit>): seq<CodeUnit>
    decreases |s|
  {
    if |s| == 0 then []
    else if s[0] == Percent && |s| >= 6 && s[1] == LetterU
      && HexValue(s[2]).Some? && HexValue(s[3]).Some? && HexValue(s[4]).Some? && HexValue(s[5]).Some? then
      var v := ((HexValue(s[2]).value * 16 + HexValue(s[3]).value) * 16 + HexValue(s[4]).value) * 16 + HexValue(s[5]).value;
      [v] + Unescape(s[6..])
    else if s[0] == Percent && |s| >= 3 && HexValue(s[1]).Some? && HexValue(s[2]).Some? then
      [HexValue(s[1]).value * 16 + HexValue(s[2]).value] + Unescape(s[3..])
    else [s[0]] + Unescape(s[1..])
  }

  lemma UnescapeOne(b: Byte, rest: seq<CodeUnit>)
    ensures Unescape(PercentEncodeByte(b) + rest) == [b] + Unescape(rest)
  {
    var s := PercentEncodeByte(b) + rest;
    if IsUnreserved(b) {
      assert s[1..] == rest;
    } else {
      assert s[1] == HexDigit(b / 16) && s[2] == HexDigit(b % 16);
      assert s[3..] == rest;
      assert b == (b / 16) * 16 + b % 16;
    }
  }

  /** `unescape` undoes the percent-encoding, giving one code unit per byte. */
  lemma {:induction false} UnescapePercentEncode(bs: seq<Byte>)
    ensures Unescape(PercentEncode(bs)) == bs
  {
    if |bs| > 0 {
      assert PercentEncode(bs) == PercentEncodeByte(bs[0]) + PercentEncode(bs[1..]);
      UnescapeOne(bs[0], PercentEncode(bs[1..]));
      UnescapePercentEncode(bs[1..]);
    }
  }

  // ----------------------------------------------------------------- base64

  /** The character of a 6-bit value in the alphabet of section 4 of RFC 4648. */
  function B64Char(v: int): (c: char)
    requires 0 <= v < 64
    ensures c != '='
  {
    if v < 26 then (('A' as int) + v) as char
    else if v < 52 then (('a' as int) + v - 26) as char
    else if v < 62 then (('0' as int) + v - 52) as char
    else if v == 62 then '+'
    else '/'
  }

  /** The 6-bit value of an alphabet character. */
  function B64Value(c: char): (r: Option<int>)
    ensures r.Some? ==> 0 <= r.value < 64
  {
    if 'A' <= c <= 'Z' then Some(c as int - 'A' as int)
    else if 'a' <= c <= 'z' then Some(c as int - 'a' as int + 26)
    else if '0' <= c <= '9' then Some(c as int - '0' as int + 52)
    else if c == '+' then Some(62)
    else if c == '/' then Some(63)
    else None
  }

  lemma B64ValueOfChar(v: int)
    requires 0 <= v < 64
    ensures B64Value(B64Char(v)) == Some(v)
  {
  }

  /** Four characters for three bytes. */
  function EncodeTriple(a: Byte, b: Byte, c: Byte): string {
    [B64Char(a / 4), B64Char((a % 4) * 16 + b / 16), B64Char((b % 16) * 4 + c / 64), B64Char(c % 64)]
  }

  /** `btoa` on a byte string: groups of three bytes, and a final group of
      one or two bytes padded with "=". */
  function Base64Encode(bs: seq<Byte>): (s: string)
    ensures |s| % 4 == 0
    decreases |bs|
  {
    if |bs| == 0 then ""
    else if |bs| == 1 then [B64Char(bs[0] / 4), B64Char((bs[0] % 4) * 16), '=', '=']
    else if |bs| == 2 then [B64Char(bs[0] / 4), B64Char((bs[0] % 4) * 16 + bs[1] / 16), B64Char((bs[1] % 16) * 4), '=']
    else EncodeTriple(bs[0], bs[1], bs[2]) + Base64Encode(bs[3..])
  }

  /** `base64.b64decode` on a well-formed input: groups of four characters,
      "=" padding only in the last group; the unused low bits of a padded
      group are ignored. None where the input is not of that form. */
  function Base64Decode(s: string): Option<seq<Byte>>
    decreases |s|
  {
    if |s| == 0 then Some([])
    else if |s| < 4 then None
    else
      var v0, v1, v2, v3 := B64Value(s[0]), B64Value(s[1]), B64Value(s[2]), B64Value(s[3]);
      if |s| == 4 && s[2] == '=' && s[3] == '=' then
        if v0.Some? && v1.Some? then Some([v0.value * 4 + v1.value / 16]) else None
      else if |s| == 4 && s[3] == '=' then
        if v0.Some? && v1.Some? && v2.Some? then
          Some([v0.value * 4 + v1.value / 16, (v1.value % 16) * 16 + v2.value / 4])
        else None
      else if v0.Some? && v1.Some? && v2.Some? && v3.Some? then
        match Base64Decode(s[4..])
        case None => None
        case Some(rest) => Some(TripleOf(v0.value, v1.value, v2.value, v3.value) + rest)
      else None
  }

  /** The three bytes of a full group of four 6-bit values. */
  function TripleOf(v0: int, v1: int, v2: int, v3: int): seq<Byte>
    requires 0 <= v0 < 64 && 0 <= v1 < 64 && 0 <= v2 < 64 && 0 <= v3 < 64
  {
    [v0 * 4 + v1 / 16, (v1 % 16) * 16 + v2 / 4, (v2 % 4) * 64 + v3]
  }

  /** The arithmetic of one group: splitting three bytes into four 6-bit
      values and joining them again gives the bytes back. */
  lemma TripleArithmetic(a: Byte, b: Byte, c: Byte)
    ensures TripleOf(a / 4, (a % 4) * 16 + b / 16, (b % 16) * 4 + c / 64, c % 64) == [a, b, c]
  {
    var v1, v2 := (a % 4) * 16 + b / 16, (b % 16) * 4 + c / 64;
    assert v1 / 16 == a % 4 && v1 % 16 == b / 16;
    assert v2 / 4 == b % 16 && v2 % 4 == c / 64;
  }

  lemma DecodeTriple(a: Byte, b: Byte, c: Byte, rest: string)
    requires Base64Decode(rest).Some?
    ensures Base64Decode(EncodeTriple(a, b, c) + rest) == Some([a, b, c] + Base64Decode(rest).value)
  {
    var s := EncodeTriple(a, b, c) + rest;
    var v0, v1, v2, v3 := a / 4, (a % 4) * 16 + b / 16, (b % 16) * 4 + c / 64, c % 64;
    B64ValueOfChar(v0);
    B64ValueOfChar(v1);
    B64ValueOfChar(v2);
    B64ValueOfChar(v3);
    assert s[0] == B64Char(v0) && s[1] == B64Char(v1) && s[2] == B64Char(v2) && s[3] == B64Char(v3);
    assert s[3] != '=';
    assert s[4..] == rest;
    TripleArithmetic(a, b, c);
  }

  /** The padded final group of one byte decodes to that byte. */
  lemma RoundTripOneByte(a: Byte)
    ensures Base64Decode(Base64Encode([a])) == Some([a])
  {
    B64ValueOfChar(a / 4);
    B64ValueOfChar((a % 4) * 16);
  }

  /** The padded final group of two bytes decodes to those bytes. */
  lemma RoundTripTwoBytes(a: Byte, b: Byte)
    ensures Base64Decode(Base64Encode([a, b])) == Some([a, b])
  {
    var v0, v1, v2 := a / 4, (a % 4) * 16 + b / 16, (b % 16) * 4;
    B64ValueOfChar(v0);
    B64ValueOfChar(v1);
    B64ValueOfChar(v2);
    var s := Base64Encode([a, b]);
    assert s == [B64Char(v0), B64Char(v1), B64Char(v2), '='];
    assert s[2] != '=';
    assert v1 / 16 == a % 4 && v1 % 16 == b / 16;
    assert v0 * 4 + v1 / 16 == a;
    assert (v1 % 16) * 16 + v2 / 4 == b;
  }

  /** Base64 round trip: decoding the encoding gives the bytes back. */
  lemma {:induction false} Base64RoundTrip(bs: seq<Byte>)
    ensures Base64Decode(Base64Encode(bs)) == Some(bs)
    decreases |bs|
  {
    if |bs| == 1 {
      RoundTripOneByte(bs[0]);
      assert bs == [bs[0]];
    } else if |bs| == 2 {
      RoundTripTwoBytes(bs[0], bs[1]);
      assert bs == [bs[0], bs[1]];
    } else if |bs| >= 3 {
      Base64RoundTrip(bs[3..]);
      DecodeTriple(bs[0], bs[1], bs[2], Base64Encode(bs[3..]));
      assert [bs[0], bs[1], bs[2]] + bs[3..] == bs;
    }
  }

  /** Characters of a base64 text: alphabet characters and "=". */
  predicate IsBase64Char(c: char) {
    B64Value(c).Some? || c == '='
  }

  lemma B64CharIsBase64(v: int)
    requires 0 <= v < 64
    ensures IsBase64Char(B64Char(v))
  {
    B64ValueOfChar(v);
  }

  /** The encoding holds only alphabet characters and "=". */
  lemma {:induction false} Base64Chars(bs: seq<Byte>)
    ensures forall i :: 0 <= i < |Base64Encode(bs)| ==> IsBase64Char(Base64Encode(bs)[i])
    decreases |bs|
  {
    var s := Base64Encode(bs);
    if |bs| == 1 {
      B64CharIsBase64(bs[0] / 4);
      B64CharIsBase64((bs[0] % 4) * 16);
    } else if |bs| == 2 {
      B64CharIsBase64(bs[0] / 4);
      B64CharIsBase64((bs[0] % 4) * 16 + bs[1] / 16);
      B64CharIsBase64((bs[1] % 16) * 4);
    } else if |bs| >= 3 {
      var a, b, c := bs[0], bs[1], bs[2];
      B64CharIsBase64(a / 4);
      B64CharIsBase64((a % 4) * 16 + b / 16);
      B64CharIsBase64((b % 16) * 4 + c / 64);
      B64CharIsBase64(c % 64);
      Base64Chars(bs[3..]);
      assert s == EncodeTriple(a, b, c) + Base64Encode(bs[3..]);
      forall i | 4 <= i < |s| ensures IsBase64Char(s[i]) {
        assert s[i] == Base64Encode(bs[3..])[i - 4];
      }
    }
  }

  /** Pasted between double quotes in Python source, the encoding can neither
      close the literal nor start an escape or a new line. */
  lemma Base64IsLiteralSafe(bs: seq<Byte>)
    ensures forall i :: 0 <= i < |Base64Encode(bs)| ==> IsBase64Char(Base64Encode(bs)[i])
    ensures forall i :: 0 <= i < |Base64Encode(bs)| ==>
      Base64Encode(bs)[i] !in {'"', '\\', '\n', '\r'}
  {
    Base64Chars(bs);
  }

  // -------------------------------------------------------- the whole chain

  /** `btoa` on a string of code units: None (an InvalidCharacterError) when
      some unit is not a Latin-1 character. */
  function Btoa(s: seq<CodeUnit>): (r: Option<string>)
    ensures r.None? <==> exists i :: 0 <= i < |s| && s[i] >= 0x100
  {
    if forall i :: 0 <= i < |s| ==> s[i] < 0x100 then
      Some(Base64Encode(seq(|s|, i requires 0 <= i < |s| => s[i] as Byte)))
    else None
  }

  /** What the browser side produces: the base64 text, or the text of the
      exception one of the three calls throws. */
  datatype Transport = Sent(b64: string) | Threw(error: string)

  const UriErrorText: string := "URIError: URI malformed"
  const Latin1ErrorText: string := "InvalidCharacterError: The string to be encoded contains characters outside of the Latin1 range."

  /** `btoa(unescape(encodeURIComponent(code)))`. */
  function EncodeForTransport(code: seq<CodeUnit>): Transport {
    match EncodeUriComponent(code)
    case None => Threw(UriErrorText)
    case Some(p) =>
      match Btoa(Unescape(p))
      case None => Threw(Latin1ErrorText)
      case Some(b) => Sent(b)
  }

  /** `base64.b64decode(b64).decode("utf-8")` in the driver; None where
      Python raises. */
  function DecodeInDriver(b64: string): Option<seq<Scalar>> {
    match Base64Decode(b64)
    case None => None
    case Some(bs) => Utf8Decode(bs)
  }

  /** The browser side throws exactly for a string with a lone surrogate;
      otherwise it sends the base64 of the UTF-8 of the string's scalar values. */
  lemma EncodeForTransportIs(code: seq<CodeUnit>)
    ensures EncodeForTransport(code).Threw? <==> Utf16Decode(code).None?
    ensures EncodeForTransport(code).Threw? ==> EncodeForTransport(code).error == UriErrorText
    ensures Utf16Decode(code).Some? ==>
      EncodeForTransport(code) == Sent(Base64Encode(Utf8Encode(Utf16Decode(code).value)))
  {
    if Utf16Decode(code).Some? {
      var bs := Utf8Encode(Utf16Decode(code).value);
      UnescapePercentEncode(bs);
      var u := Unescape(PercentEncode(bs));
      assert u == bs;
      assert seq(|u|, i requires 0 <= i < |u| => u[i] as Byte) == bs;
    }
  }

  /** The transport round trip: the text the driver executes is exactly the
      text of the user's code. */
  lemma TransportRoundTrip(code: seq<CodeUnit>)
    requires Utf16Decode(code).Some?
    ensures EncodeForTransport(code).Sent?
    ensures DecodeInDriver(EncodeForTransport(code).b64) == Utf16Decode(code)
  {
    EncodeForTransportIs(code);
    var bs := Utf8Encode(Utf16Decode(code).value);
    Base64RoundTrip(bs);
    Utf8RoundTrip(Utf16Decode(code).value);
  }
}

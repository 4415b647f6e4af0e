/**
 * `encodeURIComponent` and `decodeURIComponent` (ECMA-262, sections
 * 19.2.6.4 and 19.2.6.2): characters outside the unreserved set are written
 * as the percent-escaped bytes of their UTF-8 encoding (percent-encoding as
 * in section 2.1 of RFC 3986, UTF-8 as in section 3 of RFC 3629); decoding
 * reverses this and fails (a URIError) on a malformed escape or an invalid
 * UTF-8 sequence. Strings are sequences of Unicode scalar values, so the
 * lone surrogates on which `encodeURIComponent` throws do not arise.
 */
module PercentCoding {
  import opened Wrappers

  type Byte = b: int | 0 <= b < 256

  /** The characters `encodeURIComponent` leaves unescaped. */
  predicate IsUnescaped(c: char) {
    ('A' <= c <= 'Z') || ('a' <= c <= 'z') || ('0' <= c <= '9')
    || c == '-' || c == '_' || c == '.' || c == '!' || c == '~'
    || c == '*' || c == '\'' || c == '(' || c == ')'
  }

  /** The upper-case hexadecimal digit for `d`, as `encodeURIComponent` writes it. */
  function HexChar(d: nat): (c: char)
    requires d < 16
    ensures IsUnescaped(c)
  {
    if d < 10 then ('0' as int + d) as char else ('A' as int + d - 10) as char
  }

  /** The value of a hexadecimal digit of either case. */
  function HexValue(c: char): (r: Option<nat>)
    ensures r.Some? ==> r.value < 16
  {
    if '0' <= c <= '9' then Some(c as int - '0' as int)
    else if 'A' <= c <= 'F' then Some(c as int - 'A' as int + 10)
    else if 'a' <= c <= 'f' then Some(c as int - 'a' as int + 10)
    else None
  }

  lemma HexValueOfHexChar(d: nat)
    requires d < 16
    ensures HexValue(HexChar(d)) == Some(d)
  {
  }

  // ---------------------------------------------------------------------
  // UTF-8

  /** The UTF-8 encoding of one Unicode scalar value. */
  function Utf8(c: char): (r: seq<Byte>)
    ensures 1 <= |r| <= 4
    ensures |r| == 1 <==> c as int < 0x80
  {
    var n := c as int;
    if n < 0x80 then [n]
    else if n < 0x800 then [0xC0 + n / 64, 0x80 + n % 64]
    else if n < 0x10000 then [0xE0 + n / 4096, 0x80 + (n / 64) % 64, 0x80 + n % 64]
    else [0xF0 + n / 262144, 0x80 + (n / 4096) % 64, 0x80 + (n / 64) % 64, 0x80 + n % 64]
  }

  /** How many bytes a sequence starting with `b` has; 0 when `b` cannot start one. */
  function SequenceLength(b: Byte): nat {
    if b < 0x80 then 1
    else if b < 0xC0 then 0
    else if b < 0xE0 then 2
    else if b < 0xF0 then 3
    else if b < 0xF8 then 4
    else 0
  }

  predicate IsContinuation(b: Byte) {
    0x80 <= b < 0xC0
  }

  /** The value a lead byte and its continuation bytes stand for. */
  function CodePoint(lead: Byte, cont: seq<Byte>): int
    requires 1 <= |cont| <= 3
  {
    var l, c0 := lead as int, cont[0] as int;
    if |cont| == 1 then (l - 0xC0) * 64 + (c0 - 0x80)
    else if |cont| == 2 then (l - 0xE0) * 4096 + (c0 - 0x80) * 64 + (cont[1] as int - 0x80)
    else (l - 0xF0) * 262144 + (c0 - 0x80) * 4096 + (cont[1] as int - 0x80) * 64 + (cont[2] as int - 0x80)
  }

  /** A value an `n`-byte sequence may encode: not overlong, not a surrogate, at most U+10FFFF. */
  predicate ValidScalar(v: int, n: nat) {
    && (n == 2 ==> 0x80 <= v)
    && (n == 3 ==> 0x800 <= v)
    && (n == 4 ==> 0x10000 <= v)
    && v <= 0x10FFFF
    && !(0xD800 <= v <= 0xDFFF)
  }

  /** Decoding the UTF-8 bytes of a multi-byte character gives the character back. */
  lemma Utf8Decodes(c: char)
    requires c as int >= 0x80
    ensures var bs := Utf8(c);
      && SequenceLength(bs[0]) == |bs|
      && (forall j :: 1 <= j < |bs| ==> IsContinuation(bs[j]))
      && CodePoint(bs[0], bs[1..]) == c as int
      && ValidScalar(c as int, |bs|)
  {
    var n := c as int;
    if n < 0x800 {
      Utf8DecodesTwo(c);
    } else if n < 0x10000 {
      Utf8DecodesThree(c);
    } else {
      Utf8DecodesFour(c);
    }
  }

  /** `bs` is a well-formed UTF-8 sequence for `c`. */
  predicate DecodesTo(bs: seq<Byte>, c: char)
    requires 2 <= |bs| <= 4
  {
    && SequenceLength(bs[0]) == |bs|
    && (forall j :: 1 <= j < |bs| ==> IsContinuation(bs[j]))
    && CodePoint(bs[0], bs[1..]) == c as int
    && ValidScalar(c as int, |bs|)
  }

  lemma Utf8DecodesTwo(c: char)
    requires 0x80 <= c as int < 0x800
    ensures DecodesTo(Utf8(c), c)
  {
    var n := c as int;
    assert n == (n / 64) * 64 + n % 64;
  }

  lemma Utf8DecodesThree(c: char)
    requires 0x800 <= c as int < 0x10000
    ensures DecodesTo(Utf8(c), c)
  {
    var n := c as int;
    var bs := Utf8(c);
    assert n / 64 == (n / 4096) * 64 + (n / 64) % 64;
    assert n == (n / 64) * 64 + n % 64;
    assert CodePoint(bs[0], bs[1..]) == (n / 4096) * 4096 + ((n / 64) % 64) * 64 + n % 64;
  }

  lemma Utf8DecodesFour(c: char)
    requires 0x10000 <= c as int
    ensures DecodesTo(Utf8(c), c)
  {
    var n := c as int;
    var bs := Utf8(c);
    assert n / 64 == (n / 4096) * 64 + (n / 64) % 64;
    assert n / 4096 == (n / 262144) * 64 + (n / 4096) % 64;
    assert n == (n / 64) * 64 + n % 64;
    assert n / 262144 < 5;
    assert CodePoint(bs[0], bs[1..])
      == (n / 262144) * 262144 + ((n / 4096) % 64) * 4096 + ((n / 64) % 64) * 64 + n % 64;
  }


  // ---------------------------------------------------------------------
  // Encoding

  function EscapeByte(b: Byte): string {
    ['%', HexChar(b / 16), HexChar(b % 16)]
  }

  function EscapeBytes(bs: seq<Byte>): (r: string)
    ensures |r| == 3 * |bs|
  {
    if bs == [] then [] else EscapeByte(bs[0]) + EscapeBytes(bs[1..])
  }

  function EncodeChar(c: char): string {
    if IsUnescaped(c) then [c] else EscapeBytes(Utf8(c))
  }

  /** `encodeURIComponent(s)`. */
  function EncodeURIComponent(s: string): string {
    if s == [] then [] else EncodeChar(s[0]) + EncodeURIComponent(s[1..])
  }

  /** Every character of an encoding is unreserved or the escape mark '%'. */
  lemma {:induction false} EncodedAlphabet(s: string)
    ensures forall ch :: ch in EncodeURIComponent(s) ==> IsUnescaped(ch) || ch == '%'
  {
    if s != [] {
      EncodedAlphabet(s[1..]);
      if !IsUnescaped(s[0]) {
        EscapedAlphabet(Utf8(s[0]));
      }
    }
  }

  /** A character that is neither unreserved nor '%' never appears in an encoding. */
  lemma EncodedLacks(s: string, c: char)
    requires !IsUnescaped(c) && c != '%'
    ensures c !in EncodeURIComponent(s)
  {
    EncodedAlphabet(s);
  }

  lemma {:induction false} EscapedAlphabet(bs: seq<Byte>)
    ensures forall ch :: ch in EscapeBytes(bs) ==> IsUnescaped(ch) || ch == '%'
  {
    if bs != [] {
      EscapedAlphabet(bs[1..]);
    }
  }

  lemma {:induction false} EncodeConcat(a: string, b: string)
    ensures EncodeURIComponent(a + b) == EncodeURIComponent(a) + EncodeURIComponent(b)
  {
    if a == [] {
      assert a + b == b;
    } else {
      assert (a + b)[0] == a[0] && (a + b)[1..] == a[1..] + b;
      EncodeConcat(a[1..], b);
    }
  }

  /** An empty encoding only comes from the empty string. */
  lemma EncodeEmpty(s: string)
    ensures EncodeURIComponent(s) == [] <==> s == []
  {
    if s != [] {
      assert |EncodeChar(s[0])| >= 1;
    }
  }

  // ---------------------------------------------------------------------
  // Decoding

  /** The byte written as `%XX` at position `i`, if one is written there. */
  function EscapedByteAt(s: string, i: nat): Option<Byte> {
    if i + 3 <= |s| && s[i] == '%' then
      var hi := HexValue(s[i + 1]);
      var lo := HexValue(s[i + 2]);
      if hi.Some? && lo.Some? then Some(hi.value * 16 + lo.value) else None
    else None
  }

  /** `k` escaped continuation bytes starting at position `i`. */
  function Continuations(s: string, i: nat, k: nat): (r: Option<seq<Byte>>)
    ensures r.Some? ==> |r.value| == k && (k > 0 ==> i + 3 * k <= |s|)
    decreases k
  {
    if k == 0 then Some([])
    else
      match EscapedByteAt(s, i)
      case None => None
      case Some(b) =>
        if !IsContinuation(b) then None
        else
          match Continuations(s, i + 3, k - 1)
          case None => None
          case Some(rest) => Some([b] + rest)
  }

  /**
   * Decodes the escape sequence at the start of `s` (which starts with '%'):
   * the character and how many text characters its escapes occupy.
   */
  function DecodeEscape(s: string): (r: Option<(char, nat)>)
    ensures r.Some? ==> 3 <= r.value.1 <= |s|
  {
    match EscapedByteAt(s, 0)
    case None => None
    case Some(b) =>
      if b < 0x80 then Some((b as char, 3))
      else
        var n := SequenceLength(b);
        if n < 2 then None
        else
          match Continuations(s, 3, n - 1)
          case None => None
          case Some(cont) =>
            var v := CodePoint(b, cont);
            if ValidScalar(v, n) then Some((v as char, 3 * n)) else None
  }

  function Prepend(c: char, r: Option<string>): Option<string> {
    if r.Some? then Some([c] + r.value) else None
  }

  /** `decodeURIComponent(s)`; None where it throws a URIError. */
  function DecodeURIComponent(s: string): Option<string>
    decreases |s|
  {
    if s == [] then Some([])
    else if s[0] != '%' then Prepend(s[0], DecodeURIComponent(s[1..]))
    else
      match DecodeEscape(s)
      case None => None
      case Some((c, k)) => Prepend(c, DecodeURIComponent(s[k..]))
  }

  /** Text without any '%' decodes to itself. */
  lemma {:induction false} DecodePlain(s: string)
    requires '%' !in s
    ensures DecodeURIComponent(s) == Some(s)
  {
    if s != [] {
      assert s[0] in s;
      assert forall ch :: ch in s[1..] ==> ch in s;
      DecodePlain(s[1..]);
      assert [s[0]] + s[1..] == s;
    }
  }

  lemma {:induction false} EscapedByteAtEscapes(bs: seq<Byte>, rest: string, j: nat)
    requires j < |bs|
    ensures EscapedByteAt(EscapeBytes(bs) + rest, 3 * j) == Some(bs[j])
    decreases j
  {
    var t := EscapeBytes(bs) + rest;
    if j == 0 {
      var b := bs[0];
      HexValueOfHexChar(b / 16);
      HexValueOfHexChar(b % 16);
      assert t[..3] == EscapeByte(b);
    } else {
      EscapedByteAtEscapes(bs[1..], rest, j - 1);
      assert t[3..] == EscapeBytes(bs[1..]) + rest;
    }
  }

  lemma {:induction false} ContinuationsOfEscapes(bs: seq<Byte>, rest: string, i: nat, k: nat)
    requires 1 <= i && i + k <= |bs|
    requires forall j :: i <= j < i + k ==> IsContinuation(bs[j])
    ensures Continuations(EscapeBytes(bs) + rest, 3 * i, k) == Some(bs[i..i + k])
    decreases k
  {
    if k > 0 {
      EscapedByteAtEscapes(bs, rest, i);
      ContinuationsOfEscapes(bs, rest, i + 1, k - 1);
      assert bs[i..i + k] == [bs[i]] + bs[i + 1..i + k];
    }
  }

  /** The escapes `encodeURIComponent` writes for one character decode to that character. */
  lemma DecodeEscapeOfChar(c: char, rest: string)
    requires !IsUnescaped(c)
    ensures DecodeEscape(EscapeBytes(Utf8(c)) + rest) == Some((c, 3 * |Utf8(c)|))
  {
    var bs := Utf8(c);
    var t := EscapeBytes(bs) + rest;
    EscapedByteAtEscapes(bs, rest, 0);
    if c as int >= 0x80 {
      Utf8Decodes(c);
      ContinuationsOfEscapes(bs, rest, 1, |bs| - 1);
      assert bs[1..1 + (|bs| - 1)] == bs[1..];
    }
  }

  lemma DecodeEncodedChar(c: char, rest: string)
    ensures DecodeURIComponent(EncodeChar(c) + rest) == Prepend(c, DecodeURIComponent(rest))
  {
    var t := EncodeChar(c) + rest;
    if IsUnescaped(c) {
      assert t[0] == c && t[1..] == rest;
    } else {
      DecodeEscapeOfChar(c, rest);
      assert t[3 * |Utf8(c)|..] == rest;
    }
  }

  /** Decoding undoes encoding, for every string. */
  lemma {:induction false} DecodeEncode(s: string)
    ensures DecodeURIComponent(EncodeURIComponent(s)) == Some(s)
  {
    if s != [] {
      DecodeEncode(s[1..]);
      DecodeEncodedChar(s[0], EncodeURIComponent(s[1..]));
      assert [s[0]] + s[1..] == s;
    }
  }

  /** A '%' not followed by two hexadecimal digits makes decoding throw. */
  lemma MalformedEscapeThrows(s: string, rest: string)
    requires '%' !in s
    requires |rest| < 3 || HexValue(rest[1]).None? || HexValue(rest[2]).None?
    requires rest != [] && rest[0] == '%'
    ensures DecodeURIComponent(s + rest).None?
  {
    if s != [] {
      assert s[0] in s;
      assert (s + rest)[0] == s[0] && (s + rest)[1..] == s[1..] + rest;
      MalformedEscapeThrows(s[1..], rest);
    } else {
      assert s + rest == rest;
    }
  }
}

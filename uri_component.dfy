/**
 * `encodeURIComponent` as index.js uses it on the payee name of a UPI link.
 * A character in the unreserved set of section 2.3 of RFC 3986, or one of
 * ! * ' ( ), stays as it is; every other character becomes its UTF-8 bytes,
 * each written as `%` and two upper-case hexadecimal digits (section 2.1 of
 * RFC 3986). A Dafny `char` is a Unicode scalar value, so the lone surrogate
 * that makes the JavaScript function throw cannot occur here.
 *
 * `DecodeUriComponent` is the inverse used to state what the encoding
 * preserves; it follows `decodeURIComponent` in rejecting malformed escapes,
 * invalid and overlong UTF-8 and encoded surrogates.
 */
module UriComponent {
  import opened Wrappers

  type byte = x: int | 0 <= x < 0x100

  predicate IsUnreserved(c: char) {
    || 'A' <= c <= 'Z'
    || 'a' <= c <= 'z'
    || '0' <= c <= '9'
    || c in "-_.!~*'()"
  }

  /** The characters an encoded component can contain. */
  predicate IsUriSafe(c: char) {
    IsUnreserved(c) || c == '%'
  }

  function HexDigit(d: int): (c: char)
    requires 0 <= d < 16
    ensures IsUnreserved(c)
  {
    if d < 10 then ('0' as int + d) as char else ('A' as int + d - 10) as char
  }

  /** The value of a hexadecimal digit in either case. */
  function HexValue(c: char): (r: Option<int>)
    ensures r.Some? ==> 0 <= r.value < 16
  {
    if '0' <= c <= '9' then Some(c as int - '0' as int)
    else if 'A' <= c <= 'F' then Some(c as int - 'A' as int + 10)
    else if 'a' <= c <= 'f' then Some(c as int - 'a' as int + 10)
    else None
  }

  /** The scalar value of `c` as one to four UTF-8 bytes. */
  function Utf8(c: char): (bs: seq<byte>)
    ensures 1 <= |bs| <= 4
  {
    var cp := c as int;
    if cp < 0x80 then
      [cp]
    else if cp < 0x800 then
      [0xC0 + cp / 64, 0x80 + cp % 64]
    else if cp < 0x10000 then
      [0xE0 + cp / 64 / 64, 0x80 + cp / 64 % 64, 0x80 + cp % 64]
    else
      [0xF0 + cp / 64 / 64 / 64, 0x80 + cp / 64 / 64 % 64, 0x80 + cp / 64 % 64, 0x80 + cp % 64]
  }

  function PercentByte(b: byte): (t: string)
    ensures |t| == 3 && t[0] == '%'
    ensures forall x | x in t :: IsUriSafe(x)
  {
    ['%', HexDigit(b / 16), HexDigit(b % 16)]
  }

  function PercentBytes(bs: seq<byte>): (t: string)
    ensures |t| == 3 * |bs|
    ensures forall x | x in t :: IsUriSafe(x)
  {
    if bs == [] then [] else PercentByte(bs[0]) + PercentBytes(bs[1..])
  }

  function EncodeChar(c: char): (t: string)
    ensures |t| >= 1
    ensures forall x | x in t :: IsUriSafe(x)
  {
    if IsUnreserved(c) then [c] else PercentBytes(Utf8(c))
  }

  /** `encodeURIComponent(s)`. */
  function EncodeUriComponent(s: string): (t: string)
    ensures |t| >= |s|
    ensures forall x | x in t :: IsUriSafe(x)
  {
    if s == [] then [] else EncodeChar(s[0]) + EncodeUriComponent(s[1..])
  }

  /** The byte written as `%XY` at the front of `t`, if there is one. */
  function ReadByte(t: string): (r: Option<byte>)
  {
    if |t| < 3 || t[0] != '%' then None
    else match (HexValue(t[1]), HexValue(t[2]))
      case (Some(hi), Some(lo)) => Some(16 * hi + lo)
      case _ => None
  }

  /** The `n` bytes written as `%XY` triples at the front of `t`, if there are that many. */
  function ReadBytes(t: string, n: nat): (r: Option<seq<byte>>)
    ensures r.Some? ==> |r.value| == n && 3 * n <= |t|
  {
    if n == 0 then Some([])
    else match ReadByte(t)
      case None => None
      case Some(b) =>
        match ReadBytes(t[3..], n - 1)
        case None => None
        case Some(bs) => Some([b] + bs)
  }

  /** The length of the UTF-8 sequence a lead byte opens, or 0 for a byte that cannot lead. */
  function SequenceLength(lead: byte): nat {
    if lead < 0x80 then 1
    else if 0xC0 <= lead < 0xE0 then 2
    else if 0xE0 <= lead < 0xF0 then 3
    else if 0xF0 <= lead < 0xF8 then 4
    else 0
  }

  predicate IsContinuation(b: byte) {
    0x80 <= b < 0xC0
  }

  /** The smallest scalar value that needs `n` bytes, below which the form is overlong. */
  function MinScalar(n: nat): int {
    if n <= 1 then 0 else if n == 2 then 0x80 else if n == 3 then 0x800 else 0x10000
  }

  /** The character a complete UTF-8 sequence stands for, if it is well formed. */
  function DecodeScalar(bs: seq<byte>): (r: Option<char>)
    requires 1 <= |bs| <= 4
  {
    if SequenceLength(bs[0]) != |bs| then None
    else if exists i | 1 <= i < |bs| :: !IsContinuation(bs[i]) then None
    else
      var cp: int :=
        if |bs| == 1 then bs[0]
        else if |bs| == 2 then (bs[0] as int - 0xC0) * 64 + (bs[1] as int - 0x80)
        else if |bs| == 3 then ((bs[0] as int - 0xE0) * 64 + (bs[1] as int - 0x80)) * 64 + (bs[2] as int - 0x80)
        else (((bs[0] as int - 0xF0) * 64 + (bs[1] as int - 0x80)) * 64 + (bs[2] as int - 0x80)) * 64 + (bs[3] as int - 0x80);
      if cp < MinScalar(|bs|) || (0xD800 <= cp < 0xE000) || 0x110000 <= cp then None
      else Some(cp as char)
  }

  /** `decodeURIComponent(t)`, or None where that call throws a URIError. */
  function DecodeUriComponent(t: string): (r: Option<string>)
    decreases |t|
  {
    if t == [] then Some([])
    else if t[0] != '%' then
      match DecodeUriComponent(t[1..])
      case None => None
      case Some(rest) => Some([t[0]] + rest)
    else
      match ReadByte(t)
      case None => None
      case Some(lead) =>
        var n := SequenceLength(lead);
        if n == 0 then None
        else match ReadBytes(t, n)
          case None => None
          case Some(bs) =>
            match DecodeScalar(bs)
            case None => None
            case Some(c) =>
              match DecodeUriComponent(t[3 * n..])
              case None => None
              case Some(rest) => Some([c] + rest)
  }

  lemma HexRoundTrip(d: int)
    requires 0 <= d < 16
    ensures HexValue(HexDigit(d)) == Some(d)
  {
  }

  lemma ReadPercentByte(b: byte, rest: string)
    ensures ReadByte(PercentByte(b) + rest) == Some(b)
  {
    var t := PercentByte(b) + rest;
    HexRoundTrip(b / 16);
    HexRoundTrip(b % 16);
    assert t[1] == HexDigit(b / 16) && t[2] == HexDigit(b % 16);
  }

  /** Reading back `|bs|` triples from the front of their encoding gives `bs`. */
  lemma {:induction false} ReadPercentBytes(bs: seq<byte>, rest: string)
    ensures ReadBytes(PercentBytes(bs) + rest, |bs|) == Some(bs)
  {
    if bs != [] {
      var tail := PercentBytes(bs[1..]) + rest;
      var t := PercentBytes(bs) + rest;
      assert ReadByte(t) == Some(bs[0]) && t[3..] == tail by {
        assert t == PercentByte(bs[0]) + tail;
        ReadPercentByte(bs[0], tail);
      }
      ReadPercentBytes(bs[1..], rest);
      assert [bs[0]] + bs[1..] == bs;
    }
  }

  /** The UTF-8 form of a character announces its own length and decodes back to it. */
  lemma Utf8RoundTrip(c: char)
    ensures SequenceLength(Utf8(c)[0]) == |Utf8(c)|
    ensures DecodeScalar(Utf8(c)) == Some(c)
  {
    var cp := c as int;
    var bs := Utf8(c);
    if cp >= 0x10000 {
      var q1 := cp / 64;
      var q2 := q1 / 64;
      var q3 := q2 / 64;
      assert cp == q1 * 64 + cp % 64;
      assert q1 == q2 * 64 + q1 % 64;
      assert q2 == q3 * 64 + q2 % 64;
      assert bs == [0xF0 + q3, 0x80 + q2 % 64, 0x80 + q1 % 64, 0x80 + cp % 64];
    } else if cp >= 0x800 {
      var q1 := cp / 64;
      var q2 := q1 / 64;
      assert cp == q1 * 64 + cp % 64;
      assert q1 == q2 * 64 + q1 % 64;
    }
  }

  /** What `DecodeUriComponent` returns on an escaped sequence once its pieces are known. */
  lemma DecodeEscapedCut(t: string, lead: byte, bs: seq<byte>, c: char, r: string)
    requires t != [] && t[0] == '%'
    requires ReadByte(t) == Some(lead) && SequenceLength(lead) == |bs| && 1 <= |bs| <= 4
    requires ReadBytes(t, |bs|) == Some(bs) && DecodeScalar(bs) == Some(c)
    requires DecodeUriComponent(t[3 * |bs|..]) == Some(r)
    ensures DecodeUriComponent(t) == Some([c] + r)
  {
  }

  /** Decoding a well-formed escaped UTF-8 sequence followed by an encoded rest. */
  lemma DecodeEscaped(bs: seq<byte>, c: char, rest: string, r: string)
    requires 1 <= |bs| <= 4 && SequenceLength(bs[0]) == |bs|
    requires DecodeScalar(bs) == Some(c)
    requires DecodeUriComponent(rest) == Some(r)
    ensures DecodeUriComponent(PercentBytes(bs) + rest) == Some([c] + r)
  {
    var t := PercentBytes(bs) + rest;
    assert t[0] == '%' && ReadByte(t) == Some(bs[0]) by {
      assert t == PercentByte(bs[0]) + (PercentBytes(bs[1..]) + rest);
      ReadPercentByte(bs[0], PercentBytes(bs[1..]) + rest);
    }
    assert ReadBytes(t, |bs|) == Some(bs) by {
      ReadPercentBytes(bs, rest);
    }
    assert t[3 * |bs|..] == rest;
    DecodeEscapedCut(t, bs[0], bs, c, r);
  }

  /** Decoding the encoding of one character followed by an encoded rest. */
  lemma DecodeEncodedChar(c: char, rest: string, r: string)
    requires DecodeUriComponent(rest) == Some(r)
    ensures DecodeUriComponent(EncodeChar(c) + rest) == Some([c] + r)
  {
    var t := EncodeChar(c) + rest;
    if IsUnreserved(c) {
      assert t[0] == c && t[1..] == rest;
    } else {
      Utf8RoundTrip(c);
      DecodeEscaped(Utf8(c), c, rest, r);
    }
  }

  /** `decodeURIComponent(encodeURIComponent(s)) == s` for every string. */
  lemma {:induction false} DecodeEncode(s: string)
    ensures DecodeUriComponent(EncodeUriComponent(s)) == Some(s)
  {
    if s != [] {
      DecodeEncode(s[1..]);
      DecodeEncodedChar(s[0], EncodeUriComponent(s[1..]), s[1..]);
      assert [s[0]] + s[1..] == s;
    }
  }

  /** Distinct names never share an encoding. */
  lemma EncodeInjective(s1: string, s2: string)
    requires EncodeUriComponent(s1) == EncodeUriComponent(s2)
    ensures s1 == s2
  {
    DecodeEncode(s1);
    DecodeEncode(s2);
  }

  /** Encoding works character by character. */
  lemma {:induction false} EncodeAppend(a: string, b: string)
    ensures EncodeUriComponent(a + b) == EncodeUriComponent(a) + EncodeUriComponent(b)
  {
    if a != [] {
      assert (a + b)[1..] == a[1..] + b;
      EncodeAppend(a[1..], b);
    } else {
      assert a + b == b;
    }
  }

  /** A string of unreserved characters is its own encoding. */
  lemma {:induction false} EncodeUnreservedIsIdentity(s: string)
    requires forall x | x in s :: IsUnreserved(x)
    ensures EncodeUriComponent(s) == s
  {
    if s != [] {
      assert s[0] in s;
      EncodeUnreservedIsIdentity(s[1..]);
      assert [s[0]] + s[1..] == s;
    }
  }
}

/** UTF-8 (RFC 3629): what Swift's `String.data(using: .utf8)` produces from the
    Unicode scalar values of a string, and the strict decoder that reverses it. */
module Utf8 {
  import opened Wrappers
  import opened Text

  /** Unicode scalar values: the code points that are not surrogates. */
  predicate IsScalar(n: int) {
    (0 <= n < 0xD800) || (0xE000 <= n < 0x11_0000)
  }

  /** Number of octets RFC 3629 uses for a code point. */
  function Width(n: int): nat {
    if n < 0x80 then 1 else if n < 0x800 then 2 else if n < 0x1_0000 then 3 else 4
  }

  /** The octets of one character: the code point's bits, six at a time from the right,
      behind a lead octet whose high bits give the length. */
  function EncodeChar(c: char): (b: seq<byte>)
    ensures |b| == Width(c as int)
  {
    var n := c as int;
    var q1, r0 := n / 64, n % 64;
    var q2, r1 := q1 / 64, q1 % 64;
    var q3, r2 := q2 / 64, q2 % 64;
    if n < 0x80 then [n]
    else if n < 0x800 then [0xC0 + q1, 0x80 + r0]
    else if n < 0x1_0000 then [0xE0 + q2, 0x80 + r1, 0x80 + r0]
    else [0xF0 + q3, 0x80 + r2, 0x80 + r1, 0x80 + r0]
  }

  /** The UTF-8 encoding of a string. */
  function Encode(s: string): (b: seq<byte>)
    ensures |s| <= |b| <= 4 * |s|
  {
    if s == [] then [] else EncodeChar(s[0]) + Encode(s[1..])
  }

  predicate IsContinuation(x: int) {
    0x80 <= x < 0xC0
  }

  /** One decoded character and the number of octets it took. */
  datatype Decoded = Decoded(c: char, width: nat)

  /** Decodes the character at the front of a non-empty octet sequence. Overlong forms,
      surrogates and values above U+10FFFF are rejected (RFC 3629, section 3). */
  function DecodeFirst(b: seq<byte>): (r: Option<Decoded>)
    requires |b| > 0
    ensures r.Some? ==> 1 <= r.value.width <= |b| && r.value.width == Width(r.value.c as int)
  {
    var b0 := b[0] as int;
    if b0 < 0x80 then Some(Decoded(b0 as char, 1))
    else if b0 < 0xC0 then None
    else if b0 < 0xE0 then
      if |b| < 2 || !IsContinuation(b[1]) then None
      else
        var n := (b0 - 0xC0) * 64 + (b[1] - 0x80);
        if n < 0x80 then None else Some(Decoded(n as char, 2))
    else if b0 < 0xF0 then
      if |b| < 3 || !IsContinuation(b[1]) || !IsContinuation(b[2]) then None
      else
        var n := ((b0 - 0xE0) * 64 + (b[1] - 0x80)) * 64 + (b[2] - 0x80);
        if n < 0x800 || !IsScalar(n) then None else Some(Decoded(n as char, 3))
    else if b0 < 0xF8 then
      if |b| < 4 || !IsContinuation(b[1]) || !IsContinuation(b[2]) || !IsContinuation(b[3]) then None
      else
        var n := (((b0 - 0xF0) * 64 + (b[1] - 0x80)) * 64 + (b[2] - 0x80)) * 64 + (b[3] - 0x80);
        if n < 0x1_0000 || !IsScalar(n) then None else Some(Decoded(n as char, 4))
    else None
  }

  /** Decodes a whole octet sequence; None when it is not well-formed UTF-8. */
  function Decode(b: seq<byte>): (r: Option<string>)
    decreases |b|
  {
    if b == [] then Some([])
    else
      match DecodeFirst(b)
      case None => None
      case Some(d) =>
        match Decode(b[d.width..])
        case None => None
        case Some(rest) => Some([d.c] + rest)
  }

  /** Two-octet characters decode from their encoding. */
  lemma DecodeTwo(c: char, rest: seq<byte>)
    requires 0x80 <= c as int < 0x800
    ensures DecodeFirst(EncodeChar(c) + rest) == Some(Decoded(c, 2))
  {
    var n := c as int;
    var b := EncodeChar(c) + rest;
    assert b[0] as int - 0xC0 == n / 64 && b[1] as int - 0x80 == n % 64;
  }

  /** Three-octet characters decode from their encoding. */
  lemma DecodeThree(c: char, rest: seq<byte>)
    requires 0x800 <= c as int < 0x1_0000
    ensures DecodeFirst(EncodeChar(c) + rest) == Some(Decoded(c, 3))
  {
    var n := c as int;
    var q1 := n / 64;
    var b := EncodeChar(c) + rest;
    assert b[0] as int - 0xE0 == q1 / 64 && b[1] as int - 0x80 == q1 % 64 && b[2] as int - 0x80 == n % 64;
    assert (q1 / 64) * 64 + q1 % 64 == q1;
  }

  /** Four-octet characters decode from their encoding. */
  lemma DecodeFour(c: char, rest: seq<byte>)
    requires 0x1_0000 <= c as int
    ensures DecodeFirst(EncodeChar(c) + rest) == Some(Decoded(c, 4))
  {
    var n := c as int;
    var q1 := n / 64;
    var q2 := q1 / 64;
    var b := EncodeChar(c) + rest;
    assert b[0] as int - 0xF0 == q2 / 64 && b[1] as int - 0x80 == q2 % 64;
    assert b[2] as int - 0x80 == q1 % 64 && b[3] as int - 0x80 == n % 64;
    assert (q2 / 64) * 64 + q2 % 64 == q2;
    assert q2 * 64 + q1 % 64 == q1;
  }

  /** The lead octet of a character's encoding decodes the character, whatever follows. */
  lemma DecodeFirstEncodeChar(c: char, rest: seq<byte>)
    ensures DecodeFirst(EncodeChar(c) + rest) == Some(Decoded(c, |EncodeChar(c)|))
  {
    var n := c as int;
    if n < 0x80 {
    } else if n < 0x800 {
      DecodeTwo(c, rest);
    } else if n < 0x1_0000 {
      DecodeThree(c, rest);
    } else {
      DecodeFour(c, rest);
    }
  }

  /** A two-octet character re-encodes to the octets it was read from. */
  lemma ReencodeTwo(b: seq<byte>)
    requires |b| > 0 && DecodeFirst(b).Some? && DecodeFirst(b).value.width == 2
    ensures EncodeChar(DecodeFirst(b).value.c) == b[..2]
  {
    var n := DecodeFirst(b).value.c as int;
    var b0: int, b1: int := b[0], b[1];
    assert n == (b0 - 0xC0) * 64 + (b1 - 0x80);
    assert n / 64 == b0 - 0xC0 && n % 64 == b1 - 0x80;
  }

  /** A three-octet character re-encodes to the octets it was read from. */
  lemma ReencodeThree(b: seq<byte>)
    requires |b| > 0 && DecodeFirst(b).Some? && DecodeFirst(b).value.width == 3
    ensures EncodeChar(DecodeFirst(b).value.c) == b[..3]
  {
    var n := DecodeFirst(b).value.c as int;
    var b0: int, b1: int, b2: int := b[0], b[1], b[2];
    var q1 := (b0 - 0xE0) * 64 + (b1 - 0x80);
    assert n == q1 * 64 + (b2 - 0x80);
    assert n / 64 == q1 && n % 64 == b2 - 0x80;
    assert q1 / 64 == b0 - 0xE0 && q1 % 64 == b1 - 0x80;
  }

  /** A four-octet character re-encodes to the octets it was read from. */
  lemma ReencodeFour(b: seq<byte>)
    requires |b| > 0 && DecodeFirst(b).Some? && DecodeFirst(b).value.width == 4
    ensures EncodeChar(DecodeFirst(b).value.c) == b[..4]
  {
    var n := DecodeFirst(b).value.c as int;
    var b0: int, b1: int, b2: int, b3: int := b[0], b[1], b[2], b[3];
    var q2 := (b0 - 0xF0) * 64 + (b1 - 0x80);
    var q1 := q2 * 64 + (b2 - 0x80);
    assert n == q1 * 64 + (b3 - 0x80);
    assert n / 64 == q1 && n % 64 == b3 - 0x80;
    assert q1 / 64 == q2 && q1 % 64 == b2 - 0x80;
    assert q2 / 64 == b0 - 0xF0 && q2 % 64 == b1 - 0x80;
  }

  /** A decoded lead character re-encodes to the octets it was read from. */
  lemma EncodeCharDecodeFirst(b: seq<byte>)
    requires |b| > 0 && DecodeFirst(b).Some?
    ensures EncodeChar(DecodeFirst(b).value.c) == b[..DecodeFirst(b).value.width]
  {
    var w := DecodeFirst(b).value.width;
    if w == 2 {
      ReencodeTwo(b);
    } else if w == 3 {
      ReencodeThree(b);
    } else if w == 4 {
      ReencodeFour(b);
    }
  }

  /** Decoding the encoding of a string gives back the string. */
  lemma {:induction false} DecodeEncode(s: string)
    ensures Decode(Encode(s)) == Some(s)
  {
    if s != [] {
      var head, tail := EncodeChar(s[0]), Encode(s[1..]);
      DecodeFirstEncodeChar(s[0], tail);
      assert (head + tail)[|head|..] == tail;
      DecodeEncode(s[1..]);
      assert [s[0]] + s[1..] == s;
    }
  }

  /** Only canonical encodings decode: whatever decodes is the encoding of its result. */
  lemma {:induction false} EncodeDecode(b: seq<byte>)
    requires Decode(b).Some?
    ensures Encode(Decode(b).value) == b
    decreases |b|
  {
    if b != [] {
      var d := DecodeFirst(b).value;
      EncodeCharDecodeFirst(b);
      EncodeDecode(b[d.width..]);
      var s := Decode(b).value;
      assert s[0] == d.c && s[1..] == Decode(b[d.width..]).value;
      assert b == b[..d.width] + b[d.width..];
    }
  }
}

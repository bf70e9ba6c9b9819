/** Padded base64 with the standard alphabet, as defined in section 4 of RFC 4648 —
    what Foundation's `Data.base64EncodedString()` produces with no options. */
module Base64 {
  import opened Wrappers
  import opened Text

  /** A 6-bit group, the value one base64 character carries. */
  type sextet = x: int | 0 <= x < 64

  const Pad: char := '='

  /** The characters of the alphabet of RFC 4648, table 1. */
  predicate IsSymbol(c: char) {
    ('A' <= c <= 'Z') || ('a' <= c <= 'z') || ('0' <= c <= '9') || c == '+' || c == '/'
  }

  /** The character that encodes a 6-bit value (RFC 4648, table 1). */
  function Symbol(v: sextet): (c: char)
    ensures IsSymbol(c)
  {
    if v < 26 then ('A' as int + v) as char
    else if v < 52 then ('a' as int + (v - 26)) as char
    else if v < 62 then ('0' as int + (v - 52)) as char
    else if v == 62 then '+'
    else '/'
  }

  /** The 6-bit value an alphabet character encodes; the inverse of Symbol. */
  function ValueOf(c: char): (v: sextet)
    requires IsSymbol(c)
    ensures Symbol(v) == c
  {
    if 'A' <= c <= 'Z' then c as int - 'A' as int
    else if 'a' <= c <= 'z' then c as int - 'a' as int + 26
    else if '0' <= c <= '9' then c as int - '0' as int + 52
    else if c == '+' then 62
    else 63
  }

  lemma ValueOfSymbol(v: sextet)
    ensures ValueOf(Symbol(v)) == v
  {
  }

  /** Every character of an encoding is an alphabet character or the pad. */
  predicate InAlphabet(s: string) {
    forall i :: 0 <= i < |s| ==> IsSymbol(s[i]) || s[i] == Pad
  }

  /** Pads occur only in the last two positions. */
  predicate PadsAtEnd(s: string) {
    forall i :: 0 <= i < |s| && s[i] == Pad ==> |s| - 2 <= i
  }

  /** Three octets become four characters. */
  function EncodeTriple(a: byte, b: byte, c: byte): (s: string)
    ensures |s| == 4 && forall i :: 0 <= i < 4 ==> IsSymbol(s[i])
  {
    [Symbol(a / 4), Symbol((a % 4) * 16 + b / 16), Symbol((b % 16) * 4 + c / 64), Symbol(c % 64)]
  }

  /** A final group of two octets: three characters and one pad. */
  function EncodePair(a: byte, b: byte): (s: string)
    ensures |s| == 4 && InAlphabet(s) && PadsAtEnd(s)
  {
    [Symbol(a / 4), Symbol((a % 4) * 16 + b / 16), Symbol((b % 16) * 4), Pad]
  }

  /** A final group of one octet: two characters and two pads. */
  function EncodeSingle(a: byte): (s: string)
    ensures |s| == 4 && InAlphabet(s) && PadsAtEnd(s)
  {
    [Symbol(a / 4), Symbol((a % 4) * 16), Pad, Pad]
  }

  /** The base64 encoding of an octet sequence. */
  function Encode(data: seq<byte>): (s: string)
    ensures |s| == 4 * ((|data| + 2) / 3)
    ensures |s| % 4 == 0
    ensures InAlphabet(s)
    ensures PadsAtEnd(s)
    decreases |data|
  {
    if |data| == 0 then []
    else if |data| == 1 then EncodeSingle(data[0])
    else if |data| == 2 then EncodePair(data[0], data[1])
    else
      var head, tail := EncodeTriple(data[0], data[1], data[2]), Encode(data[3..]);
      AppendGroup(head, tail);
      GroupCount(|data|);
      head + tail
  }

  /** Three more octets make one more group of four characters. */
  lemma GroupCount(n: int)
    requires n >= 3
    ensures 4 * ((n + 2) / 3) == 4 + 4 * ((n - 3 + 2) / 3)
    ensures (4 * ((n + 2) / 3)) % 4 == 0
  {
  }

  /** A full group in front of an encoding keeps it in the alphabet with pads only at
      the end. */
  lemma AppendGroup(head: string, tail: string)
    requires |head| == 4 && forall i :: 0 <= i < 4 ==> IsSymbol(head[i])
    requires InAlphabet(tail) && PadsAtEnd(tail)
    ensures InAlphabet(head + tail) && PadsAtEnd(head + tail)
  {
    var s := head + tail;
    forall i | 0 <= i < |s|
      ensures (IsSymbol(s[i]) || s[i] == Pad) && (s[i] == Pad ==> |s| - 2 <= i)
    {
      if i >= 4 {
        assert s[i] == tail[i - 4];
      }
    }
  }

  /** The first octet of a group, from its first two characters' values. */
  function Join1(v0: sextet, v1: sextet): (a: byte)
    ensures a / 4 == v0 && a % 4 == v1 / 16
  {
    v0 * 4 + v1 / 16
  }

  /** The second octet of a group, from its second and third characters' values. */
  function Join2(v1: sextet, v2: sextet): (b: byte)
    ensures b / 16 == v1 % 16 && b % 16 == v2 / 4
  {
    (v1 % 16) * 16 + v2 / 4
  }

  /** The third octet of a group, from its last two characters' values. */
  function Join3(v2: sextet, v3: sextet): (c: byte)
    ensures c / 64 == v2 % 4 && c % 64 == v3
  {
    (v2 % 4) * 64 + v3
  }

  /** Decodes one group of four characters. Pads are accepted only in the last group,
      and the bits a pad makes unused must be zero (RFC 4648, section 3.5), so that every
      string has at most one decoding. */
  function DecodeQuad(q: string, last: bool): (r: Option<seq<byte>>)
    requires |q| == 4
    ensures r.Some? ==> 1 <= |r.value| <= 3
    ensures r.Some? && !last ==> |r.value| == 3
  {
    if !IsSymbol(q[0]) || !IsSymbol(q[1]) then None
    else
      var v0, v1 := ValueOf(q[0]), ValueOf(q[1]);
      if last && q[2] == Pad && q[3] == Pad then
        if v1 % 16 == 0 then Some([Join1(v0, v1)]) else None
      else if !IsSymbol(q[2]) then None
      else
        var v2 := ValueOf(q[2]);
        if last && q[3] == Pad then
          if v2 % 4 == 0 then Some([Join1(v0, v1), Join2(v1, v2)]) else None
        else if !IsSymbol(q[3]) then None
        else
          var v3 := ValueOf(q[3]);
          Some([Join1(v0, v1), Join2(v1, v2), Join3(v2, v3)])
  }

  /** Decodes a padded base64 string; None when the string is not a canonical encoding. */
  function Decode(s: string): (r: Option<seq<byte>>)
    decreases |s|
  {
    if |s| == 0 then Some([])
    else if |s| < 4 then None
    else
      match DecodeQuad(s[..4], |s| == 4)
      case None => None
      case Some(head) =>
        match Decode(s[4..])
        case None => None
        case Some(tail) => Some(head + tail)
  }

  /** The first two characters of a group split octet `a` and the high half of `b`. */
  lemma SplitFirst(a: byte, b: byte)
    ensures var v := (a % 4) * 16 + b / 16;
      0 <= v < 64 && v / 16 == a % 4 && v % 16 == b / 16
  {
    assert 0 <= b / 16 < 16;
  }

  /** The last two characters of a group split the low half of `b` and octet `c`. */
  lemma SplitSecond(b: byte, c: byte)
    ensures var v := (b % 16) * 4 + c / 64;
      0 <= v < 64 && v / 4 == b % 16 && v % 4 == c / 64
  {
    assert 0 <= c / 64 < 4;
  }

  /** The encoding of three octets decodes to them, in any position. */
  lemma DecodeTriple(a: byte, b: byte, c: byte, last: bool)
    ensures DecodeQuad(EncodeTriple(a, b, c), last) == Some([a, b, c])
  {
    var v0, v1, v2, v3 := a / 4, (a % 4) * 16 + b / 16, (b % 16) * 4 + c / 64, c % 64;
    SplitFirst(a, b);
    SplitSecond(b, c);
    ValueOfSymbol(v0);
    ValueOfSymbol(v1);
    ValueOfSymbol(v2);
    ValueOfSymbol(v3);
    assert Join1(v0, v1) == a && Join2(v1, v2) == b && Join3(v2, v3) == c;
  }

  /** The encoding of a final pair decodes to it. */
  lemma DecodePair(a: byte, b: byte)
    ensures DecodeQuad(EncodePair(a, b), true) == Some([a, b])
  {
    var v0, v1, v2 := a / 4, (a % 4) * 16 + b / 16, (b % 16) * 4;
    SplitFirst(a, b);
    SplitSecond(b, 0);
    ValueOfSymbol(v0);
    ValueOfSymbol(v1);
    ValueOfSymbol(v2);
    assert Join1(v0, v1) == a && Join2(v1, v2) == b;
  }

  /** The encoding of a final single octet decodes to it. */
  lemma DecodeSingle(a: byte)
    ensures DecodeQuad(EncodeSingle(a), true) == Some([a])
  {
    var v0, v1 := a / 4, (a % 4) * 16;
    SplitFirst(a, 0);
    ValueOfSymbol(v0);
    ValueOfSymbol(v1);
    assert Join1(v0, v1) == a;
  }

  /** Decoding proceeds group by group. */
  lemma DecodeStep(q: string, t: string, h: seq<byte>, u: seq<byte>)
    requires |q| == 4
    requires DecodeQuad(q, t == []) == Some(h)
    requires Decode(t) == Some(u)
    ensures Decode(q + t) == Some(h + u)
  {
    assert (q + t)[..4] == q;
    assert (q + t)[4..] == t;
  }

  lemma DecodeEncodeSingle(data: seq<byte>)
    requires |data| == 1
    ensures Decode(Encode(data)) == Some(data)
  {
    var a := data[0];
    DecodeSingle(a);
    DecodeStep(EncodeSingle(a), [], [a], []);
    assert EncodeSingle(a) + [] == Encode(data);
    assert [a] + [] == data;
  }

  lemma DecodeEncodePair(data: seq<byte>)
    requires |data| == 2
    ensures Decode(Encode(data)) == Some(data)
  {
    var a, b := data[0], data[1];
    DecodePair(a, b);
    DecodeStep(EncodePair(a, b), [], [a, b], []);
    assert EncodePair(a, b) + [] == Encode(data);
    assert [a, b] + [] == data;
  }

  lemma DecodeEncodeCons(a: byte, b: byte, c: byte, rest: seq<byte>)
    requires Decode(Encode(rest)) == Some(rest)
    ensures Decode(Encode([a, b, c] + rest)) == Some([a, b, c] + rest)
  {
    var data := [a, b, c] + rest;
    assert data[3..] == rest;
    var t := Encode(rest);
    assert Encode(data) == EncodeTriple(a, b, c) + t;
    DecodeTriple(a, b, c, t == []);
    DecodeStep(EncodeTriple(a, b, c), t, [a, b, c], rest);
  }

  /** A sequence of three or more octets is its first group followed by the rest. */
  lemma SplitHead(data: seq<byte>)
    requires |data| >= 3
    ensures data == [data[0], data[1], data[2]] + data[3..]
  {
  }

  lemma DecodeEncodeLong(data: seq<byte>)
    requires |data| >= 3
    requires Decode(Encode(data[3..])) == Some(data[3..])
    ensures Decode(Encode(data)) == Some(data)
  {
    SplitHead(data);
    DecodeEncodeCons(data[0], data[1], data[2], data[3..]);
  }

  /** Decoding an encoding gives back the octets. */
  lemma {:induction false} DecodeEncode(data: seq<byte>)
    ensures Decode(Encode(data)) == Some(data)
    decreases |data|
  {
    if |data| >= 3 {
      DecodeEncode(data[3..]);
      DecodeEncodeLong(data);
    } else if |data| == 2 {
      DecodeEncodePair(data);
    } else if |data| == 1 {
      DecodeEncodeSingle(data);
    }
  }

  /** A group that decodes to one octet re-encodes to itself. */
  lemma ReencodeSingle(q: string, last: bool)
    requires |q| == 4
    requires DecodeQuad(q, last).Some? && |DecodeQuad(q, last).value| == 1
    ensures EncodeSingle(DecodeQuad(q, last).value[0]) == q
  {
    var v0, v1 := ValueOf(q[0]), ValueOf(q[1]);
    var a := Join1(v0, v1);
    assert DecodeQuad(q, last).value == [a];
    assert (a % 4) * 16 == v1;
    assert EncodeSingle(a) == [Symbol(v0), Symbol(v1), Pad, Pad];
  }

  /** A group that decodes to two octets re-encodes to itself. */
  lemma ReencodePair(q: string, last: bool)
    requires |q| == 4
    requires DecodeQuad(q, last).Some? && |DecodeQuad(q, last).value| == 2
    ensures var h := DecodeQuad(q, last).value; EncodePair(h[0], h[1]) == q
  {
    var v0, v1, v2 := ValueOf(q[0]), ValueOf(q[1]), ValueOf(q[2]);
    var a, b := Join1(v0, v1), Join2(v1, v2);
    assert DecodeQuad(q, last).value == [a, b];
    assert (a % 4) * 16 + b / 16 == v1 && (b % 16) * 4 == v2;
    assert EncodePair(a, b) == [Symbol(v0), Symbol(v1), Symbol(v2), Pad];
  }

  /** A group that decodes to three octets holds four alphabet characters, joined. */
  lemma DecodedTriple(q: string, last: bool)
    requires |q| == 4
    requires DecodeQuad(q, last).Some? && |DecodeQuad(q, last).value| == 3
    ensures IsSymbol(q[0]) && IsSymbol(q[1]) && IsSymbol(q[2]) && IsSymbol(q[3])
    ensures var v0, v1, v2, v3 := ValueOf(q[0]), ValueOf(q[1]), ValueOf(q[2]), ValueOf(q[3]);
      DecodeQuad(q, last).value == [Join1(v0, v1), Join2(v1, v2), Join3(v2, v3)]
  {
  }

  /** Three joined octets encode as the four values they were joined from. */
  lemma EncodeJoined(v0: sextet, v1: sextet, v2: sextet, v3: sextet)
    ensures EncodeTriple(Join1(v0, v1), Join2(v1, v2), Join3(v2, v3)) == [Symbol(v0), Symbol(v1), Symbol(v2), Symbol(v3)]
  {
    var a, b, c := Join1(v0, v1), Join2(v1, v2), Join3(v2, v3);
    assert (a % 4) * 16 + b / 16 == v1 && (b % 16) * 4 + c / 64 == v2;
  }

  /** A group that decodes to three octets re-encodes to itself. */
  lemma ReencodeTriple(q: string, last: bool)
    requires |q| == 4
    requires DecodeQuad(q, last).Some? && |DecodeQuad(q, last).value| == 3
    ensures var h := DecodeQuad(q, last).value; EncodeTriple(h[0], h[1], h[2]) == q
  {
    DecodedTriple(q, last);
    var v0, v1, v2, v3 := ValueOf(q[0]), ValueOf(q[1]), ValueOf(q[2]), ValueOf(q[3]);
    EncodeJoined(v0, v1, v2, v3);
    SymbolsOfGroup(q);
  }

  /** A group of four alphabet characters is the symbols of their values. */
  lemma SymbolsOfGroup(q: string)
    requires |q| == 4 && IsSymbol(q[0]) && IsSymbol(q[1]) && IsSymbol(q[2]) && IsSymbol(q[3])
    ensures [Symbol(ValueOf(q[0])), Symbol(ValueOf(q[1])), Symbol(ValueOf(q[2])), Symbol(ValueOf(q[3]))] == q
  {
  }

  /** A group that decodes re-encodes to itself. */
  lemma EncodeDecodeQuad(q: string, last: bool)
    requires |q| == 4
    requires DecodeQuad(q, last).Some?
    ensures var h := DecodeQuad(q, last).value;
      (|h| == 3 ==> EncodeTriple(h[0], h[1], h[2]) == q)
      && (|h| == 2 ==> EncodePair(h[0], h[1]) == q)
      && (|h| == 1 ==> EncodeSingle(h[0]) == q)
  {
    var n := |DecodeQuad(q, last).value|;
    if n == 1 {
      ReencodeSingle(q, last);
    } else if n == 2 {
      ReencodePair(q, last);
    } else {
      ReencodeTriple(q, last);
    }
  }

  /** Encoding a sequence that starts with a full group encodes that group first. */
  lemma EncodeCons(h: seq<byte>, t: seq<byte>)
    requires |h| == 3
    ensures Encode(h + t) == EncodeTriple(h[0], h[1], h[2]) + Encode(t)
  {
    assert (h + t)[3..] == t;
  }

  /** The octets a last group decodes to encode as that group. */
  lemma EncodeLastGroup(q: string, h: seq<byte>)
    requires |q| == 4 && DecodeQuad(q, true) == Some(h)
    ensures Encode(h) == q
  {
    EncodeDecodeQuad(q, true);
    if |h| == 3 {
      EncodeCons(h, []);
      assert h + [] == h;
    }
  }

  /** Only canonical encodings decode: whatever decodes is the encoding of its result. */
  lemma {:induction false} EncodeDecode(s: string)
    requires Decode(s).Some?
    ensures Encode(Decode(s).value) == s
    decreases |s|
  {
    if |s| > 0 {
      var q, rest := s[..4], s[4..];
      var h := DecodeQuad(q, |s| == 4).value;
      var t := Decode(rest).value;
      assert Decode(s).value == h + t;
      if |s| == 4 {
        assert rest == [] && t == [] && q == s;
        EncodeLastGroup(q, h);
        assert h + t == h;
      } else {
        EncodeDecodeQuad(q, false);
        EncodeDecode(rest);
        EncodeCons(h, t);
        assert s == q + rest;
      }
    }
  }
}

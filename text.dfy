/** Bytes and the one text transformation the core applies to identifiers. */
module Text {

  /** An octet, as held in Swift's `Data`. */
  type byte = x: int | 0 <= x < 256

  predicate IsAsciiUpper(c: char) {
    'A' <= c <= 'Z'
  }

  /** Lower-cases one character: ASCII upper-case letters map to their lower-case form,
      every other character is kept. */
  function LowerChar(c: char): (d: char)
    ensures !IsAsciiUpper(d)
    ensures IsAsciiUpper(c) ==> d as int == c as int + 32
    ensures !IsAsciiUpper(c) ==> d == c
  {
    if IsAsciiUpper(c) then (c as int + 32) as char else c
  }

  /** Swift's `String.lowercased()`, restricted to the ASCII letters (the core applies it
      only to UUID strings and URL schemes, which are ASCII). */
  function Lowercase(s: string): (r: string)
    ensures |r| == |s|
    ensures forall i :: 0 <= i < |s| ==> r[i] == LowerChar(s[i])
    ensures forall i :: 0 <= i < |r| ==> !IsAsciiUpper(r[i])
  {
    if s == [] then [] else [LowerChar(s[0])] + Lowercase(s[1..])
  }
}

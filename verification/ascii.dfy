/**
  ASCII text. A Go `string` is a byte sequence and `len` counts bytes; restricting
  characters to the 7-bit range makes one character exactly one byte, so the length
  of an `AsciiString` is the Go length. Upper-casing is the ASCII letter mapping.
 */
module Ascii {
  type AsciiChar = c: char | c as int < 128 witness 'a'

  type AsciiString = seq<AsciiChar>

  type byte = b: int | 0 <= b < 256

  const LowerAlphabet: AsciiString := "abcdefghijklmnopqrstuvwxyz"
  const UpperAlphabet: AsciiString := "ABCDEFGHIJKLMNOPQRSTUVWXYZ"

  /** Every character of `s` is in the 7-bit range, so `s` is an AsciiString. */
  predicate IsAscii(s: string) {
    forall i :: 0 <= i < |s| ==> s[i] as int < 128
  }

  predicate IsLower(c: char) {
    'a' <= c <= 'z'
  }

  predicate IsUpper(c: char) {
    'A' <= c <= 'Z'
  }

  /** No character of `s` is a lower-case ASCII letter. */
  predicate NoLower(s: seq<char>) {
    forall i :: 0 <= i < |s| ==> !IsLower(s[i])
  }

  /** Upper-case one character: lower-case letters move 32 code points down, all else stays. */
  function UpperChar(c: AsciiChar): (u: AsciiChar)
    ensures !IsLower(u)
    ensures IsLower(c) ==> IsUpper(u) && u as int == c as int - 32
    ensures !IsLower(c) ==> u == c
  {
    if IsLower(c) then (c as int - 32) as char else c
  }

  /** Upper-case a whole string, one character at a time. */
  function Upper(s: AsciiString): (r: AsciiString)
    ensures |r| == |s|
    ensures forall i :: 0 <= i < |s| ==> r[i] == UpperChar(s[i])
    ensures NoLower(r)
  {
    if s == [] then [] else [UpperChar(s[0])] + Upper(s[1..])
  }

  /** UpperChar agrees with the alphabet tables: the i-th small letter becomes the i-th capital. */
  lemma UpperCharMatchesAlphabet(c: AsciiChar)
    ensures forall i :: 0 <= i < 26 ==> UpperChar(LowerAlphabet[i]) == UpperAlphabet[i]
    ensures c !in LowerAlphabet ==> UpperChar(c) == c
  {
  }

  /** Upper-casing twice is upper-casing once. */
  lemma UpperIdempotent(s: AsciiString)
    ensures Upper(Upper(s)) == Upper(s)
  {
    var u := Upper(s);
    assert forall i :: 0 <= i < |u| ==> Upper(u)[i] == u[i];
  }

  /** A string is left unchanged by Upper exactly when it holds no small letter. */
  lemma UpperFixedIff(s: AsciiString)
    ensures Upper(s) == s <==> NoLower(s)
  {
    if NoLower(s) {
      assert forall i :: 0 <= i < |s| ==> Upper(s)[i] == s[i];
    }
  }

  /** Upper works character by character, so it distributes over concatenation. */
  lemma {:induction false} UpperConcat(a: AsciiString, b: AsciiString)
    ensures Upper(a + b) == Upper(a) + Upper(b)
  {
    var l, r := Upper(a + b), Upper(a) + Upper(b);
    assert |l| == |r|;
    forall i | 0 <= i < |l|
      ensures l[i] == r[i]
    {
      if i < |a| {
        assert (a + b)[i] == a[i];
      } else {
        assert (a + b)[i] == b[i - |a|];
      }
    }
  }

  /** The byte form of an ASCII string: each character is the single byte of its code point. */
  function Encode(s: AsciiString): (b: seq<byte>)
    ensures |b| == |s|
    ensures forall i :: 0 <= i < |s| ==> b[i] == s[i] as int
  {
    if s == [] then [] else [s[0] as int] + Encode(s[1..])
  }
}

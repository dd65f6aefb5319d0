/**
 * Text helpers shared by the modules: ASCII case mapping, Python's `sep.join`,
 * decimal rendering of integers and suffix tests.
 */
module Strings {

  predicate IsAsciiUpper(c: char) { 'A' <= c <= 'Z' }

  predicate IsAsciiLower(c: char) { 'a' <= c <= 'z' }

  predicate IsDigit(c: char) { '0' <= c <= '9' }

  /** A lower-case hexadecimal digit, as `hexdigest()` produces them. */
  predicate IsLowerHex(c: char) { IsDigit(c) || 'a' <= c <= 'f' }

  /** An upper-case hexadecimal digit. */
  predicate IsUpperHex(c: char) { IsDigit(c) || 'A' <= c <= 'F' }

  function LowerChar(c: char): (r: char)
    ensures IsAsciiUpper(c) ==> IsAsciiLower(r) && r as int == c as int + 32
    ensures !IsAsciiUpper(c) ==> r == c
  {
    if IsAsciiUpper(c) then (c as int + 32) as char else c
  }

  function UpperChar(c: char): (r: char)
    ensures IsAsciiLower(c) ==> IsAsciiUpper(r) && r as int == c as int - 32
    ensures !IsAsciiLower(c) ==> r == c
  {
    if IsAsciiLower(c) then (c as int - 32) as char else c
  }

  /** `s.lower()`, restricted to the ASCII letters. */
  function Lower(s: string): (r: string)
    ensures |r| == |s|
    ensures forall i :: 0 <= i < |s| ==> r[i] == LowerChar(s[i])
  {
    seq(|s|, i requires 0 <= i < |s| => LowerChar(s[i]))
  }

  /** `s.upper()`, restricted to the ASCII letters. */
  function Upper(s: string): (r: string)
    ensures |r| == |s|
    ensures forall i :: 0 <= i < |s| ==> r[i] == UpperChar(s[i])
  {
    seq(|s|, i requires 0 <= i < |s| => UpperChar(s[i]))
  }

  lemma LowerConcat(a: string, b: string)
    ensures Lower(a + b) == Lower(a) + Lower(b)
  {
    assert forall i :: 0 <= i < |a + b| ==> Lower(a + b)[i] == (Lower(a) + Lower(b))[i];
  }

  /** Upper-casing a lower-case hexadecimal string gives an upper-case one of the same length. */
  lemma UpperOfLowerHex(s: string)
    requires forall i :: 0 <= i < |s| ==> IsLowerHex(s[i])
    ensures forall i :: 0 <= i < |Upper(s)| ==> IsUpperHex(Upper(s)[i])
  {
  }

  /** Text made only of ASCII characters: what Python 2's default codec can encode. */
  predicate IsAscii(s: string)
  {
    forall i :: 0 <= i < |s| ==> s[i] as int < 128
  }

  /** Changing the case of ASCII letters neither adds nor removes other characters. */
  lemma LowerKeepsAscii(s: string)
    ensures IsAscii(Lower(s)) <==> IsAscii(s)
  {
    if !IsAscii(s) {
      var i :| 0 <= i < |s| && s[i] as int >= 128;
      assert Lower(s)[i] == s[i];
    }
  }

  lemma AsciiConcat(a: string, b: string)
    ensures IsAscii(a + b) <==> IsAscii(a) && IsAscii(b)
  {
    assert forall i :: 0 <= i < |a| ==> a[i] == (a + b)[i];
    assert forall i :: 0 <= i < |b| ==> b[i] == (a + b)[|a| + i];
  }

  /** Lower-casing undoes upper-casing on lower-case hexadecimal text. */
  lemma LowerOfUpperHex(s: string)
    requires forall i :: 0 <= i < |s| ==> IsLowerHex(s[i])
    ensures Lower(Upper(s)) == s
  {
    assert forall i :: 0 <= i < |s| ==> Lower(Upper(s))[i] == s[i];
  }

  /** Python's `sep.join(parts)`. */
  function Join(sep: string, parts: seq<string>): (r: string)
    decreases |parts|
  {
    if |parts| == 0 then ""
    else if |parts| == 1 then parts[0]
    else parts[0] + sep + Join(sep, parts[1..])
  }

  function LowerAll(parts: seq<string>): (r: seq<string>)
    ensures |r| == |parts|
    ensures forall i :: 0 <= i < |parts| ==> r[i] == Lower(parts[i])
  {
    seq(|parts|, i requires 0 <= i < |parts| => Lower(parts[i]))
  }

  /** Lower-casing a joined key is joining the lower-cased parts (with a separator free of letters). */
  lemma {:induction false} LowerJoin(sep: string, parts: seq<string>)
    requires Lower(sep) == sep
    ensures Lower(Join(sep, parts)) == Join(sep, LowerAll(parts))
    decreases |parts|
  {
    if |parts| > 1 {
      LowerJoin(sep, parts[1..]);
      assert LowerAll(parts)[1..] == LowerAll(parts[1..]);
      LowerConcat(parts[0] + sep, Join(sep, parts[1..]));
      LowerConcat(parts[0], sep);
    }
  }

  function DigitChar(d: nat): (c: char)
    requires d < 10
    ensures IsDigit(c)
  {
    ['0', '1', '2', '3', '4', '5', '6', '7', '8', '9'][d]
  }

  /** The decimal form of a natural number, as Python's `str` and JavaScript's `String` write it. */
  function NatToString(n: nat): (r: string)
    ensures |r| > 0
    ensures forall i :: 0 <= i < |r| ==> IsDigit(r[i])
  {
    if n < 10 then [DigitChar(n)] else NatToString(n / 10) + [DigitChar(n % 10)]
  }

  /** The decimal form of an integer, with a leading '-' when it is negative. */
  function IntToString(n: int): (r: string)
    ensures |r| > 0
    ensures (r[0] == '-') <==> n < 0
  {
    if n < 0 then "-" + NatToString(-n) else NatToString(n)
  }

  predicate EndsWith(s: string, suffix: string)
  {
    |suffix| <= |s| && s[|s| - |suffix|..] == suffix
  }
}

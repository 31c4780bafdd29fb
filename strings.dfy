/**
 * The two pieces of Java string behaviour the rental registry relies on:
 * appending a non-negative int to a string (decimal digits, no leading zero)
 * and `String.equalsIgnoreCase`.
 */
module Strings {

  /** The character of decimal digit `d`. */
  function Digit(d: nat): (c: char)
    requires d < 10
    ensures '0' <= c <= '9'
  {
    (('0' as int) + d) as char
  }

  /** The numeric value of a decimal digit character. */
  function DigitValue(c: char): (v: int)
  {
    (c as int) - ('0' as int)
  }

  /** The decimal text Java produces for `"" + n` when `n >= 0`. */
  function NatToString(n: nat): (s: string)
    ensures |s| >= 1
    ensures forall i :: 0 <= i < |s| ==> '0' <= s[i] <= '9'
    ensures s[0] == '0' <==> n == 0
    ensures n == 0 ==> s == "0"
    decreases n
  {
    if n < 10 then [Digit(n)] else NatToString(n / 10) + [Digit(n % 10)]
  }

  /** Reads a string of decimal digits back as a number (the inverse of NatToString). */
  function ParseDecimal(s: string): (n: int)
  {
    if s == [] then 0 else ParseDecimal(s[..|s| - 1]) * 10 + DigitValue(s[|s| - 1])
  }

  /** Printing a number and reading it back gives the number. */
  lemma {:induction false} ParseNatToString(n: nat)
    ensures ParseDecimal(NatToString(n)) == n
    decreases n
  {
    var s := NatToString(n);
    if n < 10 {
      assert s[..|s| - 1] == [];
    } else {
      ParseNatToString(n / 10);
      assert s[..|s| - 1] == NatToString(n / 10);
    }
  }

  /** Distinct numbers are printed as distinct strings. */
  lemma NatToStringInjective(a: nat, b: nat)
    ensures NatToString(a) == NatToString(b) <==> a == b
  {
    ParseNatToString(a);
    ParseNatToString(b);
  }

  /** Upper-casing of one character, restricted to the ASCII letters. */
  function ToUpperAscii(c: char): (u: char)
  {
    if 'a' <= c <= 'z' then ((c as int) - 32) as char else c
  }

  /** Two characters that are equal, or are the lower- and upper-case forms of one ASCII letter. */
  predicate SameIgnoringCase(x: char, y: char)
  {
    x == y ||
    ('a' <= x <= 'z' && (y as int) == (x as int) - 32) ||
    ('A' <= x <= 'Z' && (y as int) == (x as int) + 32)
  }

  /**
   * `a.equalsIgnoreCase(b)`: comparing upper-cased characters is the same as
   * asking that the strings have one length and agree position by position
   * up to the case of a letter.
   */
  predicate EqualsIgnoreCase(a: string, b: string): (same: bool)
    ensures same <==> |a| == |b| && forall i :: 0 <= i < |a| ==> SameIgnoringCase(a[i], b[i])
  {
    |a| == |b| && forall i :: 0 <= i < |a| ==> ToUpperAscii(a[i]) == ToUpperAscii(b[i])
  }
}

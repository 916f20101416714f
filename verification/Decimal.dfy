/** Natural numbers in decimal, without leading zeros, as `String(n)` prints them. */
module Decimal {

  predicate IsDigit(c: char) { '0' <= c <= '9' }

  function DigitOf(c: char): (d: nat)
    requires IsDigit(c)
    ensures d < 10
  {
    c as int - '0' as int
  }

  function CharOf(d: nat): (c: char)
    requires d < 10
    ensures IsDigit(c) && DigitOf(c) == d
  {
    '0' + d as char
  }

  function Print(n: nat): string
  {
    if n < 10 then [CharOf(n)] else Print(n / 10) + [CharOf(n % 10)]
  }

  predicate Digits(s: string) { |s| > 0 && forall i :: 0 <= i < |s| ==> IsDigit(s[i]) }

  /** `0`, or digits that do not begin with `0`. */
  predicate Canonical(s: string) { Digits(s) && (s[0] == '0' ==> |s| == 1) }

  function Value(s: string): nat
    requires Digits(s)
  {
    if |s| == 1 then DigitOf(s[0]) else 10 * Value(s[..|s| - 1]) + DigitOf(s[|s| - 1])
  }

  /** Printing is canonical, and reading it back gives the number. */
  lemma {:induction false} PrintReadsBack(n: nat)
    ensures Canonical(Print(n)) && Value(Print(n)) == n && (n > 0 ==> Print(n)[0] != '0')
  {
    if n >= 10 {
      PrintReadsBack(n / 10);
      assert Print(n)[..|Print(n)| - 1] == Print(n / 10);
    }
  }

  /** A canonical text is the print of the number it reads as. */
  lemma {:induction false} ReadPrintsBack(s: string)
    requires Canonical(s)
    ensures Print(Value(s)) == s && (s[0] != '0' ==> Value(s) > 0)
  {
    if |s| > 1 {
      var front := s[..|s| - 1];
      ReadPrintsBack(front);
      assert Value(s) / 10 == Value(front) && Value(s) % 10 == DigitOf(s[|s| - 1]);
      assert s == front + [s[|s| - 1]];
    }
  }
}

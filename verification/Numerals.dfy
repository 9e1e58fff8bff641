/** Decimal numbers as the patterns of scripts/release.py write them. */
module Numerals {

  predicate IsDigit(c: char)
  {
    '0' <= c <= '9'
  }

  function DigitOf(n: nat): (c: char)
    requires n < 10
    ensures IsDigit(c)
  {
    '0' + n as char
  }

  function ValueOf(c: char): (n: nat)
    requires IsDigit(c)
    ensures n < 10
  {
    (c - '0') as int
  }

  predicate AllDigits(s: string)
  {
    forall i :: 0 <= i < |s| ==> IsDigit(s[i])
  }

  /** The regular expression `0|[1-9][0-9]*`. */
  predicate Canonical(s: string)
  {
    s != "" && AllDigits(s) && (|s| == 1 || s[0] != '0')
  }

  function Print(n: nat): (s: string)
  {
    if n < 10 then [DigitOf(n)] else Print(n / 10) + [DigitOf(n % 10)]
  }

  function Value(s: string): (n: nat)
    requires AllDigits(s)
  {
    if s == "" then 0 else Value(s[..|s| - 1]) * 10 + ValueOf(s[|s| - 1])
  }

  lemma DigitRoundTrip(n: nat, c: char)
    ensures n < 10 ==> ValueOf(DigitOf(n)) == n
    ensures IsDigit(c) ==> DigitOf(ValueOf(c)) == c
  {
  }

  /** Printing gives a canonical numeral with the same value. */
  lemma {:induction false} PrintThenParse(n: nat)
    ensures Canonical(Print(n)) && Value(Print(n)) == n && (n > 0 ==> Print(n)[0] != '0')
  {
    if n < 10 {
      DigitRoundTrip(n, '0');
      assert Print(n)[..0] == "";
    } else {
      PrintThenParse(n / 10);
      DigitRoundTrip(n % 10, '0');
      var s := Print(n);
      assert s[..|s| - 1] == Print(n / 10);
    }
  }

  lemma {:induction false} PositiveValue(s: string)
    requires Canonical(s) && s[0] != '0'
    ensures Value(s) > 0
  {
    if |s| > 1 {
      PositiveValue(s[..|s| - 1]);
    } else {
      assert s[..0] == "";
    }
  }

  /** A canonical numeral is the print of its value: there is one per number. */
  lemma {:induction false} ParseThenPrint(s: string)
    requires Canonical(s)
    ensures Print(Value(s)) == s
  {
    var n := |s| - 1;
    DigitRoundTrip(0, s[n]);
    if n == 0 {
      assert s[..0] == "" && s == [s[0]];
    } else {
      PositiveValue(s[..n]);
      ParseThenPrint(s[..n]);
      assert s == s[..n] + [s[n]];
    }
  }
}

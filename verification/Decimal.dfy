/** Decimal numerals: `strconv.Itoa`/`FormatUint` and the value of a digit string. */
module Decimal {

  predicate IsDigit(c: char) {
    '0' <= c <= '9'
  }

  predicate AllDigits(s: string) {
    forall i :: 0 <= i < |s| ==> IsDigit(s[i])
  }

  function DigitChar(d: int): char
    requires 0 <= d < 10
  {
    ('0' as int + d) as char
  }

  function DigitValue(c: char): int {
    c as int - '0' as int
  }

  function Itoa(n: nat): (s: string)
    ensures s != []
  {
    if n < 10 then [DigitChar(n)] else Itoa(n / 10) + [DigitChar(n % 10)]
  }

  function Value(s: string): int {
    if s == [] then 0 else 10 * Value(s[..|s| - 1]) + DigitValue(s[|s| - 1])
  }

  /** A numeral is digits, reads back as its number and has no leading zero. */
  lemma {:induction false} ItoaRoundTrip(n: nat)
    ensures AllDigits(Itoa(n)) && Value(Itoa(n)) == n
    ensures Itoa(n)[0] == '0' ==> n == 0
    decreases n
  {
    if n >= 10 {
      ItoaRoundTrip(n / 10);
      assert Itoa(n)[..|Itoa(n)| - 1] == Itoa(n / 10);
    } else {
      assert Itoa(n)[..0] == [];
    }
  }

  lemma ItoaInjective(m: nat, n: nat)
    requires Itoa(m) == Itoa(n)
    ensures m == n
  {
    ItoaRoundTrip(m);
    ItoaRoundTrip(n);
  }

  lemma {:induction false} ValueNonNegative(s: string)
    requires AllDigits(s)
    ensures Value(s) >= 0
    decreases |s|
  {
    if s != [] {
      ValueNonNegative(s[..|s| - 1]);
    }
  }

  lemma ItoaShort(n: nat)
    ensures n < 10 ==> |Itoa(n)| == 1
    ensures n < 100 ==> |Itoa(n)| <= 2
    ensures n < 1000 ==> |Itoa(n)| <= 3
    ensures n < 10000 ==> |Itoa(n)| <= 4
  {
  }
}

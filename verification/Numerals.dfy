// Decimal numerals: as %d prints them, and read back digit by digit.

module Numerals {

  // ----- Printing.

  function Digit(d: nat): char
    requires d < 10
  {
    "0123456789"[d]
  }

  /** Decimal text of a number, as %d prints it. */
  function Decimal(n: nat): string {
    if n < 10 then [Digit(n)] else Decimal(n / 10) + [Digit(n % 10)]
  }

  // ----- Reading.

  predicate IsDigit(c: char) {
    '0' <= c <= '9'
  }

  /** Digits, without a leading zero. */
  predicate IsNumeral(s: string) {
    s != "" && (forall i :: 0 <= i < |s| ==> IsDigit(s[i])) && (|s| > 1 ==> s[0] != '0')
  }

  function Value(s: string): int {
    if s == "" then 0 else 10 * Value(s[..|s| - 1]) + (s[|s| - 1] as int - '0' as int)
  }

  lemma DigitReads(d: nat)
    requires d < 10
    ensures IsDigit(Digit(d)) && Digit(d) as int - '0' as int == d
  {
    assert forall k :: 0 <= k < 10 ==> "0123456789"[k] as int == '0' as int + k;
  }

  lemma {:induction false} DecimalReads(n: nat)
    ensures IsNumeral(Decimal(n)) && Value(Decimal(n)) == n
    ensures n > 0 ==> Decimal(n)[0] != '0'
  {
    DigitReads(n % 10);
    var s := Decimal(n);
    if n < 10 {
      assert s[..0] == "";
    } else {
      DecimalReads(n / 10);
      assert s[..|s| - 1] == Decimal(n / 10) && s[|s| - 1] == Digit(n % 10);
    }
  }

  lemma DecimalInjective(m: nat, n: nat)
    ensures Decimal(m) == Decimal(n) ==> m == n
  {
    DecimalReads(m);
    DecimalReads(n);
  }
}

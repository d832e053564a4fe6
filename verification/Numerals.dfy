/** Decimal numerals as the programs print them. */
module Numerals {
  function Digit(n: nat): char
    requires n < 10
  {
    ('0' as int + n) as char
  }

  function Decimal(n: nat): string {
    if n < 10 then [Digit(n)] else Decimal(n / 10) + [Digit(n % 10)]
  }

  /** The number that a numeral denotes. */
  function ValueOf(digits: string): int {
    if digits == "" then 0 else 10 * ValueOf(digits[..|digits| - 1]) + (digits[|digits| - 1] as int - '0' as int)
  }

  /** A numeral denotes its number, in digits, without leading zeros. */
  lemma {:induction false} DecimalDenotes(n: nat)
    ensures ValueOf(Decimal(n)) == n
    ensures Decimal(n) != "" && (forall c <- Decimal(n) :: '0' <= c <= '9') && (Decimal(n)[0] == '0' <==> n == 0)
  {
    if n < 10 {
      assert Decimal(n)[..0] == "";
    } else {
      DecimalDenotes(n / 10);
      assert Decimal(n)[..|Decimal(n)| - 1] == Decimal(n / 10);
    }
  }

  function Power10(d: nat): nat {
    if d == 0 then 1 else 10 * Power10(d - 1)
  }

  lemma {:induction false} DecimalDigits(n: nat, d: nat)
    requires d > 0
    ensures |Decimal(n)| <= d <==> n < Power10(d)
  {
    if n < 10 {
      PowerPositive(d - 1);
    } else if d == 1 {
      assert |Decimal(n / 10)| > 0;
    } else {
      DecimalDigits(n / 10, d - 1);
    }
  }

  lemma PowerPositive(d: nat)
    ensures Power10(d) > 0
  {
  }
}

/** Decimal numerals, as ids and idempotency keys print numbers. */
module Decimal {

  function Digit(d: nat): char
    requires d < 10
  {
    "0123456789"[d]
  }

  function DigitValue(c: char): nat {
    if '0' <= c <= '9' then c as int - '0' as int else 0
  }

  lemma DigitHasItsValue(d: nat)
    requires d < 10
    ensures DigitValue(Digit(d)) == d
  {
  }

  function Digits(n: nat): (s: string)
    ensures s != ""
  {
    if n < 10 then [Digit(n)] else Digits(n / 10) + [Digit(n % 10)]
  }

  function Value(s: string): nat {
    if s == "" then 0 else 10 * Value(s[..|s| - 1]) + DigitValue(s[|s| - 1])
  }

  lemma {:induction false} DigitsHaveTheirValue(n: nat)
    ensures Value(Digits(n)) == n
  {
    var s := Digits(n);
    DigitHasItsValue(n % 10);
    if n < 10 {
      assert Value(s[..0]) == 0;
    } else {
      DigitsHaveTheirValue(n / 10);
      assert s[..|s| - 1] == Digits(n / 10);
    }
  }

  /** Different numbers have different numerals. */
  lemma DigitsAreInjective(m: nat, n: nat)
    ensures Digits(m) == Digits(n) <==> m == n
  {
    DigitsHaveTheirValue(m);
    DigitsHaveTheirValue(n);
  }
}

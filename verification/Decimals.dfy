/** Natural numbers in decimal. */
module Decimals {
  import opened Prelude

  function Digit(d: nat): char
    requires d < 10
  {
    '0' + d as char
  }

  predicate IsDigit(c: char) {
    '0' <= c <= '9'
  }

  predicate AllDigits(s: string) {
    forall i | 0 <= i < |s| :: IsDigit(s[i])
  }

  function Print(n: nat): string {
    if n < 10 then [Digit(n)] else Print(n / 10) + [Digit(n % 10)]
  }

  function Value(s: string): nat
    requires AllDigits(s)
  {
    if s == [] then 0 else 10 * Value(Init(s)) + (Last(s) - '0') as nat
  }

  lemma {:induction false} PrintValue(n: nat)
    ensures Print(n) != [] && AllDigits(Print(n)) && Value(Print(n)) == n
  {
    if n < 10 {
      assert Init([Digit(n)]) == [];
    } else {
      PrintValue(n / 10);
      assert Init(Print(n)) == Print(n / 10) && Last(Print(n)) == Digit(n % 10);
    }
  }
}

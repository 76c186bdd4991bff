/** Decimal numerals, as Python's `str` and `int` write and read them. */
module Decimal {

  function Digit(d: nat): char
    requires d < 10
  {
    ('0' as int + d) as char
  }

  predicate IsDigit(c: char) { '0' <= c <= '9' }

  function Value(c: char): nat
    requires IsDigit(c)
  {
    c as int - '0' as int
  }

  function Print(n: nat): string {
    if n < 10 then [Digit(n)] else Print(n / 10) + [Digit(n % 10)]
  }

  predicate Numeral(s: string) { s != "" && forall i | 0 <= i < |s| :: IsDigit(s[i]) }

  function Read(s: string): nat
    requires forall i | 0 <= i < |s| :: IsDigit(s[i])
  {
    if s == "" then 0 else 10 * Read(s[..|s| - 1]) + Value(s[|s| - 1])
  }

  lemma {:induction false} ReadPrint(n: nat)
    ensures Numeral(Print(n)) && Read(Print(n)) == n
  {
    assert Read("") == 0;
    if n < 10 {
      assert Print(n)[..0] == "";
    } else {
      ReadPrint(n / 10);
      assert Print(n)[..|Print(n)| - 1] == Print(n / 10);
    }
  }
}

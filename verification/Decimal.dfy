/** Decimal numerals, as the report and patch readers accept and print them. */
module Decimal {

  predicate IsDigit(c: char) {
    '0' <= c <= '9'
  }

  /** One or more ASCII digits and nothing else. */
  predicate IsNumeral(s: string) {
    |s| > 0 && forall i :: 0 <= i < |s| ==> IsDigit(s[i])
  }

  function DigitValue(c: char): nat
    requires IsDigit(c)
  {
    c as int - '0' as int
  }

  function Value(s: string): nat
    requires forall i :: 0 <= i < |s| ==> IsDigit(s[i])
  {
    if s == [] then 0 else Value(s[..|s| - 1]) * 10 + DigitValue(s[|s| - 1])
  }

  function Render(n: nat): (s: string)
    ensures IsNumeral(s)
  {
    var digit := [('0' as int + n % 10) as char];
    if n < 10 then digit else Render(n / 10) + digit
  }

  /** Printing a number and reading it back gives the number. */
  lemma {:induction false} RenderThenValue(n: nat)
    ensures Value(Render(n)) == n
  {
    var s := Render(n);
    if n >= 10 {
      RenderThenValue(n / 10);
      assert s[..|s| - 1] == Render(n / 10);
    } else {
      assert s[..|s| - 1] == [];
    }
  }
}

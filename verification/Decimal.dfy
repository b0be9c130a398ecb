/** Decimal text of natural numbers, as string formatting writes it and parsing reads it. */
module Decimal {

  predicate IsDigit(c: char) { '0' <= c <= '9' }

  const DIGITS: string := "0123456789"

  function Show(n: nat): string {
    if n < 10 then [DIGITS[n]] else Show(n / 10) + [DIGITS[n % 10]]
  }

  function DigitValue(c: char): nat { if IsDigit(c) then (c as int) - ('0' as int) else 0 }

  function Read(ds: string): nat {
    if ds == [] then 0 else Read(ds[..|ds| - 1]) * 10 + DigitValue(ds[|ds| - 1])
  }

  lemma ShowDigit(d: nat)
    requires d < 10
    ensures IsDigit(DIGITS[d]) && DigitValue(DIGITS[d]) == d
  {}

  lemma {:induction false} ShowIsDigits(n: nat)
    ensures Show(n) != [] && forall i :: 0 <= i < |Show(n)| ==> IsDigit(Show(n)[i])
  {
    ShowDigit(n % 10);
    if n < 10 { ShowDigit(n); } else { ShowIsDigits(n / 10); }
  }

  /** Reading what was written gives the number back. */
  lemma {:induction false} ReadShow(n: nat)
    ensures Read(Show(n)) == n
  {
    if n < 10 {
      ShowDigit(n);
      assert Show(n)[..0] == [];
      assert Read([]) == 0;
    } else {
      ReadShow(n / 10);
      ShowDigit(n % 10);
      assert Show(n)[..|Show(n)| - 1] == Show(n / 10);
    }
  }
}

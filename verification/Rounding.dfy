/** Amounts in euros, and rounding to whole cents. */
module Rounding {
  /** `cents` whole cents, in euros. */
  function Eur(cents: int): real { cents as real / 100.0 }

  /** Round half away from zero. */
  function Round(x: real): int {
    if x >= 0.0 then (x + 0.5).Floor else -(0.5 - x).Floor
  }

  function RoundEUR(v: real): real { Round(v * 100.0) as real / 100.0 }

  lemma RoundIsNear(x: real)
    ensures x - 0.5 <= Round(x) as real <= x + 0.5
    ensures Round(-x) == -Round(x)
    ensures x >= 0.0 ==> x < Round(x) as real + 0.5
  {}

  lemma RoundWhole(n: int)
    ensures Round(n as real) == n
  {}

  /** Whole cents survive rounding, and sums and differences of whole cents are whole cents. */
  lemma RoundCents(a: int)
    ensures RoundEUR(Eur(a)) == Eur(a)
  {
    assert Eur(a) * 100.0 == a as real;
    RoundWhole(a);
  }

  lemma RoundSum(a: int, b: int)
    ensures RoundEUR(Eur(a) + Eur(b)) == Eur(a + b)
    ensures RoundEUR(Eur(a) - Eur(b)) == Eur(a - b)
  {
    assert Eur(a) + Eur(b) == Eur(a + b) && Eur(a) - Eur(b) == Eur(a - b);
    RoundCents(a + b);
    RoundCents(a - b);
  }
}

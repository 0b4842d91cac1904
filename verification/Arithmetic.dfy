// Rounded division and the few facts about products that fees and decimals need.
module Arithmetic {
  lemma Scaled(a: int, b: int, m: nat)
    ensures a <= b ==> a * m <= b * m
    ensures a < b && m > 0 ==> a * m < b * m
  {
    if a <= b {
      assert (b - a) * m >= 0;
    }
    if a < b && m > 0 {
      assert (b - a) * m > 0;
    }
  }

  lemma Cancel(a: int, b: int, m: nat)
    requires a * m < b * m
    ensures a < b
  {
    Scaled(b, a, m);
  }

  lemma DivBounds(x: nat, m: nat)
    requires m > 0
    ensures (x / m) * m <= x < (x / m + 1) * m
    ensures x / m >= 0
  {
    assert x == m * (x / m) + x % m;
    Cancel(0, x / m + 1, m);
  }

  // Division of unsigned words, rounded down: how often m fits into x.
  function Quotient(x: nat, m: nat): (q: nat)
    requires m > 0
    ensures q <= x
  {
    if x < m then 0 else 1 + Quotient(x - m, m)
  }

  lemma {:induction false} QuotientBounds(x: nat, m: nat)
    requires m > 0
    ensures Quotient(x, m) * m <= x < (Quotient(x, m) + 1) * m
  {
    if x >= m {
      QuotientBounds(x - m, m);
    }
  }

  // It is the integer division that contracts and relayer use.
  lemma QuotientIsDivision(x: nat, m: nat)
    requires m > 0
    ensures Quotient(x, m) == x / m
  {
    QuotientBounds(x, m);
    DivBounds(x, m);
    if Quotient(x, m) != x / m {
      Cancel(Quotient(x, m), x / m + 1, m);
      Cancel(x / m, Quotient(x, m) + 1, m);
    }
  }
}

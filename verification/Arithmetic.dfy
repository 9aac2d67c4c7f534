/** Division and remainder facts the verifier does not find by itself. */
module Arithmetic {

  lemma MulGe(d: int, n: int)
    requires d >= 1 && n >= 0
    ensures d * n >= n
  {
    assert (d - 1) * n >= 0;
  }

  lemma MulSmall(d: int, n: int)
    requires n >= 0 && -n < d * n < n
    ensures d == 0
  {
    if d >= 1 {
      MulGe(d, n);
    } else if d <= -1 {
      MulGe(-d, n);
    }
  }

  lemma DivModUnique(x: nat, n: nat, q: nat, r: nat)
    requires x == q * n + r && r < n
    ensures x % n == r && x / n == q
  {
    var d := x / n - q;
    assert d * n == (x / n) * n - q * n;
    MulSmall(d, n);
  }

  lemma DivMonotone(x: nat, y: nat, n: nat)
    requires n > 0 && x <= y
    ensures x / n <= y / n
  {
    var d := y / n - x / n;
    assert d * n == (y / n) * n - (x / n) * n;
    if d <= -1 {
      MulGe(-d, n);
    }
  }

  /** Adding whole multiples moves the quotient and leaves the remainder. */
  lemma DivModShift(x: nat, q: nat, n: nat)
    requires n > 0
    ensures q * n >= 0 && (q * n + x) / n == q + x / n && (q * n + x) % n == x % n
  {
    assert q * n + x == (q + x / n) * n + x % n;
    DivModUnique(q * n + x, n, q + x / n, x % n);
  }
}

// Quotients and remainders from their bounds.
module Arithmetic {
  lemma Quotient(a: int, n: int, q: int)
    requires n > 0 && q * n <= a < q * n + n
    ensures a / n == q
  {
    var k := a / n - q;
    assert k * n == a / n * n - q * n;
    assert -n < k * n < n;
    Multiples(k, n);
  }

  lemma Multiples(k: int, n: int)
    requires n > 0
    ensures k > 0 ==> k * n >= n
    ensures k < 0 ==> k * n <= -n
  {
    if k > 0 {
      assert (k - 1) * n >= 0;
    } else if k < 0 {
      assert (-k - 1) * n >= 0;
    }
  }

  lemma Remainder(a: int, n: int, q: int, r: int)
    requires n > 0 && a == q * n + r && 0 <= r < n
    ensures a % n == r
  {
    Quotient(a, n, q);
  }
}

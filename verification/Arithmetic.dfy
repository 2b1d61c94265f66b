/** Products and quotients, where the solver needs help. */
module Arithmetic {

  lemma AtLeast(m: int, k: int)
    requires m >= 0 && k >= 1
    ensures m * k >= m
  {
  }

  lemma DivMod(a: int, m: int, q: int, r: int)
    requires m > 0 && a == m * q + r && 0 <= r < m
    ensures a / m == q && a % m == r
  {
    var d := a / m - q;
    assert a == m * (a / m) + a % m;
    assert m * d == m * (a / m) - m * q;
    if d >= 1 {
      AtLeast(m, d);
    } else if d <= -1 {
      AtLeast(m, -d);
    }
  }

  lemma NonNegative(t: int, k: int)
    requires t >= 0 && k >= 0
    ensures t * k >= 0
  {
  }
}

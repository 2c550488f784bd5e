/** Quotient and remainder are unique. */
module Division {

  lemma AtLeastOne(d: int, f: int)
    requires d >= 1 && f > 0
    ensures d * f >= f && (-d) * f == -(d * f)
  {
  }

  lemma SmallMultiple(d: int, f: int)
    requires f > 0 && -f < d * f < f
    ensures d == 0
  {
    if d >= 1 {
      AtLeastOne(d, f);
      assert false;
    }
    if d <= -1 {
      AtLeastOne(-d, f);
      assert false;
    }
  }

  lemma QuotientOf(x: nat, q: nat, n: nat, m: nat)
    requires m < n && x == q * n + m
    ensures x / n == q && x % n == m
  {
    assert x == (x / n) * n + x % n;
    assert (x / n - q) * n == (x / n) * n - q * n;
    SmallMultiple(x / n - q, n);
  }

  lemma CancelLess(T: int, a: int, b: int)
    requires T > 0 && T * a < T * b
    ensures a < b
  {
    var d := b - a;
    assert T * d == T * b - T * a;
  }

  lemma QuotientBelow(i: nat, n: nat, m: nat)
    requires m > 0 && i < n * m
    ensures i / m < n
  {
    var q := i / m;
    assert i == q * m + i % m;
    assert m * q == q * m && m * n == n * m;
    CancelLess(m, q, n);
  }

  lemma Below(x: nat, n: nat, d: nat, m: nat)
    requires x < n && d < m
    ensures x * m + d < n * m
  {
    var k := n - x - 1;
    assert n * m == x * m + m + k * m;
  }
}

/** How many rows make a batch divisible. */
module Padding {
  import opened Division

  function PadSize(n: nat, divisor: nat): nat
    requires divisor > 0
  {
    (divisor - n % divisor) % divisor
  }

  lemma NextMultiple(n: nat, q: nat, f: nat, r: nat)
    requires n == q * f + r
    ensures n + (f - r) == (q + 1) * f
  {
  }

  /** The padding is the least that makes the row count a multiple of the divisor. */
  lemma PadSizeLeast(n: nat, divisor: nat, k: nat)
    requires divisor > 0
    ensures PadSize(n, divisor) < divisor && (n + PadSize(n, divisor)) % divisor == 0
    ensures k < PadSize(n, divisor) ==> (n + k) % divisor != 0
  {
    var q, r := n / divisor, n % divisor;
    if r != 0 {
      QuotientOf(divisor - r, 0, divisor, divisor - r);
      NextMultiple(n, q, divisor, r);
      QuotientOf(n + (divisor - r), q + 1, divisor, 0);
      if k < divisor - r {
        QuotientOf(n + k, q, divisor, r + k);
      }
    } else {
      QuotientOf(divisor, 1, divisor, 0);
    }
  }
}

/** Finite sums of reals and inner products. */
module Sums {

  function SumTo(n: nat, f: nat -> real): real {
    if n == 0 then 0.0 else SumTo(n - 1, f) + f(n - 1)
  }

  lemma {:induction false} SumCongruent(n: nat, f: nat -> real, g: nat -> real)
    requires forall i: nat | i < n :: f(i) == g(i)
    ensures SumTo(n, f) == SumTo(n, g)
  {
    if n == 0 {
    } else {
      SumCongruent(n - 1, f, g);
    }
  }

  function Shifted(f: nat -> real, a: nat): nat -> real {
    (i: nat) => f(a + i)
  }

  lemma {:induction false} SumSplit(a: nat, b: nat, f: nat -> real)
    ensures SumTo(a + b, f) == SumTo(a, f) + SumTo(b, Shifted(f, a))
  {
    if b == 0 {
    } else {
      SumSplit(a, b - 1, f);
    }
  }

  /** The sum of block k of width m. */
  function BlockSum(m: nat, f: nat -> real): nat -> real {
    (k: nat) => SumTo(m, Shifted(f, k * m))
  }

  lemma {:induction false} SumBlocks(n: nat, m: nat, f: nat -> real)
    ensures SumTo(n * m, f) == SumTo(n, BlockSum(m, f))
  {
    if n == 0 {
    } else {
      SumBlocks(n - 1, m, f);
      SumSplit((n - 1) * m, m, f);
      OneMoreBlock(n, m);
    }
  }

  lemma OneMoreBlock(n: nat, m: nat)
    requires n > 0
    ensures n * m == (n - 1) * m + m
  {
  }

  lemma {:induction false} SumAdd(n: nat, f: nat -> real, g: nat -> real)
    ensures SumTo(n, (i: nat) => f(i) + g(i)) == SumTo(n, f) + SumTo(n, g)
  {
    if n == 0 {
    } else {
      SumAdd(n - 1, f, g);
    }
  }

  lemma {:induction false} SumScale(n: nat, k: real, f: nat -> real)
    ensures SumTo(n, (i: nat) => k * f(i)) == k * SumTo(n, f)
  {
    if n == 0 {
    } else {
      SumScale(n - 1, k, f);
      Distribute(k, SumTo(n, f), SumTo(n - 1, f), f(n - 1));
    }
  }

  function RowSum(m: nat, f: (nat, nat) -> real): nat -> real {
    (c: nat) => SumTo(m, (d: nat) => f(c, d))
  }

  function ColSum(n: nat, f: (nat, nat) -> real): nat -> real {
    (d: nat) => SumTo(n, (c: nat) => f(c, d))
  }

  lemma {:induction false} SumZero(m: nat, f: nat -> real)
    requires forall i: nat | i < m :: f(i) == 0.0
    ensures SumTo(m, f) == 0.0
  {
    if m == 0 {
    } else {
      SumZero(m - 1, f);
    }
  }

  lemma {:induction false} SumSwap(n: nat, m: nat, f: (nat, nat) -> real)
    ensures SumTo(n, RowSum(m, f)) == SumTo(m, ColSum(n, f))
  {
    if n == 0 {
      SumZero(m, ColSum(0, f));
    } else {
      SumSwap(n - 1, m, f);
      var before, last := ColSum(n - 1, f), (d: nat) => f(n - 1, d);
      SumAdd(m, before, last);
      SumCongruent(m, ColSum(n, f), (i: nat) => before(i) + last(i));
    }
  }

  function At(v: seq<real>): nat -> real {
    (i: nat) => if i < |v| then v[i] else 0.0
  }

  function Times(x: seq<real>, y: seq<real>): nat -> real {
    (i: nat) => At(x)(i) * At(y)(i)
  }

  function Dot(x: seq<real>, y: seq<real>): real {
    SumTo(|x|, Times(x, y))
  }

  lemma TimesAt(v: seq<real>, g: seq<real>, i: nat, x: real)
    requires At(v)(i) == x
    ensures Times(v, g)(i) == x * At(g)(i)
  {
  }

  lemma {:induction false} ScaledSum(n: nat, f: nat -> real, k: real, g: nat -> real)
    requires forall i: nat | i < n :: f(i) == k * g(i)
    ensures SumTo(n, f) == k * SumTo(n, g)
  {
    if n == 0 {
    } else {
      ScaledSum(n - 1, f, k, g);
      Distribute(k, SumTo(n, g), SumTo(n - 1, g), g(n - 1));
    }
  }

  lemma {:induction false} LinearSum(n: nat, f: nat -> real, p: real, g: nat -> real, q: real, h: nat -> real)
    requires forall i: nat | i < n :: f(i) == p * g(i) + q * h(i)
    ensures SumTo(n, f) == p * SumTo(n, g) + q * SumTo(n, h)
  {
    if n == 0 {
    } else {
      LinearSum(n - 1, f, p, g, q, h);
      Distribute(p, SumTo(n, g), SumTo(n - 1, g), g(n - 1));
      Distribute(q, SumTo(n, h), SumTo(n - 1, h), h(n - 1));
    }
  }

  lemma Distribute(p: real, s: real, x: real, y: real)
    requires s == x + y
    ensures p * s == p * x + p * y
  {
  }
}

/** Padded rows with 0/1 masks: what a mask lets through. */
module MaskedRows {

  function Fill<T>(n: nat, x: T): seq<T> {
    seq(n, _ => x)
  }

  function Sum(mask: seq<int>): int {
    if mask == [] then 0 else Sum(mask[..|mask| - 1]) + mask[|mask| - 1]
  }

  /** A mask of zeros followed by ones. */
  predicate RightAligned(mask: seq<int>) {
    var n := Sum(mask);
    0 <= n <= |mask| && mask == Fill(|mask| - n, 0) + Fill(n, 1)
  }

  /** What the mask lets through of the first n values. */
  function MaskedUpto<T>(xs: seq<T>, mask: seq<int>, n: nat): seq<T>
    requires n <= |xs| == |mask|
  {
    if n == 0 then [] else MaskedUpto(xs, mask, n - 1) + if mask[n - 1] == 0 then [] else [xs[n - 1]]
  }

  /** What the mask lets through, in order. */
  function Masked<T>(xs: seq<T>, mask: seq<int>): seq<T>
    requires |xs| == |mask|
  {
    MaskedUpto(xs, mask, |xs|)
  }

  lemma {:induction false} MaskedZeros<T>(xs: seq<T>, mask: seq<int>, lo: nat, n: nat)
    requires lo + n <= |xs| == |mask| && forall i | lo <= i < lo + n :: mask[i] == 0
    ensures MaskedUpto(xs, mask, lo + n) == MaskedUpto(xs, mask, lo)
  {
    if n == 0 {
    } else {
      MaskedZeros(xs, mask, lo, n - 1);
    }
  }

  lemma {:induction false} MaskedOnes<T>(xs: seq<T>, mask: seq<int>, lo: nat, n: nat)
    requires lo + n <= |xs| == |mask| && forall i | lo <= i < lo + n :: mask[i] == 1
    ensures MaskedUpto(xs, mask, lo + n) == MaskedUpto(xs, mask, lo) + xs[lo..lo + n]
  {
    if n == 0 {
    } else {
      MaskedOnes(xs, mask, lo, n - 1);
      assert xs[lo..lo + n] == xs[lo..lo + n - 1] + [xs[lo + n - 1]];
    }
  }

  /** A window of ones lets through exactly what lies in the window. */
  lemma MaskedWindow<T>(xs: seq<T>, lo: nat, n: nat)
    requires lo + n <= |xs|
    ensures Masked(xs, Fill(lo, 0) + Fill(n, 1) + Fill(|xs| - lo - n, 0)) == xs[lo..lo + n]
  {
    var mask := Fill(lo, 0) + Fill(n, 1) + Fill(|xs| - lo - n, 0);
    MaskedZeros(xs, mask, 0, lo);
    MaskedOnes(xs, mask, lo, n);
    MaskedZeros(xs, mask, lo + n, |xs| - lo - n);
  }

  /** Ones over the middle part let through exactly that part. */
  lemma MaskedMiddle<T>(x: seq<T>, y: seq<T>, z: seq<T>)
    ensures Masked(x + y + z, Fill(|x|, 0) + Fill(|y|, 1) + Fill(|z|, 0)) == y
  {
    MaskedWindow(x + y + z, |x|, |y|);
    assert (x + y + z)[|x|..|x| + |y|] == y;
    assert |x + y + z| - |x| - |y| == |z|;
  }

  lemma MaskedTail<T>(xs: seq<T>, mask: seq<int>)
    requires |xs| == |mask| && RightAligned(mask)
    ensures Masked(xs, mask) == xs[|xs| - Sum(mask)..]
  {
    var n := Sum(mask);
    MaskedWindow(xs, |xs| - n, n);
    assert Fill(|xs| - n, 0) + Fill(n, 1) + Fill(0, 0) == mask;
  }

  function LeftPadded<T>(row: seq<T>, len: nat, zero: T): seq<T> {
    if len <= |row| then row else Fill(len - |row|, zero) + row
  }

  lemma {:induction false} SumOfFill(n: nat, x: int)
    ensures Sum(Fill(n, x)) == n * x
  {
    if n == 0 {
    } else {
      assert Fill(n, x)[..n - 1] == Fill(n - 1, x);
      SumOfFill(n - 1, x);
    }
  }

  lemma {:induction false} SumConcat(xs: seq<int>, ys: seq<int>)
    ensures Sum(xs + ys) == Sum(xs) + Sum(ys)
    decreases |ys|
  {
    if ys == [] {
      assert xs + ys == xs;
    } else {
      assert (xs + ys)[..|xs| + |ys| - 1] == xs + ys[..|ys| - 1];
      SumConcat(xs, ys[..|ys| - 1]);
    }
  }
}

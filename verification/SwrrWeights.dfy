/** The weights a rebuild assigns: up to two preferred servers get a fixed percentage, the others share
    the rest as evenly as whole numbers allow. */
module SwrrWeights {
  import opened Collections
  import opened Preferences
  import opened Swrr

  function Max(x: int, y: int): int {
    if x >= y then x else y
  }

  /** The nearest whole number, and the even one of two that are equally near. */
  function Rounded(x: real): (n: int)
    ensures -0.5 <= x - n as real <= 0.5
    ensures x - n as real == 0.5 || x - n as real == -0.5 ==> n % 2 == 0
  {
    var low := x.Floor;
    var over := x - low as real;
    if over < 0.5 || (over == 0.5 && low % 2 == 0) then low else low + 1
  }

  function Percent(ratio: real): int {
    Rounded(ratio * 100.0)
  }

  function Percent1(b: Preference, actives: seq<Server>): int {
    if b.target1 in actives then Percent(b.ratio1) else 0
  }

  function Percent2(b: Preference, actives: seq<Server>): int {
    if b.target2 in actives then Percent(b.ratio2) else 0
  }

  function Rest(b: Preference, actives: seq<Server>): nat {
    Max(0, 100 - Percent1(b, actives) - Percent2(b, actives))
  }

  /** Share number i of `rest` split over n servers. */
  function Share(rest: nat, n: nat, i: nat): (w: nat)
    requires n > 0
  {
    rest / n + if i < rest - rest / n * n then 1 else 0
  }

  function WeightOf(b: Preference, actives: seq<Server>, p: Server): int
    requires p in actives
  {
    if p == b.target2 then Max(1, Percent2(b, actives))
    else if p == b.target1 then Max(1, Percent1(b, actives))
    else Share(Rest(b, actives), |Unpreferred(b, actives)|, IndexOf(Unpreferred(b, actives), p))
  }

  function Weights(b: Preference, actives: seq<Server>): map<Server, int> {
    map p | p in actives :: WeightOf(b, actives, p)
  }

  lemma SharePositive(rest: nat, n: nat)
    requires n > 0 && rest > 0
    ensures Share(rest, n, 0) > 0
  {
    if rest < n {
      assert rest / n == 0;
    } else {
      assert rest / n >= 1;
    }
  }

  lemma {:induction false} SumAtLeast(ps: seq<Server>, f: map<Server, int>, p: Server)
    requires Covers(f, ps) && p in ps && forall q | q in ps :: f[q] >= 0
    ensures Sum(ps, f) >= f[p]
    decreases |ps|
  {
    var n := |ps| - 1;
    if ps[n] != p {
      SumAtLeast(ps[..n], f, p);
    } else {
      SumNonNegative(ps[..n], f);
    }
  }

  lemma {:induction false} SumNonNegative(ps: seq<Server>, f: map<Server, int>)
    requires Covers(f, ps) && forall q | q in ps :: f[q] >= 0
    ensures Sum(ps, f) >= 0
    decreases |ps|
  {
    if ps == [] {
    } else {
      SumNonNegative(ps[..|ps| - 1], f);
    }
  }

  lemma WeightFacts(b: Preference, actives: seq<Server>, p: Server)
    requires p in actives
    ensures WeightOf(b, actives, p) >= 0
    ensures !IsOther(b, p) ==> WeightOf(b, actives, p) >= 1
  {
  }

  lemma SomePositiveWeight(b: Preference, actives: seq<Server>) returns (p: Server)
    requires actives != [] && Distinct(actives)
    ensures p in actives && WeightOf(b, actives, p) > 0
  {
    if b.target1 in actives {
      p := b.target1;
    } else if b.target2 in actives {
      p := b.target2;
    } else {
      assert IsOther(b, actives[0]);
      var os := Unpreferred(b, actives);
      p := os[0];
      assert IndexOf(os, p) == 0;
      SharePositive(100, |os|);
    }
  }

  /** A rebuild over a non-empty active set never leaves the picker without positive total weight. */
  lemma RebuiltWheel(b: Preference, actives: seq<Server>)
    requires actives != [] && Distinct(actives)
    ensures Valid(Wheel(actives, Weights(b, actives), Sum(actives, Weights(b, actives))))
  {
    var w := Weights(b, actives);
    forall q | q in actives ensures w[q] >= 0 {
      WeightFacts(b, actives, q);
    }
    var p := SomePositiveWeight(b, actives);
    SumAtLeast(actives, w, p);
  }

  /** Preferred servers get their percentage but at least 1; any two of the others differ by at most one. */
  lemma FairRest(b: Preference, actives: seq<Server>, p: Server, q: Server)
    requires p in actives && q in actives && IsOther(b, p) && IsOther(b, q)
    ensures -1 <= WeightOf(b, actives, p) - WeightOf(b, actives, q) <= 1
  {
  }

  lemma {:induction false} SumOfShares(os: seq<Server>, f: map<Server, int>, base: int, extra: nat)
    requires Covers(f, os)
    requires forall i | 0 <= i < |os| :: f[os[i]] == base + if i < extra then 1 else 0
    ensures Sum(os, f) == |os| * base + if |os| < extra then |os| else extra
    decreases |os|
  {
    if os == [] {
    } else {
      var n := |os| - 1;
      assert forall i | 0 <= i < n :: os[..n][i] == os[i];
      SumOfShares(os[..n], f, base, extra);
      assert |os| * base == n * base + base;
    }
  }

  lemma WeightOfOther(b: Preference, actives: seq<Server>, i: nat)
    requires Distinct(actives) && i < |Unpreferred(b, actives)|
    ensures Unpreferred(b, actives)[i] in actives
    ensures WeightOf(b, actives, Unpreferred(b, actives)[i]) == Share(Rest(b, actives), |Unpreferred(b, actives)|, i)
  {
    var p := Unpreferred(b, actives)[i];
    assert p in Unpreferred(b, actives);
    assert IndexOf(Unpreferred(b, actives), p) == i;
  }

  lemma EvenShares(rest: nat, n: nat) returns (base: nat, extra: nat)
    requires n > 0
    ensures n * base + extra == rest && extra < n
    ensures forall i: nat :: Share(rest, n, i) == base + if i < extra then 1 else 0
  {
    base, extra := rest / n, rest - rest / n * n;
  }

  /** Conservation of the percentages: what the preferred servers do not get, the others do. */
  lemma OthersGetTheRest(b: Preference, actives: seq<Server>)
    requires Distinct(actives) && Unpreferred(b, actives) != []
    ensures Covers(Weights(b, actives), Unpreferred(b, actives))
    ensures Sum(Unpreferred(b, actives), Weights(b, actives)) == Rest(b, actives)
  {
    var os, w := Unpreferred(b, actives), Weights(b, actives);
    var base, extra := EvenShares(Rest(b, actives), |os|);
    forall i: nat | i < |os| ensures w[os[i]] == base + if i < extra then 1 else 0 {
      WeightOfOther(b, actives, i);
    }
    SumOfShares(os, w, base, extra);
  }

  /** A preferred server gets its share as the nearest whole percentage, but at least 1. */
  lemma PreferredShare(b: Preference, actives: seq<Server>, p: Server)
    requires p in actives && (p == b.target1 || p == b.target2)
    ensures var ratio := if p == b.target2 then b.ratio2 else b.ratio1;
      && WeightOf(b, actives, p) >= 1
      && (WeightOf(b, actives, p) == 1 ==> 100.0 * ratio <= 1.5)
      && (WeightOf(b, actives, p) > 1 ==> -0.5 <= 100.0 * ratio - WeightOf(b, actives, p) as real <= 0.5)
  {
  }

  /** Earlier servers get the odd percent. */
  lemma EarlierGetMore(b: Preference, actives: seq<Server>, i: nat, j: nat)
    requires Distinct(actives) && i <= j < |Unpreferred(b, actives)|
    ensures Unpreferred(b, actives)[i] in actives && Unpreferred(b, actives)[j] in actives
    ensures WeightOf(b, actives, Unpreferred(b, actives)[i]) >= WeightOf(b, actives, Unpreferred(b, actives)[j])
  {
    WeightOfOther(b, actives, i);
    WeightOfOther(b, actives, j);
  }

  /** When both preferred servers are on, with at least a percent each and one left for the others, the weights add up
      to a hundred. */
  lemma TotalIsHundred(b: Preference, actives: seq<Server>)
    requires Distinct(actives) && Unpreferred(b, actives) != [] && b.target1 != b.target2
    requires forall p | p == b.target1 || p == b.target2 :: p in actives
    requires 0.01 <= b.ratio1 && 0.01 <= b.ratio2 && b.ratio1 + b.ratio2 <= 0.99
    ensures Sum(actives, Weights(b, actives)) == 100
  {
    OthersGetTheRest(b, actives);
    SumByParts(b, actives, Weights(b, actives));
  }

  lemma UnpreferredAppend(b: Preference, ps: seq<Server>, p: Server)
    ensures Unpreferred(b, ps + [p]) == Unpreferred(b, ps) + if IsOther(b, p) then [p] else []
  {
    WithoutAppend(ps, p, {b.target1, b.target2});
  }

  lemma SumAppend(ps: seq<Server>, f: map<Server, int>, p: Server)
    requires Covers(f, ps) && p in f
    ensures Covers(f, ps + [p]) && Sum(ps + [p], f) == Sum(ps, f) + f[p]
  {
    assert (ps + [p])[..|ps|] == ps;
  }

  lemma {:induction false} SumByParts(b: Preference, ps: seq<Server>, f: map<Server, int>)
    requires Distinct(ps) && Covers(f, ps) && b.target1 != b.target2
    ensures Covers(f, Unpreferred(b, ps))
    ensures Sum(ps, f) == Sum(Unpreferred(b, ps), f) + (if b.target1 in ps then f[b.target1] else 0)
                          + (if b.target2 in ps then f[b.target2] else 0)
    decreases |ps|
  {
    if ps == [] {
    } else {
      var n := |ps| - 1;
      var before, p := ps[..n], ps[n];
      assert ps == before + [p] && p !in before;
      SumByParts(b, before, f);
      UnpreferredAppend(b, before, p);
      if IsOther(b, p) {
        SumAppend(Unpreferred(b, before), f, p);
      } else {
        assert Unpreferred(b, before) + [] == Unpreferred(b, before);
      }
    }
  }
}

/** Smooth weighted round robin over a fixed active set: the weights a rebuild assigns, the pick, and the
    exact shares the picks give. */
module Swrr {
  import opened Collections
  import opened Division

  type Server = string

  predicate Covers(f: map<Server, int>, ps: seq<Server>) {
    forall p | p in ps :: p in f
  }

  function Sum(ps: seq<Server>, f: map<Server, int>): int
    requires Covers(f, ps)
  {
    if ps == [] then 0 else Sum(ps[..|ps| - 1], f) + f[ps[|ps| - 1]]
  }

  // ---------------------------------------------------------------- the pick

  function Bumped(ps: seq<Server>, w: map<Server, int>, cur: map<Server, int>): map<Server, int>
    requires Covers(w, ps) && Covers(cur, ps)
  {
    map p | p in ps :: cur[p] + w[p]
  }

  /** Server number i has the greatest value, and no server before it does. */
  predicate FirstBest(ps: seq<Server>, v: map<Server, int>, i: nat)
    requires Covers(v, ps)
  {
    i < |ps| && (forall j | 0 <= j < |ps| :: v[ps[j]] <= v[ps[i]]) && forall j | 0 <= j < i :: v[ps[j]] < v[ps[i]]
  }

  lemma {:induction false} FirstBestExists(ps: seq<Server>, v: map<Server, int>) returns (i: nat)
    requires ps != [] && Covers(v, ps)
    ensures FirstBest(ps, v, i)
    decreases |ps|
  {
    var n := |ps| - 1;
    if n == 0 {
      i := 0;
    } else {
      i := FirstBestExists(ps[..n], v);
      assert forall j | 0 <= j < n :: ps[..n][j] == ps[j];
      i := if v[ps[n]] > v[ps[i]] then n else i;
    }
  }

  /** First server of greatest value, in list order. */
  ghost function Best(ps: seq<Server>, v: map<Server, int>): (b: Server)
    requires ps != [] && Covers(v, ps)
    ensures exists i: nat :: FirstBest(ps, v, i) && b == ps[i]
  {
    assert exists i: nat :: FirstBest(ps, v, i) by {
      var k := FirstBestExists(ps, v);
    }
    var i: nat :| FirstBest(ps, v, i);
    ps[i]
  }

  ghost function Chosen(ps: seq<Server>, w: map<Server, int>, cur: map<Server, int>): Server
    requires ps != [] && Covers(w, ps) && Covers(cur, ps)
  {
    Best(ps, Bumped(ps, w, cur))
  }

  /** The currents after one pick, T being the total weight. */
  ghost function Advance(ps: seq<Server>, w: map<Server, int>, T: int, cur: map<Server, int>): map<Server, int>
    requires ps != [] && Covers(w, ps) && Covers(cur, ps)
  {
    var v := Bumped(ps, w, cur);
    var b := Best(ps, v);
    v[b := v[b] - T]
  }

  // ---------------------------------------------------------------- runs of picks

  /** An active set with the weights of its servers and their total. */
  datatype Wheel = Wheel(ps: seq<Server>, w: map<Server, int>, T: int)

  predicate Valid(c: Wheel) {
    && c.ps != [] && Distinct(c.ps) && Covers(c.w, c.ps) && c.T > 0
    && c.T == Sum(c.ps, c.w) && forall p | p in c.ps :: c.w[p] >= 0
  }

  function Zero(ps: seq<Server>): map<Server, int> {
    map p | p in ps :: 0
  }

  predicate Over(c: Wheel, cur: map<Server, int>) {
    cur.Keys == set p | p in c.ps
  }

  /** Any number of picks from a rebuilt state: `curs[k]` are the currents after k of them. */
  datatype Run = Run(curs: seq<map<Server, int>>, picks: seq<Server>)

  ghost predicate PickedAt(c: Wheel, r: Run, k: nat)
    requires Valid(c) && k < |r.picks| && k + 1 < |r.curs|
  {
    && Over(c, r.curs[k])
    && r.picks[k] == Chosen(c.ps, c.w, r.curs[k])
    && r.curs[k + 1] == Advance(c.ps, c.w, c.T, r.curs[k])
  }

  ghost predicate IsRun(c: Wheel, r: Run)
    requires Valid(c)
  {
    && |r.curs| == |r.picks| + 1 && r.curs[0] == Zero(c.ps)
    && forall k | 0 <= k < |r.picks| :: PickedAt(c, r, k)
  }

  /** How often picks i .. j-1 are p. */
  function Turns(picks: seq<Server>, p: Server, i: nat, j: nat): nat
    requires i <= j <= |picks|
    decreases j
  {
    if i == j then 0 else Turns(picks, p, i, j - 1) + if picks[j - 1] == p then 1 else 0
  }

  // ---------------------------------------------------------------- sums

  lemma {:induction false} SumBumped(ps: seq<Server>, qs: seq<Server>, w: map<Server, int>, cur: map<Server, int>)
    requires Covers(w, ps) && Covers(cur, ps) && qs <= ps
    ensures Sum(qs, Bumped(ps, w, cur)) == Sum(qs, w) + Sum(qs, cur)
    decreases |qs|
  {
    if qs == [] {
    } else {
      SumBumped(ps, qs[..|qs| - 1], w, cur);
      assert qs[|qs| - 1] in ps;
    }
  }

  /** Changing one value changes the sum by as much. */
  lemma {:induction false} SumChange(ps: seq<Server>, f: map<Server, int>, b: Server, x: int)
    requires Covers(f, ps) && Distinct(ps)
    ensures Sum(ps, f[b := x]) == if b in ps then Sum(ps, f) - f[b] + x else Sum(ps, f)
    decreases |ps|
  {
    if ps == [] {
    } else {
      SumChange(ps[..|ps| - 1], f, b, x);
      assert ps == ps[..|ps| - 1] + [ps[|ps| - 1]];
    }
  }

  lemma {:induction false} SumBelow(ps: seq<Server>, f: map<Server, int>)
    requires Covers(f, ps) && forall p | p in ps :: f[p] <= 0
    ensures Sum(ps, f) <= 0
    decreases |ps|
  {
    if ps == [] {
    } else {
      SumBelow(ps[..|ps| - 1], f);
    }
  }

  /** Pointwise below with equal sums means equal. */
  lemma {:induction false} SumSqueeze(ps: seq<Server>, f: map<Server, int>, g: map<Server, int>)
    requires Covers(f, ps) && Covers(g, ps) && forall p | p in ps :: f[p] <= g[p]
    ensures Sum(ps, f) <= Sum(ps, g)
    ensures Sum(ps, f) == Sum(ps, g) ==> forall p | p in ps :: f[p] == g[p]
    decreases |ps|
  {
    if ps == [] {
    } else {
      SumSqueeze(ps[..|ps| - 1], f, g);
      assert forall p | p in ps :: p in ps[..|ps| - 1] || p == ps[|ps| - 1];
    }
  }

  lemma {:induction false} SumZero(ps: seq<Server>, qs: seq<Server>)
    requires qs <= ps
    ensures Sum(qs, Zero(ps)) == 0
    decreases |qs|
  {
    if qs == [] {
    } else {
      SumZero(ps, qs[..|qs| - 1]);
      assert qs[|qs| - 1] in ps;
    }
  }

  // ---------------------------------------------------------------- invariants of picking

  predicate Balanced(c: Wheel, cur: map<Server, int>) {
    Over(c, cur) && Sum(c.ps, cur) == 0 && forall p | p in c.ps :: cur[p] >= 1 - c.T
  }

  lemma AdvanceKeeps(c: Wheel, cur: map<Server, int>)
    requires Valid(c) && Balanced(c, cur)
    ensures Balanced(c, Advance(c.ps, c.w, c.T, cur))
  {
    var v := Bumped(c.ps, c.w, cur);
    var b := Best(c.ps, v);
    SumBumped(c.ps, c.ps, c.w, cur);
    SumChange(c.ps, v, b, v[b] - c.T);
    if v[b] <= 0 {
      SumBelow(c.ps, v);
    }
  }

  /** After any number of picks the currents sum to zero and none is below 1 - T. */
  lemma {:induction false} PicksKeepBalance(c: Wheel, r: Run, k: nat)
    requires Valid(c) && IsRun(c, r) && k <= |r.picks|
    ensures Balanced(c, r.curs[k])
  {
    if k == 0 {
      SumZero(c.ps, c.ps);
    } else {
      PicksKeepBalance(c, r, k - 1);
      AdvanceKeeps(c, r.curs[k - 1]);
      assert PickedAt(c, r, k - 1);
    }
  }

  lemma AdvanceOne(c: Wheel, cur: map<Server, int>, p: Server)
    requires Valid(c) && Over(c, cur) && p in c.ps
    ensures Chosen(c.ps, c.w, cur) in c.ps && Over(c, Advance(c.ps, c.w, c.T, cur))
    ensures Advance(c.ps, c.w, c.T, cur)[p] ==
      cur[p] + c.w[p] - if p == Chosen(c.ps, c.w, cur) then c.T else 0
  {
  }

  /** Conservation: a current is what its server has been owed so far minus what it was charged. */
  lemma {:induction false} CurrentIsDebt(c: Wheel, r: Run, p: Server, k: nat)
    requires Valid(c) && IsRun(c, r) && k <= |r.picks| && p in c.ps
    ensures p in r.curs[k] && r.curs[k][p] == k * c.w[p] - c.T * Turns(r.picks, p, 0, k)
  {
    if k == 0 {
    } else {
      CurrentIsDebt(c, r, p, k - 1);
      assert PickedAt(c, r, k - 1);
      AdvanceOne(c, r.curs[k - 1], p);
      DebtArithmetic(c.T, Turns(r.picks, p, 0, k - 1), k, c.w[p]);
    }
  }

  lemma DebtArithmetic(T: int, t: int, k: int, w: int)
    ensures T * (t + 1) == T * t + T && k * w == (k - 1) * w + w
  {
  }

  lemma DivideBound(x: int, T: int, t: int)
    requires T > 0 && T * t <= x
    ensures t <= x / T
  {
    assert T * (x / T + 1) == T * (x / T) + T;
    CancelLess(T, t, x / T + 1);
  }

  /** No server is ahead of its share: k picks give it at most (k*w + T - 1) / T turns. */
  lemma AtMostItsShare(c: Wheel, r: Run, p: Server, k: nat)
    requires Valid(c) && IsRun(c, r) && k <= |r.picks| && p in c.ps
    ensures Turns(r.picks, p, 0, k) <= (k * c.w[p] + c.T - 1) / c.T
  {
    PicksKeepBalance(c, r, k);
    CurrentIsDebt(c, r, p, k);
    DivideBound(k * c.w[p] + c.T - 1, c.T, Turns(r.picks, p, 0, k));
  }

  function TurnMap(c: Wheel, picks: seq<Server>, k: nat): map<Server, int>
    requires k <= |picks|
  {
    map p | p in c.ps :: Turns(picks, p, 0, k)
  }

  lemma TurnMapStep(c: Wheel, picks: seq<Server>, k: nat)
    requires k < |picks| && picks[k] in c.ps
    ensures var m := TurnMap(c, picks, k); TurnMap(c, picks, k + 1) == m[picks[k] := m[picks[k]] + 1]
  {
  }

  lemma PicksAreActive(c: Wheel, r: Run, k: nat)
    requires Valid(c) && IsRun(c, r) && k < |r.picks|
    ensures r.picks[k] in c.ps
  {
    assert PickedAt(c, r, k);
    AdvanceOne(c, r.curs[k], c.ps[0]);
  }

  /** Every pick serves exactly one server. */
  lemma {:induction false} TurnsAddUp(c: Wheel, r: Run, k: nat)
    requires Valid(c) && IsRun(c, r) && k <= |r.picks|
    ensures Sum(c.ps, TurnMap(c, r.picks, k)) == k
  {
    if k == 0 {
      SumZero(c.ps, c.ps);
      assert TurnMap(c, r.picks, 0) == Zero(c.ps);
    } else {
      TurnsAddUp(c, r, k - 1);
      PicksAreActive(c, r, k - 1);
      OneMoreTurn(c, r.picks, k - 1);
    }
  }

  lemma OneMoreTurn(c: Wheel, picks: seq<Server>, k: nat)
    requires Distinct(c.ps) && k < |picks| && picks[k] in c.ps
    ensures Sum(c.ps, TurnMap(c, picks, k + 1)) == Sum(c.ps, TurnMap(c, picks, k)) + 1
  {
    var m, b := TurnMap(c, picks, k), picks[k];
    TurnMapStep(c, picks, k);
    SumChange(c.ps, m, b, m[b] + 1);
  }

  lemma ShareOfRound(w: int, T: int, t: int)
    requires T > 0 && T * w - T * t >= 1 - T
    ensures t <= w
  {
    assert T * (w + 1) == T * w + T;
    CancelLess(T, t, w + 1);
  }

  /** T picks bring every current back to zero. */
  lemma PeriodFromZero(c: Wheel, r: Run)
    requires Valid(c) && IsRun(c, r) && c.T <= |r.picks|
    ensures r.curs[c.T] == Zero(c.ps)
  {
    TurnsAddUp(c, r, c.T);
    PicksKeepBalance(c, r, c.T);
    var m := TurnMap(c, r.picks, c.T);
    forall p | p in c.ps ensures m[p] <= c.w[p] {
      CurrentIsDebt(c, r, p, c.T);
      ShareOfRound(c.w[p], c.T, m[p]);
    }
    SumSqueeze(c.ps, m, c.w);
    forall p | p in c.ps ensures r.curs[c.T][p] == 0 {
      CurrentIsDebt(c, r, p, c.T);
    }
  }

  lemma SameNext(c: Wheel, r: Run, a: nat, b: nat)
    requires Valid(c) && IsRun(c, r) && a < |r.picks| && b < |r.picks| && r.curs[a] == r.curs[b]
    ensures r.curs[a + 1] == r.curs[b + 1]
  {
    assert PickedAt(c, r, a);
    assert PickedAt(c, r, b);
  }

  lemma {:induction false} Period(c: Wheel, r: Run, i: nat)
    requires Valid(c) && IsRun(c, r) && i + c.T <= |r.picks|
    ensures r.curs[i + c.T] == r.curs[i]
  {
    if i == 0 {
      PeriodFromZero(c, r);
    } else {
      Period(c, r, i - 1);
      SameNext(c, r, i - 1, i - 1 + c.T);
    }
  }

  lemma {:induction false} TurnsSplit(picks: seq<Server>, p: Server, i: nat, j: nat)
    requires i <= j <= |picks|
    ensures Turns(picks, p, 0, j) == Turns(picks, p, 0, i) + Turns(picks, p, i, j)
    decreases j
  {
    if i == j {
    } else {
      TurnsSplit(picks, p, i, j - 1);
    }
  }

  lemma CancelFactor(T: int, w: int, i: int, a: int, b: int)
    requires T > 0 && i * w - T * a == (i + T) * w - T * (a + b)
    ensures b == w
  {
    assert T * (b - w) == 0;
  }

  /** Exact proportionality: any T consecutive picks serve each server exactly as often as its weight says,
      and they leave the currents where they were. */
  lemma ExactShares(c: Wheel, r: Run, p: Server, i: nat)
    requires Valid(c) && IsRun(c, r) && p in c.ps && i + c.T <= |r.picks|
    ensures Turns(r.picks, p, i, i + c.T) == c.w[p]
    ensures r.curs[i + c.T] == r.curs[i]
  {
    Period(c, r, i);
    CurrentIsDebt(c, r, p, i);
    CurrentIsDebt(c, r, p, i + c.T);
    TurnsSplit(r.picks, p, i, i + c.T);
    CancelFactor(c.T, c.w[p], i, Turns(r.picks, p, 0, i), Turns(r.picks, p, i, i + c.T));
  }

  /** At every multiple of T all currents are zero. */
  lemma {:induction false} ZeroAtMultiples(c: Wheel, r: Run, m: nat)
    requires Valid(c) && IsRun(c, r) && 0 <= m * c.T <= |r.picks|
    ensures r.curs[m * c.T] == Zero(c.ps)
  {
    if m == 0 {
    } else {
      assert m * c.T == (m - 1) * c.T + c.T && (m - 1) * c.T >= 0;
      ZeroAtMultiples(c, r, m - 1);
      Period(c, r, (m - 1) * c.T);
    }
  }

  lemma {:induction false} TurnsFind(picks: seq<Server>, p: Server, i: nat, j: nat)
    requires i <= j <= |picks|
    ensures Turns(picks, p, i, j) > 0 <==> exists k :: i <= k < j && picks[k] == p
    decreases j
  {
    if i == j {
    } else {
      TurnsFind(picks, p, i, j - 1);
    }
  }

  /** In every window of T picks each positive-weight server is picked, and a weightless one never. */
  lemma NoStarvation(c: Wheel, r: Run, p: Server, i: nat)
    requires Valid(c) && IsRun(c, r) && p in c.ps && i + c.T <= |r.picks|
    ensures c.w[p] > 0 <==> exists k :: i <= k < i + c.T && r.picks[k] == p
  {
    ExactShares(c, r, p, i);
    TurnsFind(r.picks, p, i, i + c.T);
  }
}

/** A learnable mix of a frozen and a fresh LoRA, both held along the rank axis of one rank-2r pair of factors. */
module LoraMix {
  import opened Collections
  import opened Sums

  /** data[i][j], `rows` by `cols`. */
  datatype Matrix = Matrix(rows: nat, cols: nat, data: seq<seq<real>>)

  predicate Valid(m: Matrix) {
    |m.data| == m.rows && forall i | 0 <= i < m.rows :: |m.data[i]| == m.cols
  }

  function Entry(m: Matrix, i: nat, j: nat): real {
    if i < |m.data| then At(m.data[i])(j) else 0.0
  }

  function Rows(m: Matrix, lo: nat, hi: nat): Matrix
    requires lo <= hi <= |m.data|
  {
    Matrix(hi - lo, m.cols, m.data[lo..hi])
  }

  function Cols(m: Matrix, lo: nat, hi: nat): Matrix
    requires Valid(m) && lo <= hi <= m.cols
  {
    Matrix(m.rows, hi - lo, seq(m.rows, i requires 0 <= i < m.rows => m.data[i][lo..hi]))
  }

  function Scaled(k: real, row: seq<real>): seq<real> {
    seq(|row|, (j: nat) => k * At(row)(j))
  }

  function Row(m: Matrix, i: nat): nat -> real {
    (k: nat) => Entry(m, i, k)
  }

  function Col(m: Matrix, j: nat): nat -> real {
    (k: nat) => Entry(m, k, j)
  }

  function Both(x: nat -> real, y: nat -> real): nat -> real {
    (k: nat) => x(k) * y(k)
  }

  /** Entry (i, j) of A B. */
  function Product(a: Matrix, b: Matrix, i: nat, j: nat): real {
    SumTo(b.rows, Both(Row(a, i), Col(b, j)))
  }

  /** B with its new half scaled by gamma and its old half by 1 - gamma. */
  function Effective(b: Matrix, gamma: real, r: nat): Matrix {
    Matrix(b.rows, b.cols, seq(|b.data|, (k: nat) => Scaled(if k < r then gamma else 1.0 - gamma, RowAt(b, k))))
  }

  function RowAt(m: Matrix, k: nat): seq<real> {
    if k < |m.data| then m.data[k] else []
  }

  predicate Pair(a: Matrix, b: Matrix, r: nat) {
    Valid(a) && Valid(b) && a.cols == 2 * r && b.rows == 2 * r
  }

  lemma EffectiveEntry(b: Matrix, gamma: real, r: nat, k: nat, j: nat)
    requires Valid(b) && k < b.rows && j < b.cols
    ensures Entry(b, k, j) == b.data[k][j]
    ensures Entry(Effective(b, gamma, r), k, j) == (if k < r then gamma else 1.0 - gamma) * Entry(b, k, j)
  {
    assert Effective(b, gamma, r).data[k] == Scaled(if k < r then gamma else 1.0 - gamma, b.data[k]);
  }

  /** The convex mix of a new and an old value. */
  function Mix(gamma: real, p: real, q: real): real {
    gamma * p + (1.0 - gamma) * q
  }

  function Weighted(gamma: real, r: nat, y: nat -> real): nat -> real {
    (k: nat) => (if k < r then gamma else 1.0 - gamma) * y(k)
  }

  lemma MoveFactor(x: real, k: real, y: real)
    ensures x * (k * y) == k * (x * y)
  {
  }

  lemma MixTerm(x: nat -> real, y: nat -> real, gamma: real, r: nat, k: nat)
    ensures Both(x, Weighted(gamma, r, y))(k) == (if k < r then gamma else 1.0 - gamma) * Both(x, y)(k)
  {
    MoveFactor(x(k), if k < r then gamma else 1.0 - gamma, y(k));
  }

  lemma NewHalf(x: nat -> real, y: nat -> real, gamma: real, r: nat)
    ensures SumTo(r, Both(x, Weighted(gamma, r, y))) == gamma * SumTo(r, Both(x, y))
  {
    forall k: nat | k < r ensures Both(x, Weighted(gamma, r, y))(k) == gamma * Both(x, y)(k) {
      MixTerm(x, y, gamma, r, k);
    }
    ScaledSum(r, Both(x, Weighted(gamma, r, y)), gamma, Both(x, y));
  }

  lemma OldTerm(x: nat -> real, y: nat -> real, gamma: real, rest: real, r: nat, k: nat)
    requires rest == 1.0 - gamma
    ensures Shifted(Both(x, Weighted(gamma, r, y)), r)(k) == rest * Both(Shifted(x, r), Shifted(y, r))(k)
  {
    MixTerm(x, y, gamma, r, r + k);
    assert Both(Shifted(x, r), Shifted(y, r))(k) == Both(x, y)(r + k);
  }

  lemma OldHalf(x: nat -> real, y: nat -> real, gamma: real, rest: real, r: nat)
    requires rest == 1.0 - gamma
    ensures SumTo(r, Shifted(Both(x, Weighted(gamma, r, y)), r)) ==
            rest * SumTo(r, Both(Shifted(x, r), Shifted(y, r)))
  {
    var mixed, old' := Shifted(Both(x, Weighted(gamma, r, y)), r), Both(Shifted(x, r), Shifted(y, r));
    forall k: nat | k < r ensures mixed(k) == rest * old'(k) {
      OldTerm(x, y, gamma, rest, r, k);
    }
    ScaledSum(r, mixed, rest, old');
  }

  /** The mix, on one row of A and one column of B. */
  lemma MixSum(x: nat -> real, y: nat -> real, gamma: real, r: nat)
    ensures SumTo(r + r, Both(x, Weighted(gamma, r, y))) ==
            Mix(gamma, SumTo(r, Both(x, y)), SumTo(r, Both(Shifted(x, r), Shifted(y, r))))
  {
    SumSplit(r, r, Both(x, Weighted(gamma, r, y)));
    NewHalf(x, y, gamma, r);
    OldHalf(x, y, gamma, 1.0 - gamma, r);
  }

  lemma BothCongruent(n: nat, x: nat -> real, y: nat -> real, x': nat -> real, y': nat -> real)
    requires forall k: nat | k < n :: x(k) == x'(k) && y(k) == y'(k)
    ensures SumTo(n, Both(x, y)) == SumTo(n, Both(x', y'))
  {
    SumCongruent(n, Both(x, y), Both(x', y'));
  }

  lemma HalfProduct(a: Matrix, b: Matrix, r: nat, lo: nat, i: nat, j: nat)
    requires Pair(a, b, r) && i < a.rows && j < b.cols && lo + r <= 2 * r
    ensures Product(Cols(a, lo, lo + r), Rows(b, lo, lo + r), i, j) ==
            SumTo(r, Both(Shifted(Row(a, i), lo), Shifted(Col(b, j), lo)))
  {
    BothCongruent(r, Row(Cols(a, lo, lo + r), i), Col(Rows(b, lo, lo + r), j), Shifted(Row(a, i), lo),
      Shifted(Col(b, j), lo));
  }

  lemma EffectiveSum(a: Matrix, b: Matrix, gamma: real, r: nat, i: nat, j: nat)
    requires Pair(a, b, r) && j < b.cols
    ensures Product(a, Effective(b, gamma, r), i, j) == SumTo(r + r, Both(Row(a, i), Weighted(gamma, r, Col(b, j))))
  {
    var mixed := Weighted(gamma, r, Col(b, j));
    forall k: nat | k < r + r ensures Col(Effective(b, gamma, r), j)(k) == mixed(k) {
      EffectiveEntry(b, gamma, r, k, j);
    }
    BothCongruent(r + r, Row(a, i), Col(Effective(b, gamma, r), j), Row(a, i), mixed);
  }

  lemma EffectiveMix(a: Matrix, b: Matrix, gamma: real, r: nat, i: nat, j: nat)
    requires Pair(a, b, r) && i < a.rows && j < b.cols
    ensures Product(a, Effective(b, gamma, r), i, j) ==
            Mix(gamma, Product(Cols(a, 0, r), Rows(b, 0, r), i, j), Product(Cols(a, r, r + r), Rows(b, r, r + r), i, j))
  {
    EffectiveSum(a, b, gamma, r, i, j);
    MixSum(Row(a, i), Col(b, j), gamma, r);
    HalvesOfProduct(a, b, r, i, j);
  }

  /** The effective adapter is exactly the mix: gamma times the new product plus 1 - gamma times the old one. */
  lemma EffectiveProduct(a: Matrix, b: Matrix, gamma: real, r: nat, i: nat, j: nat)
    requires Pair(a, b, r) && i < a.rows && j < b.cols
    ensures Product(a, Effective(b, gamma, r), i, j) ==
            gamma * Product(Cols(a, 0, r), Rows(b, 0, r), i, j)
            + (1.0 - gamma) * Product(Cols(a, r, r + r), Rows(b, r, r + r), i, j)
  {
    EffectiveMix(a, b, gamma, r, i, j);
  }

  lemma HalvesOfProduct(a: Matrix, b: Matrix, r: nat, i: nat, j: nat)
    requires Pair(a, b, r) && i < a.rows && j < b.cols
    ensures Product(Cols(a, 0, r), Rows(b, 0, r), i, j) == SumTo(r, Both(Row(a, i), Col(b, j)))
    ensures Product(Cols(a, r, r + r), Rows(b, r, r + r), i, j) ==
      SumTo(r, Both(Shifted(Row(a, i), r), Shifted(Col(b, j), r)))
  {
    var x, y := Row(a, i), Col(b, j);
    HalfProduct(a, b, r, 0, i, j);
    BothCongruent(r, Shifted(x, 0), Shifted(y, 0), x, y);
    HalfProduct(a, b, r, r, i, j);
  }

  // ---------------------------------------------------------------- gradients

  function RowDots(x: Matrix, y: Matrix): nat -> real {
    (k: nat) => SumTo(x.cols, Both(Row(x, k), Row(y, k)))
  }

  function MatDot(x: Matrix, y: Matrix): real {
    SumTo(x.rows, RowDots(x, y))
  }

  /** Gradient of the new half of B; the old half gets none. */
  function SplitB(g: Matrix, gamma: real, r: nat): Matrix {
    Matrix(g.rows, g.cols,
           seq(g.rows, (k: nat) => if k < r then Scaled(gamma, RowAt(g, k)) else seq(g.cols, (j: nat) => 0.0)))
  }

  /** Gradient of the new half of A; the old half gets none. */
  function SplitA(g: Matrix, r: nat): Matrix {
    Matrix(g.rows, g.cols, seq(g.rows, (i: nat) => seq(g.cols, (k: nat) => if k < r then Entry(g, i, k) else 0.0)))
  }

  /** Entry by entry: the new half passes on its gradient, scaled by gamma in B, and the old half gets zero. */
  lemma SplitEntries(g: Matrix, gamma: real, r: nat, i: nat, j: nat)
    requires Valid(g) && i < g.rows && j < g.cols
    ensures Valid(SplitA(g, r)) && Valid(SplitB(g, gamma, r))
    ensures SplitA(g, r).data[i][j] == if j < r then g.data[i][j] else 0.0
    ensures SplitB(g, gamma, r).data[i][j] == if i < r then gamma * g.data[i][j] else 0.0
  {
    var split := SplitB(g, gamma, r);
    forall k | 0 <= k < g.rows ensures |split.data[k]| == g.cols {
      assert RowAt(g, k) == g.data[k];
    }
    assert i < r ==> split.data[i] == Scaled(gamma, g.data[i]);
    assert At(g.data[i])(j) == g.data[i][j];
    assert SplitA(g, r).data[i][j] == if j < r then Entry(g, i, j) else 0.0;
  }

  function SplitGamma(g: Matrix, b: Matrix, r: nat): real {
    SumTo(r, RowDots(g, b)) - SumTo(r, Shifted(RowDots(g, b), r))
  }

  function Scale(p: real, x: real): real {
    p * x
  }

  function Combine(p: real, x: real, q: real, y: real): real {
    p * x + q * y
  }

  /** Derivative of the effective B at (b, gamma) in the direction (db, dgamma). */
  function Direction(b: Matrix, gamma: real, db: Matrix, dgamma: real, r: nat): Matrix {
    Matrix(b.rows, b.cols, seq(b.rows, (k: nat) => seq(b.cols, (j: nat) =>
      if k < r then gamma * Entry(db, k, j) + dgamma * Entry(b, k, j)
      else (1.0 - gamma) * Entry(db, k, j) + (-dgamma) * Entry(b, k, j))))
  }

  function Plus(x: Matrix, y: Matrix): Matrix {
    Matrix(x.rows, x.cols, seq(x.rows, (k: nat) => seq(x.cols, (j: nat) => Entry(x, k, j) + Entry(y, k, j))))
  }

  /** Direction really is the derivative: moving by (db, dgamma) changes the effective B by it, up to a term of
      second order, dgamma times db. */
  lemma DirectionIsDerivative(b: Matrix, gamma: real, db: Matrix, dgamma: real, r: nat, k: nat, j: nat)
    requires Valid(b) && Valid(db) && b.rows == db.rows && b.cols == db.cols && k < b.rows && j < b.cols
    ensures Entry(Effective(Plus(b, db), gamma + dgamma, r), k, j) ==
            Entry(Effective(b, gamma, r), k, j) + Entry(Direction(b, gamma, db, dgamma, r), k, j)
            + (if k < r then dgamma else -dgamma) * Entry(db, k, j)
  {
    var moved := Plus(b, db);
    assert moved.data[k][j] == Entry(b, k, j) + Entry(db, k, j);
    EffectiveEntry(moved, gamma + dgamma, r, k, j);
    EffectiveEntry(b, gamma, r, k, j);
    Expand(gamma, dgamma, Entry(b, k, j), Entry(db, k, j));
  }

  lemma Expand(g: real, dg: real, x: real, dx: real)
    ensures (g + dg) * (x + dx) == g * x + (g * dx + dg * x) + dg * dx
    ensures (1.0 - (g + dg)) * (x + dx) == (1.0 - g) * x + ((1.0 - g) * dx + (-dg) * x) + (-dg) * dx
  {
  }

  lemma SplitProduct(g: real, p: real, x: real, q: real, y: real)
    ensures g * (p * x + q * y) == p * (g * x) + q * (g * y)
  {
  }

  /** One row of the inner product with a direction. */
  lemma RowChain(n: nat, g: nat -> real, e: nat -> real, p: real, db: nat -> real, q: real, b: nat -> real)
    requires forall j: nat | j < n :: e(j) == Combine(p, db(j), q, b(j))
    ensures SumTo(n, Both(g, e)) == Combine(p, SumTo(n, Both(g, db)), q, SumTo(n, Both(g, b)))
  {
    forall j: nat | j < n ensures Both(g, e)(j) == p * Both(g, db)(j) + q * Both(g, b)(j) {
      SplitProduct(g(j), p, db(j), q, b(j));
    }
    LinearSum(n, Both(g, e), p, Both(g, db), q, Both(g, b));
  }

  lemma DirectionRow(g: Matrix, b: Matrix, gamma: real, db: Matrix, dgamma: real, r: nat, k: nat)
    requires k < b.rows && g.cols == b.cols
    ensures RowDots(g, Direction(b, gamma, db, dgamma, r))(k) ==
            if k < r then Combine(gamma, RowDots(g, db)(k), dgamma, RowDots(g, b)(k))
            else Combine(1.0 - gamma, RowDots(g, db)(k), -dgamma, RowDots(g, b)(k))
  {
    var p, q := if k < r then gamma else 1.0 - gamma, if k < r then dgamma else -dgamma;
    var e := Row(Direction(b, gamma, db, dgamma, r), k);
    forall j: nat | j < g.cols ensures e(j) == Combine(p, Row(db, k)(j), q, Row(b, k)(j)) {
    }
    RowChain(g.cols, Row(g, k), e, p, Row(db, k), q, Row(b, k));
  }

  /** The direction leaves the old half of B where it is. */
  ghost predicate KeepsOldRows(db: Matrix, r: nat) {
    forall k: nat, j: nat | k >= r :: Entry(db, k, j) == 0.0
  }

  ghost predicate KeepsOldCols(da: Matrix, r: nat) {
    forall i: nat, k: nat | k >= r :: Entry(da, i, k) == 0.0
  }

  lemma SplitRow(g: Matrix, gamma: real, db: Matrix, r: nat, k: nat)
    requires Valid(g) && k < g.rows
    ensures RowDots(SplitB(g, gamma, r), db)(k) == if k < r then Scale(gamma, RowDots(g, db)(k)) else 0.0
  {
    var split, row := SplitB(g, gamma, r), Both(Row(g, k), Row(db, k));
    var terms := Both(Row(split, k), Row(db, k));
    if k < r {
      forall j: nat | j < g.cols ensures terms(j) == gamma * row(j) {
        assert split.data[k] == Scaled(gamma, g.data[k]);
        Associate(gamma, Row(g, k)(j), Row(db, k)(j));
      }
      ScaledSum(g.cols, terms, gamma, row);
    } else {
      SumZero(g.cols, terms);
    }
  }

  lemma Associate(x: real, y: real, z: real)
    ensures (x * y) * z == x * (y * z)
  {
  }

  lemma SplitBDot(g: Matrix, gamma: real, db: Matrix, r: nat)
    requires Valid(g) && g.rows == r + r
    ensures MatDot(SplitB(g, gamma, r), db) == Scale(gamma, SumTo(r, RowDots(g, db)))
  {
    var rows := RowDots(SplitB(g, gamma, r), db);
    forall k: nat | k < r ensures rows(k) == Scale(gamma, RowDots(g, db)(k)) && Shifted(rows, r)(k) == 0.0 {
      SplitRow(g, gamma, db, r, k);
      SplitRow(g, gamma, db, r, r + k);
    }
    NewHalfOnly(r, rows, gamma, RowDots(g, db));
  }

  lemma NewHalfOnly(r: nat, rows: nat -> real, gamma: real, d: nat -> real)
    requires forall k: nat | k < r :: rows(k) == Scale(gamma, d(k))
    requires forall k: nat | k < r :: Shifted(rows, r)(k) == 0.0
    ensures SumTo(r + r, rows) == Scale(gamma, SumTo(r, d))
  {
    SumSplit(r, r, rows);
    ScaledSum(r, rows, gamma, d);
    SumZero(r, Shifted(rows, r));
  }

  lemma BothHalves(r: nat, rows: nat -> real, gamma: real, d: nat -> real, dgamma: real, b: nat -> real)
    requires forall k: nat | k < r :: rows(k) == Combine(gamma, d(k), dgamma, b(k))
    requires forall k: nat | k < r :: Shifted(rows, r)(k) == Scale(-dgamma, Shifted(b, r)(k))
    ensures SumTo(r + r, rows) == Combine(gamma, SumTo(r, d), dgamma, SumTo(r, b) - SumTo(r, Shifted(b, r)))
  {
    SumSplit(r, r, rows);
    CombinedSum(r, rows, gamma, d, dgamma, b);
    ScaleSum(r, Shifted(rows, r), -dgamma, Shifted(b, r));
    Difference(gamma, SumTo(r, d), dgamma, SumTo(r, b), SumTo(r, Shifted(b, r)));
  }

  lemma CombinedSum(n: nat, f: nat -> real, p: real, x: nat -> real, q: real, y: nat -> real)
    requires forall k: nat | k < n :: f(k) == Combine(p, x(k), q, y(k))
    ensures SumTo(n, f) == Combine(p, SumTo(n, x), q, SumTo(n, y))
  {
    LinearSum(n, f, p, x, q, y);
  }

  lemma ScaleSum(n: nat, f: nat -> real, p: real, x: nat -> real)
    requires forall k: nat | k < n :: f(k) == Scale(p, x(k))
    ensures SumTo(n, f) == Scale(p, SumTo(n, x))
  {
    ScaledSum(n, f, p, x);
  }

  lemma Difference(p: real, x: real, q: real, y: real, z: real)
    ensures Combine(p, x, q, y) + Scale(-q, z) == Combine(p, x, q, y - z)
  {
    assert q * (y - z) == q * y + (-q) * z;
  }

  lemma FrozenRow(g: Matrix, db: Matrix, r: nat, k: nat)
    requires KeepsOldRows(db, r) && k >= r
    ensures RowDots(g, db)(k) == 0.0
  {
    SumZero(g.cols, Both(Row(g, k), Row(db, k)));
  }

  lemma DirectionRows(g: Matrix, b: Matrix, gamma: real, db: Matrix, dgamma: real, r: nat)
    requires b.rows == r + r && g.cols == b.cols && KeepsOldRows(db, r)
    ensures var rows := RowDots(g, Direction(b, gamma, db, dgamma, r));
      forall k: nat | k < r ::
        && rows(k) == Combine(gamma, RowDots(g, db)(k), dgamma, RowDots(g, b)(k))
        && Shifted(rows, r)(k) == Scale(-dgamma, Shifted(RowDots(g, b), r)(k))
  {
    var rows := RowDots(g, Direction(b, gamma, db, dgamma, r));
    forall k: nat | k < r
      ensures rows(k) == Combine(gamma, RowDots(g, db)(k), dgamma, RowDots(g, b)(k))
      ensures Shifted(rows, r)(k) == Scale(-dgamma, Shifted(RowDots(g, b), r)(k))
    {
      DirectionRow(g, b, gamma, db, dgamma, r, k);
      OldDirectionRow(g, b, gamma, db, dgamma, r, r + k);
    }
  }

  lemma DirectionDot(g: Matrix, b: Matrix, gamma: real, db: Matrix, dgamma: real, r: nat)
    requires b.rows == g.rows == r + r && g.cols == b.cols && KeepsOldRows(db, r)
    ensures MatDot(g, Direction(b, gamma, db, dgamma, r)) ==
            Combine(gamma, SumTo(r, RowDots(g, db)), dgamma, SplitGamma(g, b, r))
  {
    DirectionRows(g, b, gamma, db, dgamma, r);
    BothHalves(r, RowDots(g, Direction(b, gamma, db, dgamma, r)), gamma, RowDots(g, db), dgamma, RowDots(g, b));
  }

  lemma OldDirectionRow(g: Matrix, b: Matrix, gamma: real, db: Matrix, dgamma: real, r: nat, k: nat)
    requires r <= k < b.rows && g.cols == b.cols && KeepsOldRows(db, r)
    ensures RowDots(g, Direction(b, gamma, db, dgamma, r))(k) == Scale(-dgamma, RowDots(g, b)(k))
  {
    DirectionRow(g, b, gamma, db, dgamma, r, k);
    FrozenRow(g, db, r, k);
    var x := RowDots(g, db)(k);
    assert (1.0 - gamma) * x == 0.0;
  }

  lemma SplitADot(g: Matrix, da: Matrix, r: nat)
    requires KeepsOldCols(da, r)
    ensures MatDot(SplitA(g, r), da) == MatDot(g, da)
  {
    var split := SplitA(g, r);
    forall i: nat | i < g.rows ensures RowDots(split, da)(i) == RowDots(g, da)(i) {
      forall k: nat | k < g.cols ensures Both(Row(split, i), Row(da, i))(k) == Both(Row(g, i), Row(da, i))(k) {
        if k >= r {
          assert Row(da, i)(k) == 0.0;
        }
      }
      SumCongruent(g.cols, Both(Row(split, i), Row(da, i)), Both(Row(g, i), Row(da, i)));
    }
    SumCongruent(g.rows, RowDots(split, da), RowDots(g, da));
  }

  /** The chain rule: for every direction that leaves the old halves alone, the split gradients account for exactly
      what the effective-space gradients do. */
  lemma ChainRule(ga: Matrix, gb: Matrix, b: Matrix, gamma: real, r: nat, da: Matrix, db: Matrix, dgamma: real)
    requires Valid(gb) && gb.rows == b.rows == r + r && gb.cols == b.cols && KeepsOldCols(da, r) && KeepsOldRows(db, r)
    ensures MatDot(ga, da) + MatDot(gb, Direction(b, gamma, db, dgamma, r)) ==
            MatDot(SplitA(ga, r), da) + MatDot(SplitB(gb, gamma, r), db) + dgamma * SplitGamma(gb, b, r)
  {
    SplitADot(ga, da, r);
    SplitBDot(gb, gamma, db, r);
    DirectionDot(gb, b, gamma, db, dgamma, r);
  }

  // ---------------------------------------------------------------- runs

  /** One adapter: its factors and its mix. */
  datatype Adapter = Adapter(a: Matrix, b: Matrix, gamma: real)

  predicate Shaped(s: Adapter, rows: nat, cols: nat, r: nat) {
    Pair(s.a, s.b, r) && s.a.rows == rows && s.b.cols == cols
  }

  function RestoreA(u: Matrix, p: Matrix, r: nat): Matrix
    requires Valid(u) && Valid(p) && u.rows == p.rows && u.cols == p.cols == r + r
  {
    Matrix(u.rows, u.cols, seq(u.rows, i requires 0 <= i < u.rows => u.data[i][..r] + p.data[i][r..]))
  }

  function RestoreB(u: Matrix, p: Matrix, r: nat): Matrix
    requires Valid(u) && Valid(p) && u.rows == p.rows == r + r && u.cols == p.cols
  {
    Matrix(u.rows, u.cols, u.data[..r] + p.data[r..])
  }

  function Clip(x: real): (y: real)
    ensures 0.0 <= y <= 1.0 && (0.0 <= x <= 1.0 ==> y == x) && (x < 0.0 ==> y == 0.0) && (x > 1.0 ==> y == 1.0)
  {
    if x < 0.0 then 0.0 else if x > 1.0 then 1.0 else x
  }

  /** An optimizer step: whatever the optimizer made of the factors (weight decay included) and of gamma, the old
      halves are written back and gamma is clamped. */
  function Stepped(s: Adapter, u: Adapter, rows: nat, cols: nat, r: nat): Adapter
    requires Shaped(s, rows, cols, r) && Shaped(u, rows, cols, r)
  {
    Adapter(RestoreA(u.a, s.a, r), RestoreB(u.b, s.b, r), Clip(u.gamma))
  }

  ghost predicate IsRun(states: seq<Adapter>, updates: seq<Adapter>, rows: nat, cols: nat, r: nat) {
    && |states| == |updates| + 1
    && (forall k | 0 <= k < |states| :: Shaped(states[k], rows, cols, r))
    && (forall k | 0 <= k < |updates| :: Shaped(updates[k], rows, cols, r))
    && (forall k | 0 <= k < |updates| :: states[k + 1] == Stepped(states[k], updates[k], rows, cols, r))
  }

  lemma RestoreKeepsOld(s: Adapter, u: Adapter, rows: nat, cols: nat, r: nat)
    requires Shaped(s, rows, cols, r) && Shaped(u, rows, cols, r)
    ensures var t := Stepped(s, u, rows, cols, r);
      && Shaped(t, rows, cols, r)
      && Cols(t.a, r, r + r) == Cols(s.a, r, r + r) && Rows(t.b, r, r + r) == Rows(s.b, r, r + r)
      && Cols(t.a, 0, r) == Cols(u.a, 0, r) && Rows(t.b, 0, r) == Rows(u.b, 0, r)
      && (0.0 <= u.gamma <= 1.0 ==> t.gamma == u.gamma)
  {
    var t := Stepped(s, u, rows, cols, r);
    forall i | 0 <= i < rows ensures t.a.data[i][r..r + r] == s.a.data[i][r..r + r]
      && t.a.data[i][0..r] == u.a.data[i][0..r] {
    }
  }

  /** Over any run of arbitrary optimizer updates the old half never changes and gamma stays in [0, 1], so the
      effective adapter is always a convex mix of what was trained with the old adapter of the start. */
  lemma {:induction false} OldHalfFrozen(states: seq<Adapter>, updates: seq<Adapter>, rows: nat, cols: nat, r: nat,
                                         k: nat)
    requires IsRun(states, updates, rows, cols, r) && k < |states| && 0.0 <= states[0].gamma <= 1.0
    ensures 0.0 <= states[k].gamma <= 1.0
    ensures Cols(states[k].a, r, r + r) == Cols(states[0].a, r, r + r)
    ensures Rows(states[k].b, r, r + r) == Rows(states[0].b, r, r + r)
  {
    if k == 0 {
    } else {
      OldHalfFrozen(states, updates, rows, cols, r, k - 1);
      assert states[k] == Stepped(states[k - 1], updates[k - 1], rows, cols, r);
      RestoreKeepsOld(states[k - 1], updates[k - 1], rows, cols, r);
    }
  }

  lemma MixAlongRun(states: seq<Adapter>, updates: seq<Adapter>, rows: nat, cols: nat, r: nat, k: nat, i: nat, j: nat)
    requires IsRun(states, updates, rows, cols, r) && k < |states| && 0.0 <= states[0].gamma <= 1.0
    requires i < rows && j < cols
    ensures var s, start := states[k], states[0];
      Product(s.a, Effective(s.b, s.gamma, r), i, j) ==
      s.gamma * Product(Cols(s.a, 0, r), Rows(s.b, 0, r), i, j)
      + (1.0 - s.gamma) * Product(Cols(start.a, r, r + r), Rows(start.b, r, r + r), i, j)
  {
    OldHalfFrozen(states, updates, rows, cols, r, k);
    assert Shaped(states[k], rows, cols, r);
    EffectiveProduct(states[k].a, states[k].b, states[k].gamma, r, i, j);
  }

  /** Adam over the mixes, seen from outside: it keeps the set of keys. */
  type Moments = map<string, (real, real)>

  datatype Optimizer = Optimizer(init: map<string, real> -> Moments,
                                 update: (map<string, real>, Moments, map<string, real>)
                                         -> (map<string, real>, Moments))

  ghost predicate KeepsKeys(tx: Optimizer) {
    forall g, s, p :: tx.update(g, s, p).0.Keys == p.Keys
  }

  class MixState {
    var gamma: map<string, real>
    var moments: Option<Moments>

    predicate InUnit()
      reads this`gamma
    {
      forall k | k in gamma :: 0.0 <= gamma[k] <= 1.0
    }

    constructor (keys: set<string>, init: real)
      requires 0.0 <= init <= 1.0
      ensures gamma.Keys == keys && InUnit() && moments == None && forall k | k in keys :: gamma[k] == init
    {
      gamma, moments := map k | k in keys :: init, None;
    }

    /** One optimizer step on the mixes: whatever it proposes, every mix ends in [0, 1]. */
    method GammaStep(grads: map<string, real>, tx: Optimizer)
      requires gamma.Keys <= grads.Keys && KeepsKeys(tx)
      modifies this
      ensures gamma.Keys == old(gamma).Keys && (InUnit() || gamma == map[])
      ensures old(gamma) == map[] ==> moments == old(moments)
      ensures old(gamma) != map[] ==>
        var own := map k | k in old(gamma) :: grads[k];
        var state := if old(moments).Some? then old(moments).value else tx.init(old(gamma));
        var (updates, next) := tx.update(own, state, old(gamma));
        && moments == Some(next) && updates.Keys == old(gamma).Keys
        && forall k | k in gamma ::
             var sum := old(gamma)[k] + updates[k];
             gamma[k] == if sum < 0.0 then 0.0 else if sum > 1.0 then 1.0 else sum
    {
      if gamma == map[] {
        return;
      }
      var own := map k | k in gamma :: grads[k];
      var state := if moments.Some? then moments.value else tx.init(gamma);
      var (updates, next) := tx.update(own, state, gamma);
      moments := Some(next);
      gamma := map k | k in gamma :: Clip(gamma[k] + updates[k]);
    }
  }

  // ---------------------------------------------------------------- carrying a plain checkpoint

  datatype Merged = Merged(leaves: map<string, Matrix>) | KeysDiffer | NotLora(key: string) | Misshapen(key: string)

  datatype Naming = Naming(isA: string -> bool, isB: string -> bool)

  /** A rank-r factor fits the old half of a rank-2r template; only the rank axis may differ. */
  predicate Fits(n: Naming, key: string, t: Matrix, p: Matrix, r: nat) {
    if n.isA(key) then t.cols == r + r && p.cols == r && t.rows == p.rows
    else n.isB(key) && t.rows == r + r && p.rows == r && t.cols == p.cols
  }

  /** The template's new half beside the checkpoint; the new half of B is zero. */
  function MergedA(t: Matrix, p: Matrix, r: nat): Matrix
    requires Valid(t) && Valid(p) && t.rows == p.rows && t.cols == r + r
  {
    Matrix(t.rows, t.cols, seq(t.rows, i requires 0 <= i < t.rows => t.data[i][..r] + p.data[i]))
  }

  function MergedB(t: Matrix, p: Matrix, r: nat): Matrix {
    Matrix(t.rows, t.cols, seq(r, (k: nat) => seq(t.cols, (j: nat) => 0.0)) + p.data)
  }

  function MergedLeaf(n: Naming, key: string, t: Matrix, p: Matrix, r: nat): Matrix
    requires Valid(t) && Valid(p) && Fits(n, key, t, p, r)
  {
    if n.isA(key) then MergedA(t, p, r) else MergedB(t, p, r)
  }

  /** Beside the checkpoint's factor lies the template's new half of A, or a zero new half of B. */
  predicate HalvesOf(isA: bool, t: Matrix, p: Matrix, leaf: Matrix, r: nat)
    requires Valid(t)
  {
    && Valid(leaf) && leaf.rows == t.rows && leaf.cols == t.cols
    && (isA ==> t.cols == r + r && Cols(leaf, 0, r) == Cols(t, 0, r) && Cols(leaf, r, r + r) == p)
    && (!isA ==> t.rows == r + r && Rows(leaf, r, r + r) == p)
    && (!isA ==> forall x, y | 0 <= x < r && 0 <= y < t.cols :: leaf.data[x][y] == 0.0)
  }

  lemma MergedLeafHalves(n: Naming, key: string, t: Matrix, p: Matrix, r: nat)
    requires Valid(t) && Valid(p) && Fits(n, key, t, p, r)
    ensures HalvesOf(n.isA(key), t, p, MergedLeaf(n, key, t, p, r), r)
  {
    var leaf := MergedLeaf(n, key, t, p, r);
    if n.isA(key) {
      forall i | 0 <= i < leaf.rows
        ensures leaf.data[i][r..r + r] == p.data[i] && leaf.data[i][0..r] == t.data[i][0..r]
      {
      }
    } else {
      forall i | 0 <= i < leaf.rows ensures |leaf.data[i]| == leaf.cols {
        if i >= r {
          assert leaf.data[i] == p.data[i - r];
        }
      }
    }
  }

  /** Fills the old halves of a template; it refuses anything that does not match it leaf by leaf. */
  method MergePlainCheckpoint(n: Naming, order: seq<string>, template: map<string, Matrix>,
                              plain: map<string, Matrix>, r: nat)
    returns (out: Merged)
    requires template.Keys == (set k | k in order)
    requires (forall k | k in template :: Valid(template[k])) && (forall k | k in plain :: Valid(plain[k]))
    ensures out.KeysDiffer? <==> template.Keys != plain.Keys
    ensures out.Merged? <==> template.Keys == plain.Keys && forall k | k in template ::
      if n.isA(k) then template[k].cols == r + r && plain[k].cols == r && template[k].rows == plain[k].rows
      else n.isB(k) && template[k].rows == r + r && plain[k].rows == r && template[k].cols == plain[k].cols
    ensures out.Merged? ==> out.leaves.Keys == template.Keys
    ensures out.Merged? ==> forall k | k in template :: HalvesOf(n.isA(k), template[k], plain[k], out.leaves[k], r)
    ensures out.NotLora? ==> !n.isA(out.key) && !n.isB(out.key) && out.key in template
    ensures out.Misshapen? ==> (n.isA(out.key) || n.isB(out.key)) && out.key in template
  {
    if template.Keys != plain.Keys {
      return KeysDiffer;
    }
    var leaves := map[];
    for i := 0 to |order|
      invariant leaves.Keys == set j | 0 <= j < i :: order[j]
      invariant forall k | k in leaves ::
        k in template && k in plain && Fits(n, k, template[k], plain[k], r)
        && leaves[k] == MergedLeaf(n, k, template[k], plain[k], r)
    {
      var key := order[i];
      assert key in template;
      if !n.isA(key) && !n.isB(key) {
        return NotLora(key);
      }
      if !Fits(n, key, template[key], plain[key], r) {
        return Misshapen(key);
      }
      leaves := leaves[key := MergedLeaf(n, key, template[key], plain[key], r)];
    }
    assert forall k | k in template :: k in leaves;
    forall k | k in template ensures HalvesOf(n.isA(k), template[k], plain[k], leaves[k], r) {
      MergedLeafHalves(n, k, template[k], plain[k], r);
    }
    out := Merged(leaves);
  }

  lemma ZeroProduct(a: Matrix, b: Matrix, i: nat, j: nat)
    requires forall k: nat | k < b.rows :: Entry(b, k, j) == 0.0
    ensures Product(a, b, i, j) == 0.0
  {
    SumZero(b.rows, Both(Row(a, i), Col(b, j)));
  }

  lemma MergedHalves(ta: Matrix, tb: Matrix, pa: Matrix, pb: Matrix, r: nat)
    requires Valid(ta) && Valid(tb) && Valid(pa) && Valid(pb)
    requires ta.cols == tb.rows == r + r && pa.cols == pb.rows == r && ta.rows == pa.rows && tb.cols == pb.cols
    ensures var a, b := MergedA(ta, pa, r), MergedB(tb, pb, r);
      Pair(a, b, r) && Cols(a, r, r + r) == pa && Rows(b, r, r + r) == pb && Cols(a, 0, r) == Cols(ta, 0, r)
      && forall k: nat, j: nat | k < r :: Entry(Rows(b, 0, r), k, j) == 0.0
  {
    var a, b := MergedA(ta, pa, r), MergedB(tb, pb, r);
    forall i | 0 <= i < a.rows ensures a.data[i][r..r + r] == pa.data[i] && a.data[i][0..r] == ta.data[i][0..r] {
    }
    forall i | 0 <= i < b.rows ensures |b.data[i]| == b.cols {
      if i >= r {
        assert b.data[i] == pb.data[i - r];
      }
    }
  }

  /** A carried adapter starts as the checkpoint scaled by 1 - gamma - at gamma 0 the checkpoint itself - whatever
      the template's random new half. */
  lemma CarriedProduct(ta: Matrix, tb: Matrix, pa: Matrix, pb: Matrix, gamma: real, r: nat, i: nat, j: nat)
    requires Valid(ta) && Valid(tb) && Valid(pa) && Valid(pb)
    requires ta.cols == tb.rows == r + r && pa.cols == pb.rows == r && ta.rows == pa.rows && tb.cols == pb.cols
    requires i < pa.rows && j < pb.cols
    ensures Product(MergedA(ta, pa, r), Effective(MergedB(tb, pb, r), gamma, r), i, j) ==
            (1.0 - gamma) * Product(pa, pb, i, j)
  {
    MergedHalves(ta, tb, pa, pb, r);
    var a, b := MergedA(ta, pa, r), MergedB(tb, pb, r);
    EffectiveProduct(a, b, gamma, r, i, j);
    ZeroProduct(Cols(a, 0, r), Rows(b, 0, r), i, j);
  }
}

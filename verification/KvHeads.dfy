/** Key/value LoRA factors whose heads are replicated: index arithmetic of the replicas, the tied gradient as the
    adjoint of replication, and training on replicas as training on the native heads. */
module KvHeads {
  import opened Collections
  import opened Division
  import opened Sums

  // ---------------------------------------------------------------- indices

  /** `copies` logical heads for each native one, `dim` values each. */
  datatype Heads = Heads(native: nat, copies: nat, dim: nat)

  predicate Accepted(h: Heads) {
    h.native > 0 && h.copies > 0 && h.dim > 0
  }

  function Native(h: Heads): nat {
    h.native * h.dim
  }

  function Logical(h: Heads): nat {
    h.native * h.copies * h.dim
  }

  function Make(native: int, logical: int, dim: int): Option<Heads> {
    if native <= 0 || logical <= 0 || dim <= 0 || logical % native != 0 then None
    else Some(Heads(native, logical / native, dim))
  }

  /** The logical head count must be a positive multiple of the native one. */
  lemma MakeAccepts(native: int, logical: int, dim: int)
    ensures Make(native, logical, dim).Some? <==>
            native > 0 && logical > 0 && dim > 0 && exists k :: k > 0 && logical == k * native
    ensures Make(native, logical, dim).Some? ==>
            var h := Make(native, logical, dim).value;
            Accepted(h) && h.native == native && h.native * h.copies == logical && h.dim == dim
  {
    if native > 0 && logical > 0 && dim > 0 {
      assert logical == (logical / native) * native + logical % native;
      if logical % native == 0 {
        var k := logical / native;
        assert k > 0 && logical == k * native;
      }
      if k :| k > 0 && logical == k * native {
        QuotientOf(logical, k, native, 0);
      }
    }
  }

  /** Where copy c of coordinate d of a native head lies in the flat output axis. */
  function Index(h: Heads, head: nat, c: nat, d: nat): nat
    requires Accepted(h)
  {
    (head * h.copies + c) * h.dim + d
  }

  function HeadOf(h: Heads, i: nat): nat
    requires Accepted(h)
  {
    i / h.dim / h.copies
  }

  /** The position in the native axis that flat position i is a copy of. */
  function Canonical(h: Heads, i: nat): nat
    requires Accepted(h)
  {
    HeadOf(h, i) * h.dim + i % h.dim
  }

  /** The first copy of native position j. */
  function First(h: Heads, j: nat): nat
    requires Accepted(h)
  {
    Index(h, j / h.dim, 0, j % h.dim)
  }

  /** Head, copy and coordinate can be read back from a flat position. */
  lemma IndexInverse(h: Heads, head: nat, c: nat, d: nat)
    requires Accepted(h) && c < h.copies && d < h.dim
    ensures var i := Index(h, head, c, d);
      HeadOf(h, i) == head && (i / h.dim) % h.copies == c && i % h.dim == d
  {
    QuotientOf(Index(h, head, c, d), head * h.copies + c, h.dim, d);
    QuotientOf(head * h.copies + c, head, h.copies, c);
  }

  lemma IndexOnto(h: Heads, i: nat)
    requires Accepted(h)
    ensures Index(h, HeadOf(h, i), (i / h.dim) % h.copies, i % h.dim) == i
  {
    var q := i / h.dim;
    assert q == (q / h.copies) * h.copies + q % h.copies;
    assert i == q * h.dim + i % h.dim;
  }

  lemma CanonicalInRange(h: Heads, i: nat)
    requires Accepted(h) && i < Logical(h)
    ensures HeadOf(h, i) < h.native && Canonical(h, i) < Native(h)
  {
    QuotientBelow(i, h.native * h.copies, h.dim);
    QuotientBelow(i / h.dim, h.native, h.copies);
    Below(HeadOf(h, i), h.native, i % h.dim, h.dim);
  }

  lemma IndexInRange(h: Heads, head: nat, c: nat, d: nat)
    requires Accepted(h) && head < h.native && c < h.copies && d < h.dim
    ensures Index(h, head, c, d) < Logical(h)
  {
    Below(head, h.native, c, h.copies);
    Below(head * h.copies + c, h.native * h.copies, d, h.dim);
  }

  lemma FirstInRange(h: Heads, j: nat)
    requires Accepted(h) && j < Native(h)
    ensures First(h, j) < Logical(h) && Canonical(h, First(h, j)) == j
  {
    QuotientBelow(j, h.native, h.dim);
    IndexInRange(h, j / h.dim, 0, j % h.dim);
    IndexInverse(h, j / h.dim, 0, j % h.dim);
  }

  // ---------------------------------------------------------------- replicate, collapse, tie

  /** n values, number i taken from position at(i). */
  function Spread(n: nat, at: nat -> nat, w: seq<real>): seq<real> {
    seq(n, (i: nat) => At(w)(at(i)))
  }

  /** `at` maps n positions onto k, and `first` picks one of the positions mapped to each. */
  ghost predicate Section(n: nat, k: nat, at: nat -> nat, first: nat -> nat) {
    (forall i: nat | i < n :: Lands(at, i, k)) && forall j: nat | j < k :: Picks(n, at, first, j)
  }

  predicate Lands(at: nat -> nat, i: nat, k: nat) {
    at(i) < k
  }

  predicate Picks(n: nat, at: nat -> nat, first: nat -> nat, j: nat) {
    first(j) < n && at(first(j)) == j
  }

  predicate EqualVia(v: seq<real>, at: nat -> nat, first: nat -> nat) {
    forall i | 0 <= i < |v| :: v[i] == At(v)(first(at(i)))
  }

  lemma SpreadAt(n: nat, at: nat -> nat, w: seq<real>, i: nat)
    requires i < n
    ensures At(Spread(n, at, w))(i) == Spread(n, at, w)[i] == At(w)(at(i))
  {
  }

  lemma SpreadBack(n: nat, k: nat, at: nat -> nat, first: nat -> nat, w: seq<real>)
    requires Section(n, k, at, first) && |w| == k
    ensures Spread(k, first, Spread(n, at, w)) == w
  {
    var v := Spread(n, at, w);
    var back := Spread(k, first, v);
    forall j: nat | j < k ensures back[j] == w[j] {
      assert Picks(n, at, first, j);
      SpreadAt(k, first, v, j);
      SpreadAt(n, at, w, first(j));
    }
  }

  lemma SpreadEqual(n: nat, k: nat, at: nat -> nat, first: nat -> nat, w: seq<real>)
    requires Section(n, k, at, first) && |w| == k
    ensures EqualVia(Spread(n, at, w), at, first)
  {
    var v := Spread(n, at, w);
    forall i: nat | i < n ensures v[i] == At(v)(first(at(i))) {
      var j := at(i);
      assert Lands(at, i, k);
      assert Picks(n, at, first, j);
      SpreadAt(n, at, w, i);
      SpreadAt(n, at, w, first(j));
    }
  }

  lemma EqualIsSpread(n: nat, k: nat, at: nat -> nat, first: nat -> nat, v: seq<real>)
    requires Section(n, k, at, first) && |v| == n && EqualVia(v, at, first)
    ensures v == Spread(n, at, Spread(k, first, v))
  {
    var w := Spread(k, first, v);
    var again := Spread(n, at, w);
    forall i: nat | i < n ensures v[i] == again[i] {
      assert Lands(at, i, k);
      SpreadAt(n, at, w, i);
      SpreadAt(k, first, v, at(i));
    }
  }

  function CanonicalMap(h: Heads): nat -> nat
    requires Accepted(h)
  {
    (i: nat) => Canonical(h, i)
  }

  function FirstMap(h: Heads): nat -> nat
    requires Accepted(h)
  {
    (j: nat) => First(h, j)
  }

  lemma HeadsSection(h: Heads)
    requires Accepted(h)
    ensures Section(Logical(h), Native(h), CanonicalMap(h), FirstMap(h))
  {
    forall i: nat | i < Logical(h) ensures Lands(CanonicalMap(h), i, Native(h)) {
      CanonicalInRange(h, i);
    }
    forall j: nat | j < Native(h) ensures Picks(Logical(h), CanonicalMap(h), FirstMap(h), j) {
      FirstInRange(h, j);
    }
  }

  function Replicate(h: Heads, w: seq<real>): seq<real>
    requires Accepted(h)
  {
    Spread(Logical(h), CanonicalMap(h), w)
  }

  function FirstCopies(h: Heads, v: seq<real>): seq<real>
    requires Accepted(h)
  {
    Spread(Native(h), FirstMap(h), v)
  }

  /** Every value equals the first copy of its native position. */
  predicate ReplicasEqual(h: Heads, v: seq<real>)
    requires Accepted(h)
  {
    EqualVia(v, CanonicalMap(h), FirstMap(h))
  }

  datatype Exported = Exported(native: seq<real>) | WrongShape | Diverged

  /** The native weights of replicated ones, or why there are none. */
  function Collapse(h: Heads, v: seq<real>): Exported
    requires Accepted(h)
  {
    if |v| != Logical(h) then WrongShape
    else if !ReplicasEqual(h, v) then Diverged
    else Exported(FirstCopies(h, v))
  }

  lemma CollapseReplicate(h: Heads, w: seq<real>)
    requires Accepted(h) && |w| == Native(h)
    ensures Collapse(h, Replicate(h, w)) == Exported(w) && ReplicasEqual(h, Replicate(h, w))
  {
    HeadsSection(h);
    SpreadBack(Logical(h), Native(h), CanonicalMap(h), FirstMap(h), w);
    SpreadEqual(Logical(h), Native(h), CanonicalMap(h), FirstMap(h), w);
  }

  /** A tensor is exported exactly when it is the replication of native weights, and then those are exported. */
  lemma ExportedExactlyWhen(h: Heads, v: seq<real>, w: seq<real>)
    requires Accepted(h)
    ensures Collapse(h, v) == Exported(w) <==> |w| == Native(h) && v == Replicate(h, w)
    ensures Collapse(h, v) == WrongShape <==> |v| != h.native * h.copies * h.dim
  {
    if |w| == Native(h) && v == Replicate(h, w) {
      CollapseReplicate(h, w);
    }
    if Collapse(h, v) == Exported(w) {
      HeadsSection(h);
      EqualIsSpread(Logical(h), Native(h), CanonicalMap(h), FirstMap(h), v);
    }
  }

  function SumReplicas(h: Heads, g: seq<real>): seq<real>
    requires Accepted(h)
  {
    seq(Native(h), (j: nat) => SumTo(h.copies, (c: nat) => At(g)(Index(h, j / h.dim, c, j % h.dim))))
  }

  function Tie(h: Heads, g: seq<real>): seq<real>
    requires Accepted(h)
  {
    Replicate(h, SumReplicas(h, g))
  }

  /** What native head `head` contributes to the inner product with the replicas: copy by copy. */
  function Term(h: Heads, w: seq<real>, g: seq<real>, head: nat): (nat, nat) -> real
    requires Accepted(h)
  {
    (c: nat, d: nat) => At(w)(head * h.dim + d) * At(g)(Index(h, head, c, d))
  }

  lemma ReplicaAt(h: Heads, w: seq<real>, head: nat, c: nat, d: nat)
    requires Accepted(h) && head < h.native && c < h.copies && d < h.dim
    ensures At(Replicate(h, w))(Index(h, head, c, d)) == At(w)(head * h.dim + d)
    ensures |Replicate(h, w)| == h.native * h.copies * h.dim
    ensures |w| == h.native * h.dim ==>
      var from, to := head * h.dim + d, (head * h.copies + c) * h.dim + d;
      from < |w| && to < |Replicate(h, w)| && Replicate(h, w)[to] == w[from]
  {
    Below(head, h.native, d, h.dim);
    IndexInverse(h, head, c, d);
    IndexInRange(h, head, c, d);
  }

  lemma CopyTermAt(h: Heads, w: seq<real>, g: seq<real>, head: nat, c: nat, d: nat, i: nat)
    requires Accepted(h) && head < h.native && c < h.copies && d < h.dim && i == Index(h, head, c, d)
    ensures Times(Replicate(h, w), g)(i) == Term(h, w, g, head)(c, d)
  {
    ReplicaAt(h, w, head, c, d);
    TimesAt(Replicate(h, w), g, i, At(w)(head * h.dim + d));
  }

  lemma CopyTerm(h: Heads, w: seq<real>, g: seq<real>, head: nat, c: nat, at: nat)
    requires Accepted(h) && head < h.native && c < h.copies && at == (head * h.copies + c) * h.dim
    ensures SumTo(h.dim, Shifted(Times(Replicate(h, w), g), at)) == RowSum(h.dim, Term(h, w, g, head))(c)
  {
    var products := Times(Replicate(h, w), g);
    var row := (d: nat) => Term(h, w, g, head)(c, d);
    forall d: nat | d < h.dim ensures Shifted(products, at)(d) == row(d) {
      CopyTermAt(h, w, g, head, c, d, at + d);
    }
    SumCongruent(h.dim, Shifted(products, at), row);
  }

  lemma HeadTerm(h: Heads, w: seq<real>, g: seq<real>, head: nat)
    requires Accepted(h) && head < h.native
    ensures var blocks := BlockSum(h.dim, Times(Replicate(h, w), g));
      SumTo(h.copies, Shifted(blocks, head * h.copies)) == SumTo(h.copies, RowSum(h.dim, Term(h, w, g, head)))
  {
    var blocks := BlockSum(h.dim, Times(Replicate(h, w), g));
    forall c: nat | c < h.copies ensures Shifted(blocks, head * h.copies)(c) == RowSum(h.dim, Term(h, w, g, head))(c) {
      CopyTerm(h, w, g, head, c, (head * h.copies + c) * h.dim);
    }
    SumCongruent(h.copies, Shifted(blocks, head * h.copies), RowSum(h.dim, Term(h, w, g, head)));
  }

  lemma NativeTerm(h: Heads, w: seq<real>, g: seq<real>, head: nat)
    requires Accepted(h) && head < h.native && |w| == Native(h) && |g| == Logical(h)
    ensures SumTo(h.dim, Shifted(Times(w, SumReplicas(h, g)), head * h.dim)) ==
            SumTo(h.dim, ColSum(h.copies, Term(h, w, g, head)))
  {
    var shifted, cols := Shifted(Times(w, SumReplicas(h, g)), head * h.dim), ColSum(h.copies, Term(h, w, g, head));
    forall d: nat | d < h.dim ensures shifted(d) == cols(d) {
      var j := head * h.dim + d;
      QuotientOf(j, head, h.dim, d);
      Below(head, h.native, d, h.dim);
      var copies := (c: nat) => At(g)(Index(h, head, c, d));
      SumScale(h.copies, At(w)(j), copies);
      SumCongruent(h.copies, (c: nat) => At(w)(j) * copies(c), (c: nat) => Term(h, w, g, head)(c, d));
      SumCongruent(h.copies, (c: nat) => At(g)(Index(h, j / h.dim, c, j % h.dim)), copies);
    }
    SumCongruent(h.dim, shifted, cols);
  }

  /** Summing the copies is the exact adjoint of replication, so the tied gradient is the gradient of the shared
      weights. */
  lemma SumIsAdjoint(h: Heads, w: seq<real>, g: seq<real>)
    requires Accepted(h) && |w| == Native(h) && |g| == Logical(h)
    ensures Dot(Replicate(h, w), g) == Dot(w, SumReplicas(h, g))
  {
    var big, small := Times(Replicate(h, w), g), Times(w, SumReplicas(h, g));
    var blocks := BlockSum(h.dim, big);
    SumBlocks(h.native * h.copies, h.dim, big);
    SumBlocks(h.native, h.copies, blocks);
    SumBlocks(h.native, h.dim, small);
    forall head: nat | head < h.native
      ensures BlockSum(h.copies, blocks)(head) == BlockSum(h.dim, small)(head)
    {
      HeadTerm(h, w, g, head);
      SumSwap(h.copies, h.dim, Term(h, w, g, head));
      NativeTerm(h, w, g, head);
    }
    SumCongruent(h.native, BlockSum(h.copies, blocks), BlockSum(h.dim, small));
  }

  // ---------------------------------------------------------------- training

  /** An element-wise optimizer step: new weight and moments from the old ones and the gradient, by one formula
      for every element. */
  type Rule = (real, real, real, real) -> (real, real, real)

  datatype Leaf = Leaf(w: seq<real>, m: seq<real>, v: seq<real>)

  predicate Sized(s: Leaf, n: nat) {
    |s.w| == |s.m| == |s.v| == n
  }

  function Step(u: Rule, s: Leaf, g: seq<real>): Leaf {
    var n := |s.w|;
    Leaf(seq(n, (i: nat) => u(At(s.w)(i), At(s.m)(i), At(s.v)(i), At(g)(i)).0),
         seq(n, (i: nat) => u(At(s.w)(i), At(s.m)(i), At(s.v)(i), At(g)(i)).1),
         seq(n, (i: nat) => u(At(s.w)(i), At(s.m)(i), At(s.v)(i), At(g)(i)).2))
  }

  function SpreadLeaf(n: nat, at: nat -> nat, s: Leaf): Leaf {
    Leaf(Spread(n, at, s.w), Spread(n, at, s.m), Spread(n, at, s.v))
  }

  function ReplicateLeaf(h: Heads, s: Leaf): Leaf
    requires Accepted(h)
  {
    SpreadLeaf(Logical(h), CanonicalMap(h), s)
  }

  lemma StepAt(u: Rule, s: Leaf, g: seq<real>, i: nat)
    requires i < |s.w|
    ensures var t, r := Step(u, s, g), u(At(s.w)(i), At(s.m)(i), At(s.v)(i), At(g)(i));
      && |t.w| == |t.m| == |t.v| == |s.w|
      && At(t.w)(i) == t.w[i] == r.0 && At(t.m)(i) == t.m[i] == r.1 && At(t.v)(i) == t.v[i] == r.2
  {
  }

  /** An element-wise step does not care where its elements lie. */
  lemma SpreadStep(n: nat, at: nat -> nat, k: nat, u: Rule, s: Leaf, g: seq<real>)
    requires Sized(s, k) && |g| == k && forall i: nat | i < n :: Lands(at, i, k)
    ensures Step(u, SpreadLeaf(n, at, s), Spread(n, at, g)) == SpreadLeaf(n, at, Step(u, s, g))
  {
    var a, b := Step(u, SpreadLeaf(n, at, s), Spread(n, at, g)), SpreadLeaf(n, at, Step(u, s, g));
    forall i: nat | i < n ensures a.w[i] == b.w[i] && a.m[i] == b.m[i] && a.v[i] == b.v[i] {
      assert Lands(at, i, k);
      SpreadAt(n, at, s.w, i);
      SpreadAt(n, at, s.m, i);
      SpreadAt(n, at, s.v, i);
      SpreadAt(n, at, g, i);
      StepAt(u, s, g, at(i));
      StepAt(u, SpreadLeaf(n, at, s), Spread(n, at, g), i);
      SpreadAt(n, at, Step(u, s, g).w, i);
      SpreadAt(n, at, Step(u, s, g).m, i);
      SpreadAt(n, at, Step(u, s, g).v, i);
    }
  }

  lemma StepCommutes(h: Heads, u: Rule, s: Leaf, g: seq<real>)
    requires Accepted(h) && Sized(s, Native(h)) && |g| == Native(h)
    ensures Step(u, ReplicateLeaf(h, s), Replicate(h, g)) == ReplicateLeaf(h, Step(u, s, g))
  {
    HeadsSection(h);
    SpreadStep(Logical(h), CanonicalMap(h), Native(h), u, s, g);
  }

  /** One optimizer step of a run: its rule, and the gradient it finds at given weights. */
  datatype Turn = Turn(rule: Rule, gradient: seq<real> -> seq<real>)

  /** Training the replicated weights, with tied gradients. */
  function Trained(h: Heads, s: Leaf, turns: seq<Turn>): Leaf
    requires Accepted(h)
  {
    if turns == [] then s
    else
      var n := |turns| - 1;
      var before := Trained(h, s, turns[..n]);
      Step(turns[n].rule, before, Tie(h, turns[n].gradient(before.w)))
  }

  /** Training the native weights: each gradient is the sum over the copies, which is the native gradient. */
  function TrainedNative(h: Heads, s: Leaf, turns: seq<Turn>): Leaf
    requires Accepted(h)
  {
    if turns == [] then s
    else
      var n := |turns| - 1;
      var before := TrainedNative(h, s, turns[..n]);
      Step(turns[n].rule, before, SumReplicas(h, turns[n].gradient(Replicate(h, before.w))))
  }

  /** Over any number of steps of any element-wise optimizer, training the replicas is training the native
      weights; the replicas never diverge, and the export gives the native run's weights. */
  lemma {:induction false} TrainingRefinesNative(h: Heads, s: Leaf, turns: seq<Turn>)
    requires Accepted(h) && Sized(s, Native(h))
    ensures Sized(TrainedNative(h, s, turns), Native(h))
    ensures Trained(h, ReplicateLeaf(h, s), turns) == ReplicateLeaf(h, TrainedNative(h, s, turns))
    ensures Collapse(h, Trained(h, ReplicateLeaf(h, s), turns).w) == Exported(TrainedNative(h, s, turns).w)
    decreases |turns|
  {
    if turns == [] {
    } else {
      var n := |turns| - 1;
      TrainingRefinesNative(h, s, turns[..n]);
      var before := TrainedNative(h, s, turns[..n]);
      StepCommutes(h, turns[n].rule, before, SumReplicas(h, turns[n].gradient(Replicate(h, before.w))));
    }
    CollapseReplicate(h, TrainedNative(h, s, turns).w);
  }

  /** A run whose weights and moments start replica-equal - fresh, or restored from a validated checkpoint - never
      fails validation. */
  lemma NeverDiverges(h: Heads, s: Leaf, turns: seq<Turn>)
    requires Accepted(h) && Sized(s, Logical(h))
    requires ReplicasEqual(h, s.w) && ReplicasEqual(h, s.m) && ReplicasEqual(h, s.v)
    ensures var t := Trained(h, s, turns);
      Sized(t, Logical(h)) && ReplicasEqual(h, t.w) && ReplicasEqual(h, t.m) && ReplicasEqual(h, t.v)
  {
    var native := Leaf(FirstCopies(h, s.w), FirstCopies(h, s.m), FirstCopies(h, s.v));
    ExportedExactlyWhen(h, s.w, native.w);
    ExportedExactlyWhen(h, s.m, native.m);
    ExportedExactlyWhen(h, s.v, native.v);
    TrainingRefinesNative(h, native, turns);
    var t := TrainedNative(h, native, turns);
    CollapseReplicate(h, t.w);
    CollapseReplicate(h, t.m);
    CollapseReplicate(h, t.v);
  }
}

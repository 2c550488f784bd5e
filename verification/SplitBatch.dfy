/** Splitting a batch that mixes models into one batch per model. */
module SplitBatch {
  import opened Collections

  datatype Loss = CrossEntropy | ImportanceSampling | Ppo | Cispo | PpoCritic

  /** One example, with the four RL fields it may carry. */
  datatype Example = Example(inputs: seq<int>, targets: seq<int>, weights: seq<real>, logprobs: seq<real>,
                             advantages: seq<real>, values: seq<real>, returnValues: seq<real>,
                             model: string, loss: Loss, config: Option<map<string, real>>)

  datatype Slice = Slice(request: string, model: string, start: nat, end: nat)

  datatype Batch = Batch(rows: seq<Example>, slices: seq<Slice>)

  datatype Role = Policy | Critic

  /** The slices follow one another and cover the rows; each holds rows of its own model. */
  predicate WellFormed(b: Batch) {
    && InBounds(b)
    && (forall k, i | 0 <= k < |b.slices| && b.slices[k].start <= i < b.slices[k].end ::
          b.rows[i].model == b.slices[k].model)
    && (forall j, k | 0 <= j < k < |b.slices| :: b.slices[j].request != b.slices[k].request)
    && (forall k | 0 < k < |b.slices| :: b.slices[k].start == b.slices[k - 1].end)
    && (if b.slices == [] then b.rows == [] else b.slices[0].start == 0 && b.slices[|b.slices| - 1].end == |b.rows|)
  }

  predicate InBounds(b: Batch) {
    forall k | 0 <= k < |b.slices| :: b.slices[k].start <= b.slices[k].end <= |b.rows|
  }

  // ---------------------------------------------------------------- splitting

  function Select(ss: seq<Slice>, m: string): seq<Slice> {
    if ss == [] then []
    else Select(ss[..|ss| - 1], m) + if ss[|ss| - 1].model == m then [ss[|ss| - 1]] else []
  }

  predicate Inside(ss: seq<Slice>, n: nat) {
    forall k | 0 <= k < |ss| :: ss[k].start <= ss[k].end <= n
  }

  function Gathered(rows: seq<Example>, ss: seq<Slice>): seq<Example>
    requires Inside(ss, |rows|)
  {
    if ss == [] then []
    else Gathered(rows, ss[..|ss| - 1]) + rows[ss[|ss| - 1].start..ss[|ss| - 1].end]
  }

  function Width(ss: seq<Slice>): nat
    requires forall k | 0 <= k < |ss| :: ss[k].start <= ss[k].end
  {
    if ss == [] then 0 else Width(ss[..|ss| - 1]) + ss[|ss| - 1].end - ss[|ss| - 1].start
  }

  /** The slices moved next to one another. */
  function Moved(ss: seq<Slice>): seq<Slice>
    requires forall k | 0 <= k < |ss| :: ss[k].start <= ss[k].end
  {
    if ss == [] then []
    else
      var before, s := ss[..|ss| - 1], ss[|ss| - 1];
      Moved(before) + [Slice(s.request, s.model, Width(before), Width(ss))]
  }

  /** Models in order of first appearance. */
  function ModelsOf(ss: seq<Slice>): seq<string> {
    if ss == [] then []
    else
      var before, m := ModelsOf(ss[..|ss| - 1]), ss[|ss| - 1].model;
      if m in before then before else before + [m]
  }

  lemma {:induction false} SelectInside(ss: seq<Slice>, m: string, n: nat)
    requires Inside(ss, n)
    ensures Inside(Select(ss, m), n) && |Select(ss, m)| <= |ss|
    ensures forall k | 0 <= k < |Select(ss, m)| :: Select(ss, m)[k].model == m && Select(ss, m)[k] in ss
  {
    if ss == [] {
    } else {
      SelectInside(ss[..|ss| - 1], m, n);
    }
  }

  function Part(b: Batch, m: string): Batch
    requires InBounds(b)
  {
    SelectInside(b.slices, m, |b.rows|);
    Batch(Gathered(b.rows, Select(b.slices, m)), Moved(Select(b.slices, m)))
  }

  lemma {:induction false} GatheredWidth(rows: seq<Example>, ss: seq<Slice>)
    requires Inside(ss, |rows|)
    ensures |Gathered(rows, ss)| == Width(ss) && |Moved(ss)| == |ss|
    decreases |ss|
  {
    if ss == [] {
    } else {
      GatheredWidth(rows, ss[..|ss| - 1]);
    }
  }

  /** Slice j of the part keeps its request and, wherever it has moved, exactly its rows. */
  lemma {:induction false} MovedRows(rows: seq<Example>, ss: seq<Slice>, j: nat)
    requires Inside(ss, |rows|) && j < |ss|
    ensures |Moved(ss)| == |ss| && |Gathered(rows, ss)| == Width(ss)
    ensures var s := Moved(ss)[j];
      && s.request == ss[j].request && s.model == ss[j].model && s.start <= s.end <= Width(ss)
      && Gathered(rows, ss)[s.start..s.end] == rows[ss[j].start..ss[j].end]
    decreases |ss|
  {
    GatheredWidth(rows, ss);
    var n := |ss| - 1;
    GatheredWidth(rows, ss[..n]);
    if j < n {
      MovedRows(rows, ss[..n], j);
      var s := Moved(ss)[j];
      assert Gathered(rows, ss)[s.start..s.end] == Gathered(rows, ss[..n])[s.start..s.end];
    }
  }

  /** Request k of the batch is slice |Select(slices[..k])| of its model's part, so a part keeps the order of its
      model's requests. */
  lemma {:induction false} SelectAt(ss: seq<Slice>, k: nat)
    requires k < |ss|
    ensures var j := |Select(ss[..k], ss[k].model)|;
      j < |Select(ss, ss[k].model)| && Select(ss, ss[k].model)[j] == ss[k]
    decreases |ss|
  {
    var n := |ss| - 1;
    if k < n {
      SelectAt(ss[..n], k);
      assert ss[..n][..k] == ss[..k];
    }
  }

  /** A request's rows reach its model's part unchanged and in order. */
  lemma RequestKept(b: Batch, k: nat)
    requires WellFormed(b) && k < |b.slices|
    ensures var part := Part(b, b.slices[k].model); var j := |Select(b.slices[..k], b.slices[k].model)|;
      && j < |part.slices| && part.slices[j].request == b.slices[k].request
      && part.slices[j].start <= part.slices[j].end <= |part.rows|
      && part.rows[part.slices[j].start..part.slices[j].end] == b.rows[b.slices[k].start..b.slices[k].end]
  {
    var m := b.slices[k].model;
    SelectInside(b.slices, m, |b.rows|);
    SelectAt(b.slices, k);
    MovedRows(b.rows, Select(b.slices, m), |Select(b.slices[..k], m)|);
  }

  // ---------------------------------------------------------------- nothing lost, nothing doubled

  function Together(rows: seq<Example>, ss: seq<Slice>, ms: seq<string>): multiset<Example>
    requires Inside(ss, |rows|)
  {
    if ms == [] then multiset{}
    else
      SelectInside(ss, ms[|ms| - 1], |rows|);
      Together(rows, ss, ms[..|ms| - 1]) + multiset(Gathered(rows, Select(ss, ms[|ms| - 1])))
  }

  lemma {:induction false} TogetherStep(rows: seq<Example>, ss: seq<Slice>, ms: seq<string>)
    requires ss != [] && Inside(ss, |rows|) && forall i, j | 0 <= i < j < |ms| :: ms[i] != ms[j]
    ensures var s := ss[|ss| - 1];
      Together(rows, ss, ms) == Together(rows, ss[..|ss| - 1], ms)
                                + if s.model in ms then multiset(rows[s.start..s.end]) else multiset{}
    decreases |ms|
  {
    if ms == [] {
    } else {
      var n, s := |ms| - 1, ss[|ss| - 1];
      TogetherStep(rows, ss, ms[..n]);
      GatheredStep(rows, ss, ms[n]);
    }
  }

  lemma GatheredStep(rows: seq<Example>, ss: seq<Slice>, m: string)
    requires ss != [] && Inside(ss, |rows|)
    ensures Inside(Select(ss, m), |rows|) && Inside(Select(ss[..|ss| - 1], m), |rows|)
    ensures var before, s := Select(ss[..|ss| - 1], m), ss[|ss| - 1];
      Gathered(rows, Select(ss, m)) == Gathered(rows, before) + if s.model == m then rows[s.start..s.end] else []
  {
    SelectInside(ss, m, |rows|);
    SelectInside(ss[..|ss| - 1], m, |rows|);
    var before, s := Select(ss[..|ss| - 1], m), ss[|ss| - 1];
    if s.model == m {
      assert Select(ss, m) == before + [s] && (before + [s])[..|before|] == before;
    } else {
      assert Select(ss, m) == before;
    }
  }

  predicate Absent(ss: seq<Slice>, m: string) {
    forall s | s in ss :: s.model != m
  }

  lemma {:induction false} SelectNone(ss: seq<Slice>, m: string)
    requires Absent(ss, m)
    ensures Select(ss, m) == []
  {
    if ss == [] {
    } else {
      SelectNone(ss[..|ss| - 1], m);
    }
  }

  lemma TogetherNew(rows: seq<Example>, ss: seq<Slice>, ms: seq<string>, m: string)
    requires Inside(ss, |rows|) && Absent(ss, m)
    ensures Together(rows, ss, ms + [m]) == Together(rows, ss, ms)
  {
    SelectNone(ss, m);
    assert (ms + [m])[..|ms|] == ms;
  }

  lemma {:induction false} ModelsAbsent(ss: seq<Slice>, m: string)
    ensures m !in ModelsOf(ss) <==> Absent(ss, m)
    decreases |ss|
  {
    if ss == [] {
    } else {
      var n := |ss| - 1;
      ModelsAbsent(ss[..n], m);
      assert ss == ss[..n] + [ss[n]];
    }
  }

  lemma {:induction false} ModelsDistinct(ss: seq<Slice>)
    ensures forall i, j | 0 <= i < j < |ModelsOf(ss)| :: ModelsOf(ss)[i] != ModelsOf(ss)[j]
    decreases |ss|
  {
    if ss == [] {
    } else {
      ModelsDistinct(ss[..|ss| - 1]);
    }
  }

  /** The models are listed in the order in which they first appear. */
  lemma {:induction false} FirstAppearance(ss: seq<Slice>, i: nat, j: nat)
    requires i < j < |ss| && Absent(ss[..i], ss[i].model) && Absent(ss[..j], ss[j].model)
    ensures exists x, y :: 0 <= x < y < |ModelsOf(ss)|
                           && ModelsOf(ss)[x] == ss[i].model && ModelsOf(ss)[y] == ss[j].model
    decreases |ss|
  {
    var n := |ss| - 1;
    if j < n {
      assert ss[..n][..i] == ss[..i] && ss[..n][..j] == ss[..j];
      FirstAppearance(ss[..n], i, j);
      var x, y :| 0 <= x < y < |ModelsOf(ss[..n])|
                  && ModelsOf(ss[..n])[x] == ss[i].model && ModelsOf(ss[..n])[y] == ss[j].model;
      assert ModelsOf(ss)[x] == ss[i].model && ModelsOf(ss)[y] == ss[j].model;
    } else {
      ModelsAbsent(ss[..n], ss[i].model);
      ModelsAbsent(ss[..n], ss[j].model);
      assert ss[..n][i] in ss[..n];
      var x :| 0 <= x < |ModelsOf(ss[..n])| && ModelsOf(ss[..n])[x] == ss[i].model;
      assert ModelsOf(ss)[x] == ss[i].model && ModelsOf(ss)[|ModelsOf(ss[..n])|] == ss[j].model;
    }
  }

  /** The parts of all models together are exactly the rows of the batch, each as often as it was there. */
  lemma PartsConserveRows(b: Batch)
    requires WellFormed(b)
    ensures Together(b.rows, b.slices, ModelsOf(b.slices)) == multiset(b.rows)
  {
    PrefixTiled(b, |b.slices|);
    assert b.slices[..|b.slices|] == b.slices;
    TiledConserved(b.rows, b.slices);
    assert EndOf(b.slices) == |b.rows| && b.rows[..|b.rows|] == b.rows;
  }

  /** The slices follow one another from 0 on. */
  predicate Tiled(ss: seq<Slice>) {
    ss == [] || (Tiled(ss[..|ss| - 1]) && ss[|ss| - 1].start == EndOf(ss[..|ss| - 1]))
  }

  function EndOf(ss: seq<Slice>): nat {
    if ss == [] then 0 else ss[|ss| - 1].end
  }

  lemma {:induction false} TiledConserved(rows: seq<Example>, ss: seq<Slice>)
    requires Inside(ss, |rows|) && Tiled(ss)
    ensures EndOf(ss) <= |rows| && Together(rows, ss, ModelsOf(ss)) == multiset(rows[..EndOf(ss)])
    decreases |ss|
  {
    if ss == [] {
    } else {
      var before, s := ss[..|ss| - 1], ss[|ss| - 1];
      assert Inside(before, |rows|) && Tiled(before) && s.start == EndOf(before);
      TiledConserved(rows, before);
      SliceConserved(rows, ss, before, s, EndOf(before));
    }
  }

  lemma {:induction false} PrefixTiled(b: Batch, k: nat)
    requires WellFormed(b) && k <= |b.slices|
    ensures Tiled(b.slices[..k])
  {
    if k == 0 {
    } else {
      PrefixTiled(b, k - 1);
      assert b.slices[..k][..k - 1] == b.slices[..k - 1];
    }
  }

  lemma SliceConserved(rows: seq<Example>, ss: seq<Slice>, before: seq<Slice>, s: Slice, upto: nat)
    requires ss != [] && before == ss[..|ss| - 1] && s == ss[|ss| - 1]
    requires Inside(ss, |rows|) && Inside(before, |rows|) && s.start == upto <= s.end <= |rows|
    requires Together(rows, before, ModelsOf(before)) == multiset(rows[..upto])
    ensures Together(rows, ss, ModelsOf(ss)) == multiset(rows[..s.end])
  {
    OneMoreSlice(rows, ss);
    SliceConcat(rows, s.start, s.end);
  }

  lemma SliceConcat(rows: seq<Example>, i: nat, j: nat)
    requires i <= j <= |rows|
    ensures multiset(rows[..j]) == multiset(rows[..i]) + multiset(rows[i..j])
  {
    assert rows[..j] == rows[..i] + rows[i..j];
  }

  lemma OneMoreSlice(rows: seq<Example>, ss: seq<Slice>)
    requires ss != [] && Inside(ss, |rows|)
    ensures var before, s := ss[..|ss| - 1], ss[|ss| - 1];
      Together(rows, ss, ModelsOf(ss)) == Together(rows, before, ModelsOf(before)) + multiset(rows[s.start..s.end])
  {
    var before, s := ss[..|ss| - 1], ss[|ss| - 1];
    ModelsDistinct(ss);
    TogetherStep(rows, ss, ModelsOf(ss));
    ModelsAbsent(before, s.model);
    if s.model !in ModelsOf(before) {
      TogetherNew(rows, before, ModelsOf(before), s.model);
    }
  }

  // ---------------------------------------------------------------- a part is its model's rows

  function RowsOf(rows: seq<Example>, m: string): seq<Example> {
    if rows == [] then []
    else
      var n := |rows| - 1;
      RowsOf(rows[..n], m) + if rows[n].model == m then [rows[n]] else []
  }

  predicate AllOf(rows: seq<Example>, m: string) {
    forall e | e in rows :: e.model == m
  }

  lemma {:induction false} RowsOfConcat(a: seq<Example>, b: seq<Example>, m: string)
    ensures RowsOf(a + b, m) == RowsOf(a, m) + RowsOf(b, m)
    decreases |b|
  {
    if b == [] {
      assert a + b == a;
    } else {
      var n := |b| - 1;
      assert (a + b)[..|a| + n] == a + b[..n];
      RowsOfConcat(a, b[..n], m);
    }
  }

  lemma {:induction false} RowsOfMembers(rows: seq<Example>, m: string)
    ensures forall e :: e in RowsOf(rows, m) <==> e in rows && e.model == m
    decreases |rows|
  {
    if rows == [] {
    } else {
      var n := |rows| - 1;
      RowsOfMembers(rows[..n], m);
      assert rows == rows[..n] + [rows[n]];
    }
  }

  /** Rows that all have one model are that model's, and no other's. */
  lemma {:induction false} RowsOfOne(rows: seq<Example>, m: string, m': string)
    requires AllOf(rows, m')
    ensures RowsOf(rows, m) == if m == m' then rows else []
    decreases |rows|
  {
    if rows == [] {
    } else {
      var n := |rows| - 1;
      RowsOfOne(rows[..n], m, m');
      assert rows == rows[..n] + [rows[n]];
    }
  }

  /** Each part holds exactly its model's rows, in the order of the batch. */
  lemma PartHomogeneous(b: Batch, m: string)
    requires WellFormed(b)
    ensures Part(b, m).rows == RowsOf(b.rows, m) && AllOf(Part(b, m).rows, m)
  {
    PrefixTiled(b, |b.slices|);
    assert b.slices[..|b.slices|] == b.slices;
    TiledRowsOf(b, b.slices, m);
    assert EndOf(b.slices) == |b.rows| && b.rows[..|b.rows|] == b.rows;
    RowsOfMembers(b.rows, m);
  }

  predicate OwnRows(rows: seq<Example>, s: Slice) {
    s.start <= s.end <= |rows| && AllOf(rows[s.start..s.end], s.model)
  }

  lemma RowsOfPrefix(rows: seq<Example>, s: Slice, m: string)
    requires OwnRows(rows, s)
    ensures RowsOf(rows[..s.end], m) ==
      RowsOf(rows[..s.start], m) + if s.model == m then rows[s.start..s.end] else []
  {
    assert rows[..s.end] == rows[..s.start] + rows[s.start..s.end];
    RowsOfConcat(rows[..s.start], rows[s.start..s.end], m);
    RowsOfOne(rows[s.start..s.end], m, s.model);
  }

  lemma {:induction false} TiledRowsOf(b: Batch, ss: seq<Slice>, m: string)
    requires WellFormed(b) && ss <= b.slices && Tiled(ss)
    ensures Inside(Select(ss, m), |b.rows|) && EndOf(ss) <= |b.rows|
    ensures Gathered(b.rows, Select(ss, m)) == RowsOf(b.rows[..EndOf(ss)], m)
    decreases |ss|
  {
    if ss == [] {
    } else {
      var n := |ss| - 1;
      var before, s := ss[..n], ss[n];
      TiledRowsOf(b, before, m);
      GatheredStep(b.rows, ss, m);
      assert s == b.slices[n] && OwnRows(b.rows, s);
      RowsOfPrefix(b.rows, s, m);
    }
  }

  // ---------------------------------------------------------------- the code

  predicate OneModel(rows: seq<Example>) {
    forall e | e in rows :: e.model == rows[0].model
  }

  function Parts(b: Batch, ms: seq<string>): seq<Batch>
    requires InBounds(b)
  {
    seq(|ms|, i requires 0 <= i < |ms| => Part(b, ms[i]))
  }

  lemma {:induction false} ModelsMembers(ss: seq<Slice>, m: string)
    ensures m in ModelsOf(ss) <==> exists s :: s in ss && s.model == m
  {
    ModelsAbsent(ss, m);
  }

  method GroupByModel(ss: seq<Slice>) returns (order: seq<string>, groups: map<string, seq<Slice>>)
    ensures order == ModelsOf(ss) && groups.Keys == set m | m in order
    ensures forall m | m in order :: groups[m] == Select(ss, m)
  {
    order, groups := [], map[];
    var k := 0;
    while k < |ss|
      invariant k <= |ss| && order == ModelsOf(ss[..k]) && groups.Keys == set m | m in order
      invariant forall m | m in order :: groups[m] == Select(ss[..k], m)
    {
      var s := ss[k];
      assert ss[..k + 1][..k] == ss[..k];
      if s.model !in groups {
        ModelsAbsent(ss[..k], s.model);
        SelectNone(ss[..k], s.model);
        order := order + [s.model];
        groups := groups[s.model := []];
      }
      groups := groups[s.model := groups[s.model] + [s]];
      k := k + 1;
    }
    assert ss[..k] == ss;
  }

  method BuildPart(b: Batch, group: seq<Slice>) returns (part: Batch)
    requires InBounds(b) && Inside(group, |b.rows|)
    ensures part == Batch(Gathered(b.rows, group), Moved(group))
  {
    var rows, slices, k := [], [], 0;
    while k < |group|
      invariant k <= |group| && rows == Gathered(b.rows, group[..k]) && slices == Moved(group[..k])
    {
      var s := group[k];
      assert group[..k + 1][..k] == group[..k];
      GatheredWidth(b.rows, group[..k]);
      GatheredWidth(b.rows, group[..k + 1]);
      var start := |rows|;
      rows := rows + b.rows[s.start..s.end];
      slices := slices + [Slice(s.request, s.model, start, |rows|)];
      k := k + 1;
    }
    assert group[..k] == group;
    part := Batch(rows, slices);
  }

  /** A batch of one model is left alone; else every slice's model must be known, and there is one part per model
      in order of first appearance. */
  method SplitByModel(b: Batch, known: map<string, Role>) returns (r: Result<seq<Batch>, string>)
    requires InBounds(b)
    ensures OneModel(b.rows) ==> r == Ok([b])
    ensures !OneModel(b.rows) ==> (r.Ok? <==> forall s | s in b.slices :: s.model in known)
    ensures r.Err? ==> r.reason !in known && exists s :: s in b.slices && s.model == r.reason
    ensures !OneModel(b.rows) && r.Ok? ==> r.value == Parts(b, ModelsOf(b.slices))
  {
    if OneModel(b.rows) {
      return Ok([b]);
    }
    for k := 0 to |b.slices|
      invariant forall j | 0 <= j < k :: b.slices[j].model in known
    {
      if b.slices[k].model !in known {
        return Err(b.slices[k].model);
      }
    }
    var order, groups := GroupByModel(b.slices);
    var parts := [];
    for k := 0 to |order|
      invariant |parts| == k && parts == Parts(b, order[..k])
    {
      SelectInside(b.slices, order[k], |b.rows|);
      var part := BuildPart(b, groups[order[k]]);
      parts := parts + [part];
    }
    assert order[..|order|] == order;
    r := Ok(parts);
  }

  lemma {:induction false} SelectDistinct(ss: seq<Slice>, m: string)
    requires forall j, k | 0 <= j < k < |ss| :: ss[j].request != ss[k].request
    ensures forall j, k | 0 <= j < k < |Select(ss, m)| :: Select(ss, m)[j].request != Select(ss, m)[k].request
    ensures forall s | s in Select(ss, m) :: s in ss && s.model == m
    decreases |ss|
  {
    if ss == [] {
    } else {
      SelectDistinct(ss[..|ss| - 1], m);
    }
  }
}

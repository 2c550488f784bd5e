/** One model pass: the batch is cut into micro-batches, each padded to the FSDP size, run, sliced back and
    flattened, while gradients accumulate per adapter. */
module MicroBatch {
  import opened Padding

  /** One example, across the arrays of the batch. */
  datatype Row = Row(input: seq<int>, attention: seq<int>, target: seq<int>, lossMask: seq<real>,
                     sampling: seq<real>, advantages: seq<real>, adapter: nat, lossFn: nat,
                     clipLow: real, clipHigh: real)

  /** The model, row by row: losses and log-probabilities per token, and the derivative of the row's loss by
      parameter c of the row's own adapter. */
  datatype Model = Model(losses: Row -> seq<real>, logprobs: Row -> seq<real>, grad: (Row, nat) -> real)

  // ---------------------------------------------------------------- padding

  function ZeroRow(len: nat): Row {
    var ints, reals := seq(len, _ => 0), seq(len, _ => 0.0);
    Row(ints, ints, ints, reals, reals, reals, 0, 0, 0.0, 0.0)
  }

  function PadToFsdp(rows: seq<Row>, fsdp: nat, len: nat): seq<Row>
    requires fsdp > 0
  {
    rows + seq(PadSize(|rows|, fsdp), _ => ZeroRow(len))
  }

  /** Fills row after row of a zeroed array; every sequence must fit. */
  method PadBatch(sequences: seq<seq<real>>, len: nat) returns (padded: array2<real>)
    requires forall s | s in sequences :: |s| <= len
    ensures fresh(padded) && padded.Length0 == |sequences| && padded.Length1 == len
    ensures forall i, j | 0 <= i < |sequences| && 0 <= j < len ::
      padded[i, j] == if j < |sequences[i]| then sequences[i][j] else 0.0
  {
    padded := new real[|sequences|, len]((i, j) => 0.0);
    var i := 0;
    while i < |sequences|
      invariant i <= |sequences|
      invariant forall k, j | 0 <= k < |sequences| && 0 <= j < len ::
        padded[k, j] == if k < i && j < |sequences[k]| then sequences[k][j] else 0.0
    {
      forall j | 0 <= j < |sequences[i]| {
        padded[i, j] := sequences[i][j];
      }
      i := i + 1;
    }
  }

  // ---------------------------------------------------------------- gradients

  function GradSum(m: Model, rows: seq<Row>, a: nat, c: nat): real {
    if rows == [] then 0.0
    else
      var n := |rows| - 1;
      GradSum(m, rows[..n], a, c) + if rows[n].adapter == a then m.grad(rows[n], c) else 0.0
  }

  function CountOf(rows: seq<Row>, a: nat): nat {
    if rows == [] then 0
    else
      var n := |rows| - 1;
      CountOf(rows[..n], a) + if rows[n].adapter == a then 1 else 0
  }

  lemma {:induction false} GradSumConcat(m: Model, xs: seq<Row>, ys: seq<Row>, a: nat, c: nat)
    ensures GradSum(m, xs + ys, a, c) == GradSum(m, xs, a, c) + GradSum(m, ys, a, c)
    decreases |ys|
  {
    if ys == [] {
      assert xs + ys == xs;
    } else {
      var n := |ys| - 1;
      assert (xs + ys)[..|xs| + n] == xs + ys[..n];
      GradSumConcat(m, xs, ys[..n], a, c);
    }
  }

  lemma {:induction false} CountConcat(xs: seq<Row>, ys: seq<Row>, a: nat)
    ensures CountOf(xs + ys, a) == CountOf(xs, a) + CountOf(ys, a)
    decreases |ys|
  {
    if ys == [] {
      assert xs + ys == xs;
    } else {
      var n := |ys| - 1;
      assert (xs + ys)[..|xs| + n] == xs + ys[..n];
      CountConcat(xs, ys[..n], a);
    }
  }

  /** Padding rows carry adapter 0, so they add nothing to any other adapter. */
  lemma {:induction false} ForeignRows(m: Model, rows: seq<Row>, a: nat, c: nat)
    requires forall r | r in rows :: r.adapter != a
    ensures GradSum(m, rows, a, c) == 0.0 && CountOf(rows, a) == 0
    decreases |rows|
  {
    if rows == [] {
    } else {
      ForeignRows(m, rows[..|rows| - 1], a, c);
    }
  }

  /** Gradient sums per adapter and parameter, and row counts per adapter. */
  datatype Accumulated = Accumulated(sums: seq<seq<real>>, counts: seq<nat>)

  function Zeros(adapters: nat, width: nat): Accumulated {
    Accumulated(seq(adapters, _ => seq(width, _ => 0.0)), seq(adapters, _ => 0))
  }

  /** What one run over these rows adds. */
  function Add(m: Model, acc: Accumulated, rows: seq<Row>): (r: Accumulated)
    requires |acc.sums| == |acc.counts|
  {
    Accumulated(seq(|acc.sums|, a requires 0 <= a < |acc.sums| =>
                      seq(|acc.sums[a]|, c requires 0 <= c < |acc.sums[a]| => acc.sums[a][c] + GradSum(m, rows, a, c))),
                seq(|acc.counts|, a requires 0 <= a < |acc.counts| => acc.counts[a] + CountOf(rows, a)))
  }

  /** Equal for every adapter but the reserved adapter 0. */
  predicate SameAbove0(x: Accumulated, y: Accumulated) {
    && |x.sums| == |y.sums| && |x.counts| == |y.counts|
    && (forall a | 1 <= a < |x.sums| :: x.sums[a] == y.sums[a])
    && (forall a | 1 <= a < |x.counts| :: x.counts[a] == y.counts[a])
  }

  lemma AddTwice(m: Model, acc: Accumulated, xs: seq<Row>, ys: seq<Row>)
    requires |acc.sums| == |acc.counts|
    ensures Add(m, Add(m, acc, xs), ys) == Add(m, acc, xs + ys)
  {
    var twice, once := Add(m, Add(m, acc, xs), ys), Add(m, acc, xs + ys);
    forall a: nat | a < |acc.sums| ensures twice.sums[a] == once.sums[a] && twice.counts[a] == once.counts[a] {
      CountConcat(xs, ys, a);
      forall c: nat | c < |acc.sums[a]| ensures twice.sums[a][c] == once.sums[a][c] {
        GradSumConcat(m, xs, ys, a, c);
      }
    }
  }

  lemma AddNothing(m: Model, acc: Accumulated)
    requires |acc.sums| == |acc.counts|
    ensures Add(m, acc, []) == acc
  {
    var r := Add(m, acc, []);
    forall a: nat | a < |acc.sums| ensures r.sums[a] == acc.sums[a] {
    }
  }

  /** A row adds its own gradient and one count to its own adapter, and nothing to another. */
  lemma AddRow(m: Model, acc: Accumulated, rows: seq<Row>, row: Row, a: nat)
    requires |acc.sums| == |acc.counts| && a < |acc.sums|
    ensures var was, now := Add(m, acc, rows), Add(m, acc, rows + [row]);
      && |now.sums| == |now.counts| == |acc.sums| && |now.sums[a]| == |was.sums[a]|
      && now.counts[a] == was.counts[a] + (if row.adapter == a then 1 else 0)
      && forall c | 0 <= c < |now.sums[a]| ::
           now.sums[a][c] == was.sums[a][c] + if row.adapter == a then m.grad(row, c) else 0.0
  {
    assert (rows + [row])[..|rows|] == rows;
  }

  lemma AddKeepsSame(m: Model, x: Accumulated, y: Accumulated, rows: seq<Row>)
    requires |x.sums| == |x.counts| && SameAbove0(x, y)
    ensures SameAbove0(Add(m, x, rows), Add(m, y, rows))
  {
  }

  lemma AddPadded(m: Model, acc: Accumulated, rows: seq<Row>, fsdp: nat, len: nat)
    requires |acc.sums| == |acc.counts| && fsdp > 0
    ensures SameAbove0(Add(m, acc, PadToFsdp(rows, fsdp, len)), Add(m, acc, rows))
  {
    var pads := seq(PadSize(|rows|, fsdp), _ => ZeroRow(len));
    var padded, plain := Add(m, acc, rows + pads), Add(m, acc, rows);
    forall a: nat | 1 <= a < |acc.sums| ensures padded.sums[a] == plain.sums[a] && padded.counts[a] == plain.counts[a] {
      CountConcat(rows, pads, a);
      ForeignRows(m, pads, a, 0);
      forall c: nat | c < |acc.sums[a]| ensures padded.sums[a][c] == plain.sums[a][c] {
        GradSumConcat(m, rows, pads, a, c);
        ForeignRows(m, pads, a, c);
      }
    }
  }

  // ---------------------------------------------------------------- the loop

  function Mapped(f: Row -> seq<real>, rows: seq<Row>): seq<seq<real>> {
    seq(|rows|, i requires 0 <= i < |rows| => f(rows[i]))
  }

  function Joined(chunks: seq<seq<seq<real>>>): seq<seq<real>> {
    if chunks == [] then [] else Joined(chunks[..|chunks| - 1]) + chunks[|chunks| - 1]
  }

  function MicroBatchSize(mb: int, total: nat): nat {
    if mb <= 0 then total else if mb < total then mb else if total > 1 then total else 1
  }

  /** The compiled pass over one padded micro-batch, which the FSDP shards divide evenly. */
  method RunChunk(m: Model, acc: Accumulated, rows: seq<Row>, ghost fsdp: nat, backward: bool)
    returns (next: Accumulated, losses: seq<seq<real>>, logprobs: seq<seq<real>>)
    requires |acc.sums| == |acc.counts| && fsdp > 0 && |rows| % fsdp == 0
    ensures next == if backward then Add(m, acc, rows) else acc
    ensures losses == Mapped(m.losses, rows) && logprobs == Mapped(m.logprobs, rows)
  {
    next := if backward then Add(m, acc, rows) else acc;
    losses, logprobs := Mapped(m.losses, rows), Mapped(m.logprobs, rows);
  }

  /** What running `rows` in any chunks leaves, up to adapter 0. */
  predicate AccumulatedAs(m: Model, before: Accumulated, rows: seq<Row>, backward: bool, after: Accumulated)
    requires |before.sums| == |before.counts|
  {
    SameAbove0(after, if backward then Add(m, before, rows) else before)
  }

  lemma ChunkAccumulates(m: Model, before: Accumulated, done: seq<Row>, acc: Accumulated, rows: seq<Row>,
                         fsdp: nat, len: nat, backward: bool)
    requires |before.sums| == |before.counts| == |acc.sums| == |acc.counts| && fsdp > 0
    requires AccumulatedAs(m, before, done, backward, acc)
    ensures AccumulatedAs(m, before, done + rows, backward,
                          if backward then Add(m, acc, PadToFsdp(rows, fsdp, len)) else acc)
  {
    if backward {
      AddPadded(m, acc, rows, fsdp, len);
      AddKeepsSame(m, acc, Add(m, before, done), rows);
      AddTwice(m, before, done, rows);
    }
  }

  lemma MappedSplit(f: Row -> seq<real>, rows: seq<Row>, i: nat, j: nat)
    requires i <= j <= |rows|
    ensures Mapped(f, rows[..j]) == Mapped(f, rows[..i]) + Mapped(f, rows[i..j])
  {
  }

  lemma MappedPrefix(f: Row -> seq<real>, rows: seq<Row>, pads: seq<Row>)
    ensures Mapped(f, rows + pads)[..|rows|] == Mapped(f, rows)
  {
  }

  /** Rows start to end in one padded micro-batch. */
  method RunNext(m: Model, ghost before: Accumulated, acc: Accumulated, rows: seq<Row>, start: nat, end: nat,
                 len: nat, fsdp: nat, backward: bool)
    returns (next: Accumulated, losses: seq<seq<real>>, logprobs: seq<seq<real>>)
    requires |acc.sums| == |acc.counts| == |before.sums| == |before.counts| && fsdp > 0 && start <= end <= |rows|
    requires AccumulatedAs(m, before, rows[..start], backward, acc)
    ensures |next.sums| == |next.counts| == |before.sums| && AccumulatedAs(m, before, rows[..end], backward, next)
    ensures losses == Mapped(m.losses, rows[start..end]) && logprobs == Mapped(m.logprobs, rows[start..end])
  {
    var chunk := PadToFsdp(rows[start..end], fsdp, len);
    ChunkAccumulates(m, before, rows[..start], acc, rows[start..end], fsdp, len, backward);
    assert rows[..start] + rows[start..end] == rows[..end];
    PadSizeLeast(end - start, fsdp, 0);
    next, losses, logprobs := RunChunk(m, acc, chunk, fsdp, backward);
    MappedPrefix(m.losses, rows[start..end], chunk[end - start..]);
    MappedPrefix(m.logprobs, rows[start..end], chunk[end - start..]);
    assert chunk == rows[start..end] + chunk[end - start..];
    losses, logprobs := losses[..end - start], logprobs[..end - start];
  }

  /** The micro-batch loop, for any micro-batch size and FSDP size: the chunks joined are the outputs of one
      full unpadded pass, and every adapter but 0 has accumulated what that pass would add. */
  method RunMicroBatches(m: Model, before: Accumulated, rows: seq<Row>, len: nat, mb: int, fsdp: nat, backward: bool)
    returns (acc: Accumulated, losses: seq<seq<seq<real>>>, logprobs: seq<seq<seq<real>>>)
    requires |before.sums| == |before.counts| && fsdp > 0 && rows != []
    ensures |acc.sums| == |acc.counts| && AccumulatedAs(m, before, rows, backward, acc)
    ensures Joined(losses) == Mapped(m.losses, rows) && Joined(logprobs) == Mapped(m.logprobs, rows)
    ensures |losses| == |logprobs| && forall k | 0 <= k < |losses| :: |losses[k]| == |logprobs[k]|
    ensures mb <= 0 ==> |losses| == 1
    ensures mb > 0 ==> forall k | 0 <= k < |losses| :: 0 < |losses[k]| <= mb && (k + 1 < |losses| ==> |losses[k]| == mb)
  {
    acc, losses, logprobs := before, [], [];
    var size := MicroBatchSize(mb, |rows|);
    var start := 0;
    AddNothing(m, before);
    while start < |rows|
      invariant start <= |rows|
      invariant |acc.sums| == |acc.counts| == |before.sums| && AccumulatedAs(m, before, rows[..start], backward, acc)
      invariant Joined(losses) == Mapped(m.losses, rows[..start])
      invariant Joined(logprobs) == Mapped(m.logprobs, rows[..start])
      invariant |losses| == |logprobs| && forall k | 0 <= k < |losses| :: |losses[k]| == |logprobs[k]|
      invariant mb <= 0 ==> |losses| == (if start == 0 then 0 else 1)
      invariant forall k | 0 <= k < |losses| :: 0 < |losses[k]| <= size
      invariant forall k | 0 <= k < |losses| && (k + 1 < |losses| || start < |rows|) ::
        |losses[k]| == size
    {
      var end := if start + size < |rows| then start + size else |rows|;
      MappedSplit(m.losses, rows, start, end);
      MappedSplit(m.logprobs, rows, start, end);
      var chunkLosses, chunkLogprobs;
      acc, chunkLosses, chunkLogprobs := RunNext(m, before, acc, rows, start, end, len, fsdp, backward);
      losses, logprobs := losses + [chunkLosses], logprobs + [chunkLogprobs];
      assert losses[..|losses| - 1] + [losses[|losses| - 1]] == losses;
      start := end;
    }
    assert rows[..start] == rows;
  }

  function Least(a: nat, b: nat): (r: nat)
    ensures r <= a && r <= b && (r == a || r == b)
  {
    if a <= b then a else b
  }

  function Trimmed(outs: seq<seq<real>>, lens: seq<nat>): seq<seq<real>>
    requires |outs| <= |lens|
  {
    seq(|outs|, i requires 0 <= i < |outs| => if lens[i] <= |outs[i]| then outs[i][..lens[i]] else outs[i])
  }

  /** Flattens the chunks, cutting each row to its own length. */
  method Flatten(chunks: seq<seq<seq<real>>>, lens: seq<nat>) returns (outs: seq<seq<real>>)
    requires |Joined(chunks)| == |lens|
    ensures outs == Trimmed(Joined(chunks), lens)
  {
    outs := [];
    var k, idx := 0, 0;
    assert chunks[..|chunks|] == chunks;
    while k < |chunks|
      invariant k <= |chunks| && idx == |outs| == |Joined(chunks[..k])|
      invariant idx <= |lens| && outs == Trimmed(Joined(chunks[..k]), lens)
    {
      JoinedPrefix(chunks, k + 1);
      assert chunks[..k + 1][..k] == chunks[..k];
      var i := 0;
      while i < |chunks[k]|
        invariant i <= |chunks[k]| && idx == |outs| == |Joined(chunks[..k])| + i <= |lens|
        invariant outs == Trimmed(Joined(chunks[..k]) + chunks[k][..i], lens)
      {
        var row := chunks[k][i];
        outs := outs + [if lens[idx] <= |row| then row[..lens[idx]] else row];
        idx := idx + 1;
        i := i + 1;
      }
      assert chunks[k][..i] == chunks[k];
      k := k + 1;
    }
  }

  lemma {:induction false} JoinedPrefix(chunks: seq<seq<seq<real>>>, k: nat)
    requires k <= |chunks|
    ensures |Joined(chunks[..k])| <= |Joined(chunks)|
    decreases |chunks|
  {
    if k == |chunks| {
      assert chunks[..k] == chunks;
    } else {
      var n := |chunks| - 1;
      JoinedPrefix(chunks[..n], k);
      assert chunks[..n][..k] == chunks[..k];
    }
  }

  // ---------------------------------------------------------------- per request

  datatype Slice = Slice(request: string, start: nat, end: nat)

  datatype Output = Output(losses: seq<seq<real>>, logprobs: seq<seq<real>>)

  /** The whole pass.  Every request receives, in order, exactly what one full unpadded pass gives its own rows,
      whatever the micro-batch and FSDP sizes; an empty batch gives nothing and changes nothing. */
  method ModelPass(m: Model, before: Accumulated, rows: seq<Row>, lens: seq<nat>, slices: seq<Slice>,
                   len: nat, mb: int, fsdp: nat, backward: bool)
    returns (acc: Accumulated, results: map<string, Output>)
    requires |before.sums| == |before.counts| && fsdp > 0 && |lens| == |rows|
    requires forall s | s in slices :: s.start <= s.end <= |rows|
    requires forall i, j | 0 <= i < j < |slices| :: slices[i].request != slices[j].request
    ensures |acc.sums| == |acc.counts| && AccumulatedAs(m, before, rows, backward, acc)
    ensures rows == [] ==> acc == before && results == map[]
    ensures rows != [] ==> results.Keys == set s | s in slices :: s.request
    ensures rows != [] ==> forall s | s in slices ::
      |results[s.request].losses| == |results[s.request].logprobs| == s.end - s.start
    ensures rows != [] ==> forall s, i | s in slices && 0 <= i < s.end - s.start ::
      && results[s.request].losses[i] <= m.losses(rows[s.start + i])
      && results[s.request].logprobs[i] <= m.logprobs(rows[s.start + i])
    ensures rows != [] ==> forall s, i | s in slices && 0 <= i < s.end - s.start ::
      && |results[s.request].losses[i]| == Least(lens[s.start + i], |m.losses(rows[s.start + i])|)
      && |results[s.request].logprobs[i]| == Least(lens[s.start + i], |m.logprobs(rows[s.start + i])|)
  {
    results := map[];
    if rows == [] {
      AddNothing(m, before);
      return before, results;
    }
    var lossChunks, logprobChunks;
    acc, lossChunks, logprobChunks := RunMicroBatches(m, before, rows, len, mb, fsdp, backward);
    var losses := Flatten(lossChunks, lens);
    var logprobs := Flatten(logprobChunks, lens);
    results := Respond(slices, losses, logprobs);
    ResponsesByRow(m, rows, lens, slices, losses, logprobs, results);
  }

  lemma CutToLength(f: Row -> seq<real>, rows: seq<Row>, lens: seq<nat>, outs: seq<seq<real>>)
    requires |lens| == |rows| && outs == Trimmed(Mapped(f, rows), lens)
    ensures |outs| == |rows| && forall i | 0 <= i < |rows| :: outs[i] <= f(rows[i])
    ensures forall i | 0 <= i < |rows| :: |outs[i]| == Least(lens[i], |f(rows[i])|)
  {
  }

  lemma ResponsesByRow(m: Model, rows: seq<Row>, lens: seq<nat>, slices: seq<Slice>, losses: seq<seq<real>>,
                       logprobs: seq<seq<real>>, results: map<string, Output>)
    requires |lens| == |rows| && forall s | s in slices :: s.start <= s.end <= |rows| && s.request in results
    requires losses == Trimmed(Mapped(m.losses, rows), lens) && logprobs == Trimmed(Mapped(m.logprobs, rows), lens)
    requires forall s | s in slices :: results[s.request] == Output(losses[s.start..s.end], logprobs[s.start..s.end])
    ensures forall s | s in slices ::
      |results[s.request].losses| == |results[s.request].logprobs| == s.end - s.start
    ensures forall s, i | s in slices && 0 <= i < s.end - s.start ::
      && results[s.request].losses[i] <= m.losses(rows[s.start + i])
      && results[s.request].logprobs[i] <= m.logprobs(rows[s.start + i])
    ensures forall s, i | s in slices && 0 <= i < s.end - s.start ::
      && |results[s.request].losses[i]| == Least(lens[s.start + i], |m.losses(rows[s.start + i])|)
      && |results[s.request].logprobs[i]| == Least(lens[s.start + i], |m.logprobs(rows[s.start + i])|)
  {
    CutToLength(m.losses, rows, lens, losses);
    CutToLength(m.logprobs, rows, lens, logprobs);
    forall s, i | s in slices && 0 <= i < s.end - s.start
      ensures results[s.request].losses[i] == losses[s.start + i]
      ensures results[s.request].logprobs[i] == logprobs[s.start + i]
    {
    }
  }

  /** Cuts the outputs of all rows into the requests' own. */
  method Respond(slices: seq<Slice>, losses: seq<seq<real>>, logprobs: seq<seq<real>>)
    returns (results: map<string, Output>)
    requires forall s | s in slices :: s.start <= s.end <= |losses| == |logprobs|
    requires forall i, j | 0 <= i < j < |slices| :: slices[i].request != slices[j].request
    ensures results.Keys == set s | s in slices :: s.request
    ensures forall s | s in slices :: results[s.request] == Output(losses[s.start..s.end], logprobs[s.start..s.end])
  {
    results := map[];
    var k := 0;
    while k < |slices|
      invariant k <= |slices| && results.Keys == set i | 0 <= i < k :: slices[i].request
      invariant forall i | 0 <= i < k ::
        results[slices[i].request] ==
          Output(losses[slices[i].start..slices[i].end], logprobs[slices[i].start..slices[i].end])
    {
      var s := slices[k];
      assert s in slices;
      results := results[s.request := Output(losses[s.start..s.end], logprobs[s.start..s.end])];
      k := k + 1;
    }
  }
}

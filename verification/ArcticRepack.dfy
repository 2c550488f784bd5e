/** Repacking a batch from [PAD | prompt | response] rows to rows whose prompts all end, and whose responses all
    start, at the same column; and the left padding of response tensors for the loss. */
module ArcticRepack {

  import opened MaskedRows

  // ---------------------------------------------------------------- one row repacked

  /** The row's prompt ends, and its response starts, at column maxP. */
  function NewIds(ids: seq<int>, p: nat, r: nat, maxP: nat, maxR: nat, pad: int): seq<int>
    requires p + r <= |ids| && p <= maxP && r <= maxR
  {
    Fill(maxP - p, pad) + ids[|ids| - p - r..|ids| - r] + ids[|ids| - r..] + Fill(maxR - r, pad)
  }

  function NewAttention(p: nat, r: nat, maxP: nat, maxR: nat): seq<int>
    requires p <= maxP && r <= maxR
  {
    Fill(maxP - p, 0) + Fill(p + r, 1) + Fill(maxR - r, 0)
  }

  function NewMask(r: nat, maxR: nat): seq<int>
    requires r <= maxR
  {
    Fill(r, 1) + Fill(maxR - r, 0)
  }

  function NewValues(values: seq<real>, r: nat, maxR: nat): seq<real>
    requires r <= |values| && r <= maxR
  {
    values[|values| - r..] + Fill(maxR - r, 0.0)
  }

  /** Running count of the mask less one, and 0 where the mask is 0. */
  function Positions(attention: seq<int>): seq<int> {
    seq(|attention|, j requires 0 <= j < |attention| => if attention[j] == 0 then 0 else Sum(attention[..j + 1]) - 1)
  }

  /** Nothing is lost: the attended tokens of the new row are those of the old one, prompt then response. */
  lemma ReadoutKept(ids: seq<int>, attention: seq<int>, p: nat, r: nat, maxP: nat, maxR: nat, pad: int)
    requires |attention| == |ids| && RightAligned(attention) && Sum(attention) == p + r && p <= maxP && r <= maxR
    ensures |NewIds(ids, p, r, maxP, maxR, pad)| == |NewAttention(p, r, maxP, maxR)| == maxP + maxR
    ensures Masked(NewIds(ids, p, r, maxP, maxR, pad), NewAttention(p, r, maxP, maxR)) == Masked(ids, attention)
  {
    MaskedTail(ids, attention);
    IdsShape(ids, p, r, maxP, maxR, pad);
    TailReadout(ids[|ids| - p - r..], maxP - p, maxR - r, pad);
  }

  lemma TailReadout(tail: seq<int>, left: nat, right: nat, pad: int)
    ensures Masked(Fill(left, pad) + tail + Fill(right, pad), Fill(left, 0) + Fill(|tail|, 1) + Fill(right, 0)) == tail
  {
    MaskedMiddle(Fill(left, pad), tail, Fill(right, pad));
  }

  lemma IdsShape(ids: seq<int>, p: nat, r: nat, maxP: nat, maxR: nat, pad: int)
    requires p + r <= |ids| && p <= maxP && r <= maxR
    ensures NewIds(ids, p, r, maxP, maxR, pad) == Fill(maxP - p, pad) + ids[|ids| - p - r..] + Fill(maxR - r, pad)
  {
    assert ids[|ids| - p - r..|ids| - r] + ids[|ids| - r..] == ids[|ids| - p - r..];
  }

  /** Position ids count 0, 1, 2, ... over the row's tokens and are 0 on padding. */
  lemma PositionsCount(p: nat, r: nat, maxP: nat, maxR: nat, j: nat)
    requires p <= maxP && r <= maxR && j < maxP + maxR
    ensures |Positions(NewAttention(p, r, maxP, maxR))| == maxP + maxR
    ensures Positions(NewAttention(p, r, maxP, maxR))[j] == if maxP - p <= j < maxP + r then j - (maxP - p) else 0
  {
    var attention := NewAttention(p, r, maxP, maxR);
    if maxP - p <= j < maxP + r {
      var k := j - (maxP - p);
      assert attention[..j + 1] == Fill(maxP - p, 0) + Fill(k + 1, 1);
      SumConcat(Fill(maxP - p, 0), Fill(k + 1, 1));
      SumOfFill(maxP - p, 0);
      SumOfFill(k + 1, 1);
    }
  }

  /** After left padding, every response tensor is aligned with the tokens: the padded response mask lets through
      exactly the response tokens, and of any response tensor exactly the values of those tokens in order. */
  lemma ResponsesAligned(ids: seq<int>, values: seq<real>, responseMask: seq<int>, p: nat, r: nat,
                         maxP: nat, maxR: nat, pad: int)
    requires p + r <= |ids| && p <= maxP && r <= maxR
    requires |values| == |responseMask| && RightAligned(responseMask) && Sum(responseMask) == r
    ensures var len := maxP + maxR;
      var mask, row, padded := LeftPadded(NewMask(r, maxR), len, 0), NewIds(ids, p, r, maxP, maxR, pad),
                               LeftPadded(NewValues(values, r, maxR), len, 0.0);
      && |mask| == |row| == |padded| == len
      && Masked(row, mask) == ids[|ids| - r..]
      && Masked(padded, mask) == Masked(values, responseMask)
      && row[maxP..maxP + r] == ids[|ids| - r..] && padded[maxP..maxP + r] == values[|values| - r..]
  {
    var len := maxP + maxR;
    var row := NewIds(ids, p, r, maxP, maxR, pad);
    var padded := LeftPadded(NewValues(values, r, maxR), len, 0.0);
    assert LeftPadded(NewMask(r, maxR), len, 0) == Fill(maxP, 0) + Fill(r, 1) + Fill(len - maxP - r, 0);
    MaskedWindow(row, maxP, r);
    MaskedWindow(padded, maxP, r);
    MaskedTail(values, responseMask);
    assert row[maxP..maxP + r] == ids[|ids| - r..];
    assert padded[maxP..maxP + r] == values[|values| - r..];
  }

  // ---------------------------------------------------------------- the batch

  /** `others` are the response-shaped tensors present (advantages, loss mask, rollout log-probabilities, returns). */
  datatype Batch = Batch(width: nat, responseWidth: nat, sequences: seq<seq<int>>, attention: seq<seq<int>>,
                         responseMask: seq<seq<int>>, others: seq<seq<seq<real>>>)

  predicate Rect<T>(m: seq<seq<T>>, n: nat, width: nat) {
    |m| == n && forall i | 0 <= i < n :: |m[i]| == width
  }

  predicate Shaped(b: Batch) {
    && |b.sequences| > 0 && Rect(b.sequences, |b.sequences|, b.width) && Rect(b.attention, |b.sequences|, b.width)
    && Rect(b.responseMask, |b.sequences|, b.responseWidth)
    && forall k | 0 <= k < |b.others| :: Rect(b.others[k], |b.sequences|, b.responseWidth)
  }

  /** The layout the batch builder gives a row: padding to the left, the response mask right-aligned. */
  predicate RowLaidOut(attention: seq<int>, responseMask: seq<int>) {
    RightAligned(attention) && RightAligned(responseMask) && Sum(responseMask) <= Sum(attention)
  }

  predicate LaidOut(b: Batch) {
    Shaped(b) && forall i | 0 <= i < |b.sequences| :: RowLaidOut(b.attention[i], b.responseMask[i])
  }

  /** Prompt and response length of each row. */
  datatype Lens = Lens(p: seq<nat>, r: seq<nat>)

  predicate AreLens(b: Batch, l: Lens)
    requires Shaped(b)
  {
    && |l.p| == |l.r| == |b.sequences|
    && forall i | 0 <= i < |b.sequences| :: l.r[i] == Sum(b.responseMask[i]) && l.p[i] + l.r[i] == Sum(b.attention[i])
  }

  /** The lengths fit rows of these widths, old and new. */
  predicate Fit(l: Lens, n: nat, width: nat, responseWidth: nat, maxP: nat, maxR: nat) {
    && |l.p| == |l.r| == n
    && forall i | 0 <= i < n :: l.p[i] + l.r[i] <= width && l.r[i] <= responseWidth && l.p[i] <= maxP && l.r[i] <= maxR
  }

  method Lengths(b: Batch) returns (l: Lens)
    requires LaidOut(b)
    ensures AreLens(b, l)
  {
    var p, r, i := [], [], 0;
    while i < |b.sequences|
      invariant |p| == |r| == i <= |b.sequences|
      invariant forall k | 0 <= k < i :: r[k] == Sum(b.responseMask[k]) && r[k] >= 0
      invariant forall k | 0 <= k < i :: 0 <= p[k] == Sum(b.attention[k]) - r[k]
    {
      assert RowLaidOut(b.attention[i], b.responseMask[i]);
      r, p := r + [Sum(b.responseMask[i])], p + [Sum(b.attention[i]) - Sum(b.responseMask[i])];
      i := i + 1;
    }
    l := Lens(p, r);
  }

  method Maximum(xs: seq<nat>) returns (m: nat)
    requires xs != []
    ensures m in xs && forall x | x in xs :: x <= m
  {
    m := xs[0];
    var i := 1;
    while i < |xs|
      invariant 1 <= i <= |xs| && m in xs && forall k | 0 <= k < i :: xs[k] <= m
    {
      m := if xs[i] > m then xs[i] else m;
      i := i + 1;
    }
  }

  /** The longest prompt and the longest response; the latter widened to `patcher` when ZoRRO training asks for it. */
  method Widths(b: Batch, l: Lens, zorro: bool, patcher: nat) returns (maxP: nat, maxR: nat)
    requires LaidOut(b) && AreLens(b, l)
    ensures Fit(l, |b.sequences|, b.width, b.responseWidth, maxP, maxR)
    ensures maxP in l.p && (maxR in l.r || (zorro && maxR == patcher)) && (zorro ==> patcher <= maxR)
  {
    maxP := Maximum(l.p);
    maxR := Maximum(l.r);
    if zorro && maxR < patcher {
      maxR := patcher;
    }
    forall i | 0 <= i < |b.sequences|
      ensures l.p[i] + l.r[i] <= b.width && l.r[i] <= b.responseWidth && l.p[i] <= maxP && l.r[i] <= maxR
    {
      assert RowLaidOut(b.attention[i], b.responseMask[i]);
      assert l.p[i] in l.p && l.r[i] in l.r;
    }
  }

  // ---------------------------------------------------------------- filling the tensors

  /** The array's first `upto` rows are those given, the rest of it is still blank. */
  ghost predicate Filled<T>(a: array2<T>, rows: seq<seq<T>>, upto: nat, blank: T)
    reads a
  {
    && Rect(rows, a.Length0, a.Length1)
    && forall x, y | 0 <= x < a.Length0 && 0 <= y < a.Length1 :: a[x, y] == if x < upto then rows[x][y] else blank
  }

  ghost predicate Holds<T>(a: array2<T>, rows: seq<seq<T>>)
    reads a
  {
    Rect(rows, a.Length0, a.Length1) && forall x, y | 0 <= x < a.Length0 && 0 <= y < a.Length1 :: a[x, y] == rows[x][y]
  }

  /** a[i, lo : lo + |values|] = values */
  method WriteAt<T>(a: array2<T>, i: nat, lo: nat, values: seq<T>)
    requires i < a.Length0 && lo + |values| <= a.Length1
    modifies a
    ensures forall x, y | 0 <= x < a.Length0 && 0 <= y < a.Length1 ::
      a[x, y] == if x == i && lo <= y < lo + |values| then values[y - lo] else old(a[x, y])
  {
    forall k | 0 <= k < |values| {
      a[i, lo + k] := values[k];
    }
  }

  /** Writes row i as two adjacent slices. */
  method WriteRow<T>(a: array2<T>, ghost rows: seq<seq<T>>, i: nat, lo: nat, first: seq<T>, second: seq<T>, blank: T)
    requires Filled(a, rows, i, blank) && i < |rows| && lo + |first| + |second| <= a.Length1
    requires rows[i] == Fill(lo, blank) + first + second + Fill(a.Length1 - lo - |first| - |second|, blank)
    modifies a
    ensures Filled(a, rows, i + 1, blank)
  {
    WriteAt(a, i, lo, first);
    WriteAt(a, i, lo + |first|, second);
  }

  function IdRows(ids: seq<seq<int>>, l: Lens, maxP: nat, maxR: nat, pad: int): seq<seq<int>> {
    seq(|ids|, i requires 0 <= i < |ids| =>
      if i < |l.p| && i < |l.r| && l.p[i] + l.r[i] <= |ids[i]| && l.p[i] <= maxP && l.r[i] <= maxR
      then NewIds(ids[i], l.p[i], l.r[i], maxP, maxR, pad) else [])
  }

  function AttentionRows(l: Lens, maxP: nat, maxR: nat): seq<seq<int>> {
    seq(|l.p|, i requires 0 <= i < |l.p| =>
      if i < |l.r| && l.p[i] <= maxP && l.r[i] <= maxR then NewAttention(l.p[i], l.r[i], maxP, maxR) else [])
  }

  function MaskRows(l: Lens, maxR: nat): seq<seq<int>> {
    seq(|l.r|, i requires 0 <= i < |l.r| => if l.r[i] <= maxR then NewMask(l.r[i], maxR) else [])
  }

  function ValueRows(t: seq<seq<real>>, l: Lens, maxR: nat): seq<seq<real>> {
    seq(|t|, i requires 0 <= i < |t| =>
      if i < |l.r| && l.r[i] <= |t[i]| && l.r[i] <= maxR then NewValues(t[i], l.r[i], maxR) else [])
  }

  method RepackIds(ids: seq<seq<int>>, l: Lens, width: nat, rw: nat, maxP: nat, maxR: nat, pad: int)
    returns (a: array2<int>)
    requires Rect(ids, |ids|, width) && Fit(l, |ids|, width, rw, maxP, maxR)
    ensures fresh(a) && a.Length1 == maxP + maxR && Holds(a, IdRows(ids, l, maxP, maxR, pad))
  {
    a := new int[|ids|, maxP + maxR]((i, j) => pad);
    ghost var rows := IdRows(ids, l, maxP, maxR, pad);
    var i := 0;
    while i < |ids|
      invariant i <= |ids| && Filled(a, rows, i, pad)
    {
      var p, r, row := l.p[i], l.r[i], ids[i];
      var left := width - p - r;
      assert rows[i] == NewIds(row, p, r, maxP, maxR, pad);
      WriteRow(a, rows, i, maxP - p, row[left..left + p], row[left + p..], pad);
      i := i + 1;
    }
  }

  method RepackAttention(l: Lens, width: nat, rw: nat, maxP: nat, maxR: nat) returns (a: array2<int>)
    requires Fit(l, |l.p|, width, rw, maxP, maxR)
    ensures fresh(a) && a.Length1 == maxP + maxR && Holds(a, AttentionRows(l, maxP, maxR))
  {
    a := new int[|l.p|, maxP + maxR]((i, j) => 0);
    ghost var rows := AttentionRows(l, maxP, maxR);
    var i := 0;
    while i < |l.p|
      invariant i <= |l.p| && Filled(a, rows, i, 0)
    {
      WriteRow(a, rows, i, maxP - l.p[i], Fill(l.p[i] + l.r[i], 1), [], 0);
      i := i + 1;
    }
  }

  method RepackMask(l: Lens, maxR: nat) returns (a: array2<int>)
    requires forall i | 0 <= i < |l.r| :: l.r[i] <= maxR
    ensures fresh(a) && a.Length1 == maxR && Holds(a, MaskRows(l, maxR))
  {
    a := new int[|l.r|, maxR]((i, j) => 0);
    ghost var rows := MaskRows(l, maxR);
    var i := 0;
    while i < |l.r|
      invariant i <= |l.r| && Filled(a, rows, i, 0)
    {
      WriteRow(a, rows, i, 0, Fill(l.r[i], 1), [], 0);
      i := i + 1;
    }
  }

  /** One response-shaped tensor: the last r values of each row move to its front. */
  method RepackValues(t: seq<seq<real>>, l: Lens, width: nat, rw: nat, maxP: nat, maxR: nat) returns (a: array2<real>)
    requires Rect(t, |t|, rw) && Fit(l, |t|, width, rw, maxP, maxR)
    ensures fresh(a) && a.Length1 == maxR && Holds(a, ValueRows(t, l, maxR))
  {
    a := new real[|t|, maxR]((i, j) => 0.0);
    ghost var rows := ValueRows(t, l, maxR);
    var i := 0;
    while i < |t|
      invariant i <= |t| && Filled(a, rows, i, 0.0)
    {
      WriteRow(a, rows, i, 0, t[i][rw - l.r[i]..], [], 0.0);
      i := i + 1;
    }
  }

  function RowOf(a: array2<int>, i: nat): seq<int>
    requires i < a.Length0
    reads a
  {
    seq(a.Length1, j requires 0 <= j < a.Length1 reads a => a[i, j])
  }

  function PositionRows(attention: seq<seq<int>>): seq<seq<int>> {
    seq(|attention|, i requires 0 <= i < |attention| => Positions(attention[i]))
  }

  method PositionIds(attention: array2<int>, ghost rows: seq<seq<int>>) returns (pos: array2<int>)
    requires Holds(attention, rows)
    ensures fresh(pos) && Holds(pos, PositionRows(rows))
  {
    pos := new int[attention.Length0, attention.Length1](
      (i, j) requires 0 <= i < attention.Length0 && 0 <= j < attention.Length1 reads attention =>
        Positions(RowOf(attention, i))[j]);
    forall i | 0 <= i < attention.Length0 ensures RowOf(attention, i) == rows[i] {
    }
  }

  function PaddedRows<T>(rows: seq<seq<T>>, len: nat, zero: T): seq<seq<T>> {
    seq(|rows|, i requires 0 <= i < |rows| => LeftPadded(rows[i], len, zero))
  }

  /** A tensor narrower than the sequence gets zeros on its left; any other is returned as it is. */
  method LeftPadToSeq<T(0)>(t: array2<T>, ghost rows: seq<seq<T>>, len: nat, zero: T) returns (out: array2<T>)
    requires Holds(t, rows)
    ensures Holds(out, PaddedRows(rows, len, zero))
    ensures len <= t.Length1 ==> out == t
    ensures len > t.Length1 ==> fresh(out) && out.Length0 == t.Length0 && out.Length1 == len
    ensures len > t.Length1 ==> forall i, j | 0 <= i < t.Length0 && 0 <= j < len ::
      out[i, j] == if j < len - t.Length1 then zero else t[i, j - (len - t.Length1)]
  {
    if len <= t.Length1 {
      return t;
    }
    var left := len - t.Length1;
    out := new T[t.Length0, len](
      (i, j) requires 0 <= i < t.Length0 && 0 <= j < len reads t => if j < left then zero else t[i, j - left]);
    forall i, j | 0 <= i < t.Length0 && 0 <= j < len ensures out[i, j] == PaddedRows(rows, len, zero)[i][j] {
      PaddedAt(rows, len, zero, i, j);
    }
  }

  lemma PaddedAt<T>(rows: seq<seq<T>>, len: nat, zero: T, i: nat, j: nat)
    requires i < |rows| && |rows[i]| <= len && j < len
    ensures |PaddedRows(rows, len, zero)[i]| == len
    ensures PaddedRows(rows, len, zero)[i][j] == if j < len - |rows[i]| then zero else rows[i][j - (len - |rows[i]|)]
  {
  }

  // ---------------------------------------------------------------- the update payload

  method RepackPadded(t: seq<seq<real>>, l: Lens, width: nat, rw: nat, maxP: nat, maxR: nat)
    returns (padded: array2<real>)
    requires Rect(t, |t|, rw) && Fit(l, |t|, width, rw, maxP, maxR)
    ensures Holds(padded, PaddedRows(ValueRows(t, l, maxR), maxP + maxR, 0.0))
  {
    var values := RepackValues(t, l, width, rw, maxP, maxR);
    padded := LeftPadToSeq(values, ValueRows(t, l, maxR), maxP + maxR, 0.0);
  }

  method RepackAll(ts: seq<seq<seq<real>>>, n: nat, l: Lens, width: nat, rw: nat, maxP: nat, maxR: nat)
    returns (values: seq<array2<real>>)
    requires forall k | 0 <= k < |ts| :: Rect(ts[k], n, rw)
    requires Fit(l, n, width, rw, maxP, maxR)
    ensures |values| == |ts|
    ensures forall k | 0 <= k < |values| :: Holds(values[k], PaddedRows(ValueRows(ts[k], l, maxR), maxP + maxR, 0.0))
  {
    values := [];
    var k := 0;
    while k < |ts|
      invariant k == |values| <= |ts|
      invariant forall x | 0 <= x < k :: Holds(values[x], PaddedRows(ValueRows(ts[x], l, maxR), maxP + maxR, 0.0))
    {
      var padded := RepackPadded(ts[k], l, width, rw, maxP, maxR);
      values := values + [padded];
      k := k + 1;
    }
  }

  datatype Payload = Payload(ids: array2<int>, attention: array2<int>, pos: array2<int>, prompts: array2<int>,
                             responses: array2<int>, responseMask: array2<int>, lossMask: array2<int>,
                             values: seq<array2<real>>, oldLogProbs: array2<real>)

  function ColumnRows(rows: seq<seq<int>>, lo: nat, hi: nat): seq<seq<int>> {
    seq(|rows|, i requires 0 <= i < |rows| => if lo <= hi <= |rows[i]| then rows[i][lo..hi] else [])
  }

  /** a[:, lo:hi] */
  method Columns(a: array2<int>, ghost rows: seq<seq<int>>, lo: nat, hi: nat) returns (out: array2<int>)
    requires Holds(a, rows) && lo <= hi <= a.Length1
    ensures fresh(out) && Holds(out, ColumnRows(rows, lo, hi))
  {
    out := new int[a.Length0, hi - lo](
      (i, j) requires 0 <= i < a.Length0 && 0 <= j < hi - lo reads a => a[i, lo + j]);
  }

  /** The prompt columns hold the prompts, padded on the left; the response columns the responses, padded on the
      right. */
  lemma ColumnsOfNewIds(ids: seq<int>, p: nat, r: nat, maxP: nat, maxR: nat, pad: int)
    requires p + r <= |ids| && p <= maxP && r <= maxR
    ensures |NewIds(ids, p, r, maxP, maxR, pad)| == maxP + maxR
    ensures NewIds(ids, p, r, maxP, maxR, pad)[..maxP] == Fill(maxP - p, pad) + ids[|ids| - p - r..|ids| - r]
    ensures NewIds(ids, p, r, maxP, maxR, pad)[maxP..] == ids[|ids| - r..] + Fill(maxR - r, pad)
  {
    var front, back := Fill(maxP - p, pad) + ids[|ids| - p - r..|ids| - r], ids[|ids| - r..] + Fill(maxR - r, pad);
    assert NewIds(ids, p, r, maxP, maxR, pad) == front + back && |front| == maxP;
  }

  /** Where each token of a row stands: its prompt ends, and its response starts, at column maxP, and positions count
      from the prompt's first token. */
  ghost predicate TokensByEntry(b: Batch, l: Lens, out: Payload, maxP: nat, maxR: nat, pad: int)
    requires Shaped(b) && Fit(l, |b.sequences|, b.width, b.responseWidth, maxP, maxR)
    reads out.ids, out.attention, out.pos
  {
    && out.ids.Length0 == out.attention.Length0 == out.pos.Length0 == |b.sequences|
    && out.ids.Length1 == out.attention.Length1 == out.pos.Length1 == maxP + maxR
    && forall i, j | 0 <= i < |b.sequences| && 0 <= j < maxP + maxR ::
         var start, end := maxP - l.p[i], maxP + l.r[i];
         if start <= j < end
         then out.ids[i, j] == b.sequences[i][b.width - end + j]
              && out.attention[i, j] == 1 && out.pos[i, j] == j - start
         else out.ids[i, j] == pad && out.attention[i, j] == 0 && out.pos[i, j] == 0
  }

  /** The payload, tensor by tensor. */
  method BuildPayload(b: Batch, zorro: bool, patcher: nat, pad: int, oldLogProbs: array2<real>,
                     ghost oldRows: seq<seq<real>>)
    returns (out: Payload, l: Lens, maxP: nat, maxR: nat)
    requires LaidOut(b) && Holds(oldLogProbs, oldRows)
    ensures AreLens(b, l) && Fit(l, |b.sequences|, b.width, b.responseWidth, maxP, maxR)
    ensures maxP in l.p && (maxR in l.r || (zorro && maxR == patcher)) && (zorro ==> patcher <= maxR)
    ensures TokensHeld(out, IdRows(b.sequences, l, maxP, maxR, pad), AttentionRows(l, maxP, maxR), maxP, maxP + maxR)
    ensures out.lossMask == out.responseMask && Holds(out.lossMask, PaddedRows(MaskRows(l, maxR), maxP + maxR, 0))
    ensures |out.values| == |b.others|
    ensures forall k | 0 <= k < |out.values| ::
      Holds(out.values[k], PaddedRows(ValueRows(b.others[k], l, maxR), maxP + maxR, 0.0))
    ensures oldLogProbs.Length1 >= maxP + maxR ==> out.oldLogProbs == oldLogProbs
    ensures oldLogProbs.Length1 < maxP + maxR ==>
      var pad := maxP + maxR - oldLogProbs.Length1;
      && out.oldLogProbs.Length0 == oldLogProbs.Length0 && out.oldLogProbs.Length1 == maxP + maxR
      && forall i, j | 0 <= i < oldLogProbs.Length0 && 0 <= j < maxP + maxR ::
           out.oldLogProbs[i, j] == if j < pad then 0.0 else oldLogProbs[i, j - pad]
  {
    l := Lengths(b);
    maxP, maxR := Widths(b, l, zorro, patcher);
    var ids, attention, pos, prompts, responses :=
      RepackTokens(b.sequences, l, b.width, b.responseWidth, maxP, maxR, pad);
    var lossMask := RepackLossMask(l, maxP, maxR);
    var values := RepackAll(b.others, |b.sequences|, l, b.width, b.responseWidth, maxP, maxR);
    var old' := LeftPadToSeq(oldLogProbs, oldRows, maxP + maxR, 0.0);
    out := Payload(ids, attention, pos, prompts, responses, lossMask, lossMask, values, old');
  }

  /** The update payload: the repacked tokens, attention and positions, the prompt and response columns, and, padded
      to full width, the response mask (which is the loss mask too), the response tensors and the old
      log-probabilities `old`, which the server may give padded already. */
  method UpdateBatch(b: Batch, zorro: bool, patcher: nat, pad: int, oldLogProbs: array2<real>,
                     ghost oldRows: seq<seq<real>>)
    returns (out: Payload, l: Lens, maxP: nat, maxR: nat)
    requires LaidOut(b) && Holds(oldLogProbs, oldRows)
    ensures AreLens(b, l) && Fit(l, |b.sequences|, b.width, b.responseWidth, maxP, maxR)
    ensures maxP in l.p && (maxR in l.r || (zorro && maxR == patcher)) && (zorro ==> patcher <= maxR)
    ensures TokensByEntry(b, l, out, maxP, maxR, pad) && ColumnsByEntry(out, |b.sequences|, maxP, maxR)
    ensures out.lossMask == out.responseMask && MaskByEntry(out.lossMask, l, maxP, maxR)
    ensures |out.values| == |b.others| && forall k | 0 <= k < |b.others| ::
      ValuesByEntry(out.values[k], b.others[k], l, b.responseWidth, maxP, maxR)
    ensures oldLogProbs.Length1 >= maxP + maxR ==> out.oldLogProbs == oldLogProbs
    ensures oldLogProbs.Length1 < maxP + maxR ==>
      var pad := maxP + maxR - oldLogProbs.Length1;
      && out.oldLogProbs.Length0 == oldLogProbs.Length0 && out.oldLogProbs.Length1 == maxP + maxR
      && forall i, j | 0 <= i < oldLogProbs.Length0 && 0 <= j < maxP + maxR ::
           out.oldLogProbs[i, j] == if j < pad then 0.0 else oldLogProbs[i, j - pad]
  {
    out, l, maxP, maxR := BuildPayload(b, zorro, patcher, pad, oldLogProbs, oldRows);
    PayloadEntries(b, l, out, maxP, maxR, pad);
  }

  /** The prompt and the response columns, side by side. */
  ghost predicate ColumnsByEntry(out: Payload, n: nat, maxP: nat, maxR: nat)
    reads out.ids, out.prompts, out.responses
  {
    && out.ids.Length0 == out.prompts.Length0 == out.responses.Length0 == n
    && out.ids.Length1 == maxP + maxR && out.prompts.Length1 == maxP && out.responses.Length1 == maxR
    && (forall i, j | 0 <= i < n && 0 <= j < maxP :: out.prompts[i, j] == out.ids[i, j])
    && forall i, j | 0 <= i < n && 0 <= j < maxR :: out.responses[i, j] == out.ids[i, maxP + j]
  }

  /** The response tokens' columns are marked. */
  ghost predicate MaskByEntry(mask: array2<int>, l: Lens, maxP: nat, maxR: nat)
    reads mask
  {
    && mask.Length0 == |l.r| && mask.Length1 == maxP + maxR
    && forall i, j | 0 <= i < |l.r| && 0 <= j < maxP + maxR ::
         mask[i, j] == if maxP <= j < maxP + l.r[i] then 1 else 0
  }

  /** A response tensor's values stand in the columns of their tokens. */
  ghost predicate ValuesByEntry(a: array2<real>, t: seq<seq<real>>, l: Lens, rw: nat, maxP: nat, maxR: nat)
    requires Rect(t, |t|, rw) && |t| == |l.r| && forall i | 0 <= i < |t| :: l.r[i] <= rw
    reads a
  {
    && a.Length0 == |t| && a.Length1 == maxP + maxR
    && forall i, j | 0 <= i < |t| && 0 <= j < maxP + maxR ::
         a[i, j] == if maxP <= j < maxP + l.r[i] then t[i][rw - l.r[i] + (j - maxP)] else 0.0
  }

  lemma EntryOf(ids: seq<int>, p: nat, r: nat, maxP: nat, maxR: nat, pad: int, j: nat)
    requires p + r <= |ids| && p <= maxP && r <= maxR && j < maxP + maxR
    ensures |NewIds(ids, p, r, maxP, maxR, pad)| == |NewAttention(p, r, maxP, maxR)| == maxP + maxR
    ensures |Positions(NewAttention(p, r, maxP, maxR))| == maxP + maxR
    ensures var start, end, id := maxP - p, maxP + r, NewIds(ids, p, r, maxP, maxR, pad)[j];
      var attended, pos := NewAttention(p, r, maxP, maxR)[j], Positions(NewAttention(p, r, maxP, maxR))[j];
      if start <= j < end then id == ids[|ids| - end + j] && attended == 1 && pos == j - start
      else id == pad && attended == 0 && pos == 0
  {
    IdsShape(ids, p, r, maxP, maxR, pad);
    PositionsCount(p, r, maxP, maxR, j);
  }

  lemma TokenRows(ids: seq<seq<int>>, l: Lens, width: nat, rw: nat, maxP: nat, maxR: nat, pad: int, i: nat)
    requires Rect(ids, |ids|, width) && Fit(l, |ids|, width, rw, maxP, maxR) && i < |ids|
    ensures IdRows(ids, l, maxP, maxR, pad)[i] == NewIds(ids[i], l.p[i], l.r[i], maxP, maxR, pad)
    ensures AttentionRows(l, maxP, maxR)[i] == NewAttention(l.p[i], l.r[i], maxP, maxR)
    ensures PositionRows(AttentionRows(l, maxP, maxR))[i] == Positions(NewAttention(l.p[i], l.r[i], maxP, maxR))
    ensures |IdRows(ids, l, maxP, maxR, pad)[i]| == maxP + maxR
  {
  }

  lemma TokenEntries(b: Batch, l: Lens, out: Payload, maxP: nat, maxR: nat, pad: int)
    requires Shaped(b) && Fit(l, |b.sequences|, b.width, b.responseWidth, maxP, maxR)
    requires TokensHeld(out, IdRows(b.sequences, l, maxP, maxR, pad), AttentionRows(l, maxP, maxR), maxP, maxP + maxR)
    ensures TokensByEntry(b, l, out, maxP, maxR, pad)
  {
    TokenRows(b.sequences, l, b.width, b.responseWidth, maxP, maxR, pad, 0);
    EntryWidths(b.sequences[0], l.p[0], l.r[0], maxP, maxR, pad);
    forall i, j | 0 <= i < |b.sequences| && 0 <= j < maxP + maxR
      ensures var start, end := maxP - l.p[i], maxP + l.r[i];
        if start <= j < end
        then out.ids[i, j] == b.sequences[i][b.width - end + j]
             && out.attention[i, j] == 1 && out.pos[i, j] == j - start
        else out.ids[i, j] == pad && out.attention[i, j] == 0 && out.pos[i, j] == 0
    {
      TokenRows(b.sequences, l, b.width, b.responseWidth, maxP, maxR, pad, i);
      EntryOf(b.sequences[i], l.p[i], l.r[i], maxP, maxR, pad, j);
    }
  }

  lemma EntryWidths(ids: seq<int>, p: nat, r: nat, maxP: nat, maxR: nat, pad: int)
    requires p + r <= |ids| && p <= maxP && r <= maxR
    ensures |NewIds(ids, p, r, maxP, maxR, pad)| == |NewAttention(p, r, maxP, maxR)| == maxP + maxR
    ensures |Positions(NewAttention(p, r, maxP, maxR))| == maxP + maxR
  {
  }

  lemma ColumnEntries(b: Batch, l: Lens, out: Payload, maxP: nat, maxR: nat, pad: int)
    requires Shaped(b) && Fit(l, |b.sequences|, b.width, b.responseWidth, maxP, maxR)
    requires TokensHeld(out, IdRows(b.sequences, l, maxP, maxR, pad), AttentionRows(l, maxP, maxR), maxP, maxP + maxR)
    ensures ColumnsByEntry(out, |b.sequences|, maxP, maxR)
  {
    var ids := IdRows(b.sequences, l, maxP, maxR, pad);
    TokenRows(b.sequences, l, b.width, b.responseWidth, maxP, maxR, pad, 0);
    assert |ColumnRows(ids, 0, maxP)[0]| == maxP && |ColumnRows(ids, maxP, maxP + maxR)[0]| == maxR;
    forall i | 0 <= i < |b.sequences| ensures |ids[i]| == maxP + maxR {
      TokenRows(b.sequences, l, b.width, b.responseWidth, maxP, maxR, pad, i);
    }
  }

  lemma MaskHeld(mask: array2<int>, l: Lens, maxP: nat, maxR: nat)
    requires |l.r| > 0 && (forall i | 0 <= i < |l.r| :: l.r[i] <= maxR)
    requires Holds(mask, PaddedRows(MaskRows(l, maxR), maxP + maxR, 0))
    ensures MaskByEntry(mask, l, maxP, maxR)
  {
    assert |PaddedRows(MaskRows(l, maxR), maxP + maxR, 0)[0]| == maxP + maxR;
    forall i, j | 0 <= i < |l.r| && 0 <= j < maxP + maxR
      ensures mask[i, j] == if maxP <= j < maxP + l.r[i] then 1 else 0
    {
      PaddedAt(MaskRows(l, maxR), maxP + maxR, 0, i, j);
    }
  }

  lemma ValuesHeld(a: array2<real>, t: seq<seq<real>>, l: Lens, rw: nat, maxP: nat, maxR: nat)
    requires |t| > 0 && Rect(t, |t|, rw) && |t| == |l.r| && forall i | 0 <= i < |t| :: l.r[i] <= rw && l.r[i] <= maxR
    requires Holds(a, PaddedRows(ValueRows(t, l, maxR), maxP + maxR, 0.0))
    ensures ValuesByEntry(a, t, l, rw, maxP, maxR)
  {
    assert |PaddedRows(ValueRows(t, l, maxR), maxP + maxR, 0.0)[0]| == maxP + maxR;
    forall i, j | 0 <= i < |t| && 0 <= j < maxP + maxR
      ensures a[i, j] == if maxP <= j < maxP + l.r[i] then t[i][rw - l.r[i] + (j - maxP)] else 0.0
    {
      PaddedAt(ValueRows(t, l, maxR), maxP + maxR, 0.0, i, j);
    }
  }

  lemma PayloadEntries(b: Batch, l: Lens, out: Payload, maxP: nat, maxR: nat, pad: int)
    requires Shaped(b) && Fit(l, |b.sequences|, b.width, b.responseWidth, maxP, maxR) && |out.values| == |b.others|
    requires TokensHeld(out, IdRows(b.sequences, l, maxP, maxR, pad), AttentionRows(l, maxP, maxR), maxP, maxP + maxR)
    requires Holds(out.lossMask, PaddedRows(MaskRows(l, maxR), maxP + maxR, 0))
    requires forall k | 0 <= k < |out.values| ::
      Holds(out.values[k], PaddedRows(ValueRows(b.others[k], l, maxR), maxP + maxR, 0.0))
    ensures TokensByEntry(b, l, out, maxP, maxR, pad) && ColumnsByEntry(out, |b.sequences|, maxP, maxR)
    ensures MaskByEntry(out.lossMask, l, maxP, maxR)
    ensures forall k | 0 <= k < |b.others| ::
      ValuesByEntry(out.values[k], b.others[k], l, b.responseWidth, maxP, maxR)
  {
    TokenEntries(b, l, out, maxP, maxR, pad);
    ColumnEntries(b, l, out, maxP, maxR, pad);
    MaskHeld(out.lossMask, l, maxP, maxR);
    forall k | 0 <= k < |b.others|
      ensures ValuesByEntry(out.values[k], b.others[k], l, b.responseWidth, maxP, maxR)
    {
      ValuesHeld(out.values[k], b.others[k], l, b.responseWidth, maxP, maxR);
    }
  }

  ghost predicate TokensHeld(out: Payload, ids: seq<seq<int>>, attention: seq<seq<int>>, maxP: nat, width: nat)
    reads out.ids, out.attention, out.pos, out.prompts, out.responses
  {
    && Holds(out.ids, ids) && Holds(out.attention, attention) && Holds(out.pos, PositionRows(attention))
    && Holds(out.prompts, ColumnRows(ids, 0, maxP)) && Holds(out.responses, ColumnRows(ids, maxP, width))
  }

  method RepackTokens(rows: seq<seq<int>>, l: Lens, width: nat, rw: nat, maxP: nat, maxR: nat, pad: int)
    returns (ids: array2<int>, attention: array2<int>, pos: array2<int>, prompts: array2<int>, responses: array2<int>)
    requires Rect(rows, |rows|, width) && Fit(l, |rows|, width, rw, maxP, maxR)
    ensures Holds(ids, IdRows(rows, l, maxP, maxR, pad)) && Holds(attention, AttentionRows(l, maxP, maxR))
    ensures Holds(pos, PositionRows(AttentionRows(l, maxP, maxR)))
    ensures Holds(prompts, ColumnRows(IdRows(rows, l, maxP, maxR, pad), 0, maxP))
    ensures Holds(responses, ColumnRows(IdRows(rows, l, maxP, maxR, pad), maxP, maxP + maxR))
  {
    ids := RepackIds(rows, l, width, rw, maxP, maxR, pad);
    attention := RepackAttention(l, width, rw, maxP, maxR);
    pos := PositionIds(attention, AttentionRows(l, maxP, maxR));
    prompts := Columns(ids, IdRows(rows, l, maxP, maxR, pad), 0, maxP);
    responses := Columns(ids, IdRows(rows, l, maxP, maxR, pad), maxP, maxP + maxR);
  }

  method RepackLossMask(l: Lens, maxP: nat, maxR: nat) returns (lossMask: array2<int>)
    requires forall i | 0 <= i < |l.r| :: l.r[i] <= maxR
    ensures Holds(lossMask, PaddedRows(MaskRows(l, maxR), maxP + maxR, 0))
  {
    var mask := RepackMask(l, maxR);
    lossMask := LeftPadToSeq(mask, MaskRows(l, maxR), maxP + maxR, 0);
  }

  /** The positions of the response tokens continue the prompt's. */
  lemma ResponsePositions(p: nat, r: nat, maxP: nat, maxR: nat)
    requires p <= maxP && r <= maxR
    ensures var mask, pos := LeftPadded(NewMask(r, maxR), maxP + maxR, 0), Positions(NewAttention(p, r, maxP, maxR));
      |mask| == |pos| == maxP + maxR && Masked(pos, mask) == seq(r, k => p + k)
  {
    var pos := Positions(NewAttention(p, r, maxP, maxR));
    assert LeftPadded(NewMask(r, maxR), maxP + maxR, 0) == Fill(maxP, 0) + Fill(r, 1) + Fill(maxP + maxR - maxP - r, 0);
    MaskedWindow(pos, maxP, r);
    ResponseWindow(p, r, maxP, maxR);
  }

  lemma ResponseWindow(p: nat, r: nat, maxP: nat, maxR: nat)
    requires p <= maxP && r <= maxR
    ensures Positions(NewAttention(p, r, maxP, maxR))[maxP..maxP + r] == seq(r, k => p + k)
  {
    var inside := Positions(NewAttention(p, r, maxP, maxR))[maxP..maxP + r];
    forall k: nat | k < r ensures inside[k] == p + k {
      PositionsCount(p, r, maxP, maxR, maxP + k);
    }
  }
}

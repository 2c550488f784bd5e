/** Running a batch: aligning and padding each model's part, refusing what cannot be aligned, and giving every
    request its own values back. */
module BatchPass {
  import opened Collections
  import opened MaskedRows
  import opened Padding
  import opened SplitBatch

  /** The RL fields of an example. */
  datatype Column = Logprobs | Advantages | Values | Returns

  datatype Failure =
    | UnknownModel(model: string)
    | EmptyPart
    | WrongLoss(loss: Loss)
    | Ragged(column: Column)
    | ValuesWithoutReturns
    | Misaligned

  function Field(e: Example, c: Column): seq<real> {
    match c
    case Logprobs => e.logprobs
    case Advantages => e.advantages
    case Values => e.values
    case Returns => e.returnValues
  }

  predicate Present(rows: seq<Example>, c: Column) {
    exists e | e in rows :: Field(e, c) != []
  }

  /** Values and returns go to critics only. */
  predicate Carried(role: Role, c: Column) {
    role.Critic? || c.Logprobs? || c.Advantages?
  }

  /** The RL tensors of a batch of these rows. */
  function ColumnsOf(role: Role, rows: seq<Example>): set<Column> {
    set c: Column | Carried(role, c) && Present(rows, c)
  }

  // ---------------------------------------------------------------- what is refused

  /** The field is as much longer (or shorter) than the response in every row. */
  predicate Even(rows: seq<Example>, c: Column) {
    forall e, f | e in rows && f in rows :: |Field(e, c)| - |e.weights| == |Field(f, c)| - |f.weights|
  }

  predicate FullLength(rows: seq<Example>, c: Column) {
    forall e | e in rows :: |Field(e, c)| == |e.weights|
  }

  /** A field that some row carries can be made into a tensor. */
  predicate Tensor(rows: seq<Example>, c: Column) {
    Present(rows, c) ==> Even(rows, c)
  }

  /** A critic gets values and returns for every response token, or neither. */
  predicate CriticTensors(rows: seq<Example>) {
    && (Present(rows, Values) <==> Present(rows, Returns))
    && (Present(rows, Values) ==> FullLength(rows, Values) && FullLength(rows, Returns))
  }

  predicate Buildable(role: Role, rows: seq<Example>) {
    Tensor(rows, Logprobs) && Tensor(rows, Advantages) && (role.Critic? ==> CriticTensors(rows))
  }

  predicate LossFits(role: Role, loss: Loss) {
    if role.Critic? then loss.Ppo? || loss.PpoCritic? else !loss.PpoCritic?
  }

  /** Rows of one model that a call can run, in terms of the rows and the model's role alone. */
  predicate Accepts(training: bool, role: Role, rows: seq<Example>) {
    && rows != [] && Buildable(role, rows)
    && (training ==> LossFits(role, rows[0].loss))
    && (training && role.Critic? ==> FullLength(rows, Values) && FullLength(rows, Returns))
  }

  lemma FieldsByName(rows: seq<Example>)
    ensures Present(rows, Logprobs) <==> exists e | e in rows :: e.logprobs != []
    ensures Present(rows, Advantages) <==> exists e | e in rows :: e.advantages != []
    ensures Present(rows, Values) <==> exists e | e in rows :: e.values != []
    ensures Present(rows, Returns) <==> exists e | e in rows :: e.returnValues != []
  {
    assert forall e :: Field(e, Logprobs) == e.logprobs && Field(e, Advantages) == e.advantages;
    assert forall e :: Field(e, Values) == e.values && Field(e, Returns) == e.returnValues;
  }

  /** The lengths of the fields that must make tensors, by name. */
  lemma LengthsByName(rows: seq<Example>)
    ensures Even(rows, Logprobs) <==> forall e, f | e in rows && f in rows ::
              |e.logprobs| - |e.weights| == |f.logprobs| - |f.weights|
    ensures Even(rows, Advantages) <==> forall e, f | e in rows && f in rows ::
              |e.advantages| - |e.weights| == |f.advantages| - |f.weights|
    ensures FullLength(rows, Values) <==> forall e | e in rows :: |e.values| == |e.weights|
    ensures FullLength(rows, Returns) <==> forall e | e in rows :: |e.returnValues| == |e.weights|
  {
    assert forall e :: Field(e, Logprobs) == e.logprobs && Field(e, Advantages) == e.advantages;
    assert forall e :: Field(e, Values) == e.values && Field(e, Returns) == e.returnValues;
  }

  /** The same spelled out: log-probabilities and advantages are ragged against the response by the same length in every
      row, or absent; a critic gets values and returns for every token, or neither; and a training call needs a loss of
      its model's kind and, for a critic, both. */
  lemma AcceptsWhen(training: bool, role: Role, rows: seq<Example>)
    ensures var full := forall e | e in rows :: |e.values| == |e.weights| && |e.returnValues| == |e.weights|;
      Accepts(training, role, rows) <==>
      && rows != []
      && ((forall e | e in rows :: e.logprobs == []) || forall e, f | e in rows && f in rows ::
            |e.logprobs| - |e.weights| == |f.logprobs| - |f.weights|)
      && ((forall e | e in rows :: e.advantages == []) || forall e, f | e in rows && f in rows ::
            |e.advantages| - |e.weights| == |f.advantages| - |f.weights|)
      && (role == Critic ==>
            (forall e | e in rows :: e.values == [] && e.returnValues == []) ||
            (full && exists e | e in rows :: e.weights != []))
      && (training && role == Critic ==> full && (rows[0].loss == Ppo || rows[0].loss == PpoCritic))
      && (training && role == Policy ==> rows[0].loss != PpoCritic)
  {
    TensorsByName(rows);
    CriticByName(rows);
    FullByName(rows);
  }

  lemma TensorsByName(rows: seq<Example>)
    ensures Tensor(rows, Logprobs) <==>
      ((forall e | e in rows :: e.logprobs == [])
       || forall e, f | e in rows && f in rows :: |e.logprobs| - |e.weights| == |f.logprobs| - |f.weights|)
    ensures Tensor(rows, Advantages) <==>
      ((forall e | e in rows :: e.advantages == [])
       || forall e, f | e in rows && f in rows :: |e.advantages| - |e.weights| == |f.advantages| - |f.weights|)
  {
    FieldsByName(rows);
    LengthsByName(rows);
  }

  lemma FullByName(rows: seq<Example>)
    ensures FullLength(rows, Values) && FullLength(rows, Returns) <==>
      forall e | e in rows :: |e.values| == |e.weights| && |e.returnValues| == |e.weights|
  {
    LengthsByName(rows);
  }

  lemma CriticByName(rows: seq<Example>)
    ensures CriticTensors(rows) <==>
      (forall e | e in rows :: e.values == [] && e.returnValues == []) ||
      ((forall e | e in rows :: |e.values| == |e.weights| && |e.returnValues| == |e.weights|)
       && exists e | e in rows :: e.weights != [])
  {
    FieldsByName(rows);
    LengthsByName(rows);
  }

  // ---------------------------------------------------------------- alignment

  /** An example's row of the training batch. */
  datatype Aligned = Aligned(sequence: seq<int>, attention: seq<int>, lossMask: seq<real>, responseMask: seq<int>,
                             fields: map<Column, seq<real>>)

  /** What a row-wise worker sees of a row once its masks are applied. */
  datatype Content = Content(tokens: seq<int>, weights: seq<real>, fields: map<Column, seq<real>>)

  function FullSequence(e: Example): seq<int> {
    e.inputs + if e.targets == [] then [] else [e.targets[|e.targets| - 1]]
  }

  function ContentOf(e: Example, columns: set<Column>): Content {
    Content(FullSequence(e), e.weights, map c | c in columns :: Field(e, c))
  }

  /** A field is padded by what its row's response lacks. */
  function AlignedField(e: Example, c: Column, maxResponse: nat): seq<real>
    requires |e.weights| <= maxResponse
  {
    Fill(maxResponse - |e.weights|, 0.0) + Field(e, c)
  }

  function Align(e: Example, columns: set<Column>, maxSeq: nat, maxResponse: nat, padToken: int): Aligned
    requires |FullSequence(e)| <= maxSeq && |e.weights| <= maxResponse
  {
    var full := FullSequence(e);
    Aligned(LeftPadded(full, maxSeq, padToken), LeftPadded(Fill(|full|, 1), maxSeq, 0),
            LeftPadded(e.weights, maxResponse, 0.0), LeftPadded(Fill(|e.weights|, 1), maxResponse, 0),
            map c | c in columns :: AlignedField(e, c, maxResponse))
  }

  function MaskedOr<T>(xs: seq<T>, mask: seq<int>): seq<T> {
    if |xs| == |mask| then Masked(xs, mask) else xs
  }

  /** A field without the entries that stand where the mask has its zeros. */
  function Unpadded(row: seq<real>, mask: seq<int>): seq<real> {
    var pad := |mask| - Sum(mask);
    if 0 <= pad <= |row| then row[pad..] else row
  }

  function Readback(a: Aligned): Content {
    Content(MaskedOr(a.sequence, a.attention), MaskedOr(a.lossMask, a.responseMask),
            map c | c in a.fields :: Unpadded(a.fields[c], a.responseMask))
  }

  lemma PaddedReadsBack<T>(xs: seq<T>, len: nat, zero: T)
    requires |xs| <= len
    ensures |LeftPadded(xs, len, zero)| == |LeftPadded(Fill(|xs|, 1), len, 0)| == len
    ensures Masked(LeftPadded(xs, len, zero), LeftPadded(Fill(|xs|, 1), len, 0)) == xs
  {
    var row := LeftPadded(xs, len, zero);
    MaskedWindow(row, len - |xs|, |xs|);
    assert row[len - |xs|..len - |xs| + |xs|] == xs;
    assert LeftPadded(Fill(|xs|, 1), len, 0) ==
      Fill(len - |xs|, 0) + Fill(|xs|, 1) + Fill(len - (len - |xs|) - |xs|, 0);
  }

  lemma FieldReadsBack(e: Example, c: Column, maxResponse: nat)
    requires |e.weights| <= maxResponse
    ensures Unpadded(AlignedField(e, c, maxResponse), LeftPadded(Fill(|e.weights|, 1), maxResponse, 0)) == Field(e, c)
  {
    var n := |e.weights|;
    SumConcat(Fill(maxResponse - n, 0), Fill(n, 1));
    SumOfFill(maxResponse - n, 0);
    SumOfFill(n, 1);
    assert LeftPadded(Fill(n, 1), maxResponse, 0) == Fill(maxResponse - n, 0) + Fill(n, 1);
  }

  /** The tokens are the inputs and the last target, if there is one. */
  predicate HasTokens(e: Example, t: seq<int>) {
    && e.inputs <= t && |t| == |e.inputs| + (if e.targets == [] then 0 else 1)
    && (e.targets != [] ==> t[|t| - 1] == e.targets[|e.targets| - 1])
  }

  /** Each field that is there is the example's own of that name. */
  predicate HasFields(e: Example, fields: map<Column, seq<real>>, pad: seq<real>) {
    && (Logprobs in fields ==> fields[Logprobs] == pad + e.logprobs)
    && (Advantages in fields ==> fields[Advantages] == pad + e.advantages)
    && (Values in fields ==> fields[Values] == pad + e.values)
    && (Returns in fields ==> fields[Returns] == pad + e.returnValues)
  }

  /** The masks, zeros before ones, let through the tokens and the weights; the fields start level with the weights. */
  predicate AlignedTo(e: Example, a: Aligned, maxSeq: nat, maxResponse: nat, padToken: int) {
    && |a.sequence| == |a.attention| == maxSeq && |a.lossMask| == |a.responseMask| == maxResponse
    && var t, n := Masked(a.sequence, a.attention), |e.weights|;
    && HasTokens(e, t) && |t| <= maxSeq && n <= maxResponse
    && (forall j | 0 <= j < maxSeq :: a.attention[j] == if j < maxSeq - |t| then 0 else 1)
    && (forall j | 0 <= j < maxSeq - |t| :: a.sequence[j] == padToken)
    && Masked(a.lossMask, a.responseMask) == e.weights
    && (forall j | 0 <= j < maxResponse :: a.responseMask[j] == if j < maxResponse - n then 0 else 1)
    && (forall j | 0 <= j < maxResponse - n :: a.lossMask[j] == 0.0)
    && HasFields(e, a.fields, seq(maxResponse - n, _ => 0.0))
  }

  lemma PaddedEntries<T>(xs: seq<T>, len: nat, zero: T)
    requires |xs| <= len
    ensures |LeftPadded(xs, len, zero)| == |LeftPadded(Fill(|xs|, 1), len, 0)| == len
    ensures forall j | 0 <= j < len :: LeftPadded(Fill(|xs|, 1), len, 0)[j] == if j < len - |xs| then 0 else 1
    ensures forall j | 0 <= j < len - |xs| :: LeftPadded(xs, len, zero)[j] == zero
  {
  }

  lemma FieldsAlign(e: Example, columns: set<Column>, maxResponse: nat)
    requires |e.weights| <= maxResponse
    ensures HasFields(e, map c | c in columns :: AlignedField(e, c, maxResponse),
                      seq(maxResponse - |e.weights|, _ => 0.0))
  {
    assert Fill(maxResponse - |e.weights|, 0.0) == seq(maxResponse - |e.weights|, _ => 0.0);
  }

  lemma AlignAligns(e: Example, columns: set<Column>, maxSeq: nat, maxResponse: nat, padToken: int)
    requires |FullSequence(e)| <= maxSeq && |e.weights| <= maxResponse
    ensures AlignedTo(e, Align(e, columns, maxSeq, maxResponse, padToken), maxSeq, maxResponse, padToken)
  {
    PaddedReadsBack(FullSequence(e), maxSeq, padToken);
    PaddedEntries(FullSequence(e), maxSeq, padToken);
    PaddedReadsBack(e.weights, maxResponse, 0.0);
    PaddedEntries(e.weights, maxResponse, 0.0);
    FieldsAlign(e, columns, maxResponse);
    assert HasTokens(e, FullSequence(e));
  }

  /** Alignment loses nothing: the masks recover the example, whatever the lengths of its fields. */
  lemma AlignReadsBack(e: Example, columns: set<Column>, maxSeq: nat, maxResponse: nat, padToken: int)
    requires |FullSequence(e)| <= maxSeq && |e.weights| <= maxResponse
    ensures Readback(Align(e, columns, maxSeq, maxResponse, padToken)) == ContentOf(e, columns)
    ensures var c := ContentOf(e, columns);
      HasTokens(e, c.tokens) && c.weights == e.weights && c.fields.Keys == columns && HasFields(e, c.fields, [])
  {
    var a := Align(e, columns, maxSeq, maxResponse, padToken);
    PaddedReadsBack(FullSequence(e), maxSeq, padToken);
    PaddedReadsBack(e.weights, maxResponse, 0.0);
    forall c | c in columns ensures Readback(a).fields[c] == Field(e, c) {
      FieldReadsBack(e, c, maxResponse);
    }
    assert Readback(a).fields == ContentOf(e, columns).fields;
  }

  method MaxLengths(rows: seq<Example>) returns (maxSeq: nat, maxResponse: nat)
    requires rows != []
    ensures forall e | e in rows :: |FullSequence(e)| <= maxSeq && |e.weights| <= maxResponse
    ensures exists e :: e in rows && |FullSequence(e)| == maxSeq
    ensures exists e :: e in rows && |e.weights| == maxResponse
  {
    maxSeq, maxResponse := |FullSequence(rows[0])|, |rows[0].weights|;
    var i := 1;
    while i < |rows|
      invariant 1 <= i <= |rows|
      invariant forall k | 0 <= k < i :: |FullSequence(rows[k])| <= maxSeq && |rows[k].weights| <= maxResponse
      invariant exists e :: e in rows && |FullSequence(e)| == maxSeq
      invariant exists e :: e in rows && |e.weights| == maxResponse
    {
      var full := |FullSequence(rows[i])|;
      maxSeq := if full > maxSeq then full else maxSeq;
      maxResponse := if |rows[i].weights| > maxResponse then |rows[i].weights| else maxResponse;
      i := i + 1;
    }
  }

  predicate Fits(rows: seq<Example>, maxSeq: nat, maxResponse: nat) {
    forall i | 0 <= i < |rows| :: |FullSequence(rows[i])| <= maxSeq && |rows[i].weights| <= maxResponse
  }

  /** The padded lists of one field, and whether any row carries it. */
  method PadField(rows: seq<Example>, c: Column, ghost maxSeq: nat, maxResponse: nat)
    returns (table: seq<seq<real>>, has: bool)
    requires Fits(rows, maxSeq, maxResponse)
    ensures |table| == |rows| && forall i | 0 <= i < |rows| :: table[i] == AlignedField(rows[i], c, maxResponse)
    ensures has <==> Present(rows, c)
  {
    table, has := [], false;
    for k := 0 to |rows|
      invariant |table| == k && forall i | 0 <= i < k :: table[i] == AlignedField(rows[i], c, maxResponse)
      invariant has <==> exists i :: 0 <= i < k && Field(rows[i], c) != []
    {
      table := table + [AlignedField(rows[k], c, maxResponse)];
      has := has || Field(rows[k], c) != [];
    }
  }

  /** Lists a tensor can be built from. */
  predicate IsTable(table: seq<seq<real>>) {
    forall i | 0 <= i < |table| :: |table[i]| == |table[0]|
  }

  lemma TableIffEven(rows: seq<Example>, c: Column, maxSeq: nat, maxResponse: nat, table: seq<seq<real>>)
    requires Fits(rows, maxSeq, maxResponse) && |table| == |rows|
    requires forall i | 0 <= i < |rows| :: table[i] == AlignedField(rows[i], c, maxResponse)
    ensures IsTable(table) <==> Even(rows, c)
  {
    forall i | 0 <= i < |rows| ensures |table[i]| == maxResponse + |Field(rows[i], c)| - |rows[i].weights| {
    }
    if IsTable(table) {
      forall e, f | e in rows && f in rows
        ensures |Field(e, c)| - |e.weights| == |Field(f, c)| - |f.weights|
      {
        var i :| 0 <= i < |rows| && rows[i] == e;
        var j :| 0 <= j < |rows| && rows[j] == f;
        assert |table[i]| == |table[j]|;
      }
    }
    if Even(rows, c) {
      forall i | 0 <= i < |table| ensures |table[i]| == |table[0]| {
        assert rows[i] in rows && rows[0] in rows;
      }
    }
  }

  method AlignAll(rows: seq<Example>, columns: set<Column>, maxSeq: nat, maxResponse: nat, padToken: int)
    returns (aligned: seq<Aligned>)
    requires Fits(rows, maxSeq, maxResponse)
    ensures |aligned| == |rows|
    ensures forall i | 0 <= i < |rows| :: aligned[i] == Align(rows[i], columns, maxSeq, maxResponse, padToken)
  {
    aligned := [];
    for i := 0 to |rows|
      invariant |aligned| == i
      invariant forall k | 0 <= k < i :: aligned[k] == Align(rows[k], columns, maxSeq, maxResponse, padToken)
    {
      aligned := aligned + [Align(rows[i], columns, maxSeq, maxResponse, padToken)];
    }
  }

  function Chosen(role: Role, logprobs: bool, advantages: bool, values: bool, returnValues: bool): (s: set<Column>)
    ensures Logprobs in s <==> logprobs
    ensures Advantages in s <==> advantages
    ensures Values in s <==> role.Critic? && values
    ensures Returns in s <==> role.Critic? && returnValues
  {
    (if logprobs then {Logprobs} else {}) + (if advantages then {Advantages} else {})
    + (if role.Critic? && values then {Values} else {}) + (if role.Critic? && returnValues then {Returns} else {})
  }

  lemma ChosenAreColumns(rows: seq<Example>, role: Role)
    ensures ColumnsOf(role, rows) ==
      Chosen(role, Present(rows, Logprobs), Present(rows, Advantages), Present(rows, Values), Present(rows, Returns))
  {
  }

  /** A field that some row carries must make a tensor. */
  method TensorCheck(rows: seq<Example>, c: Column, ghost maxSeq: nat, maxResponse: nat)
    returns (has: bool, failure: Option<Failure>)
    requires Fits(rows, maxSeq, maxResponse)
    ensures (has <==> Present(rows, c)) && failure == if Tensor(rows, c) then None else Some(Ragged(c))
  {
    var table;
    table, has := PadField(rows, c, maxSeq, maxResponse);
    TableIffEven(rows, c, maxSeq, maxResponse, table);
    failure := if has && !IsTable(table) then Some(Ragged(c)) else None;
  }

  /** The critic's own checks on values and returns. */
  method CriticCheck(rows: seq<Example>, hasValues: bool, hasReturns: bool) returns (failure: Option<Failure>)
    requires (hasValues <==> Present(rows, Values)) && (hasReturns <==> Present(rows, Returns))
    ensures failure.None? <==> CriticTensors(rows)
    ensures failure.Some? ==> failure.value == if hasValues == hasReturns then Misaligned else ValuesWithoutReturns
  {
    if hasValues != hasReturns {
      return Some(ValuesWithoutReturns);
    }
    if hasValues && !(FullLength(rows, Values) && FullLength(rows, Returns)) {
      return Some(Misaligned);
    }
    failure := None;
  }

  /** The RL tensors to build, unless one cannot be. */
  method ChooseColumns(rows: seq<Example>, role: Role, ghost maxSeq: nat, maxResponse: nat)
    returns (r: Result<set<Column>, Failure>)
    requires Fits(rows, maxSeq, maxResponse)
    ensures r.Ok? <==> Buildable(role, rows)
    ensures r.Ok? ==> r.value == ColumnsOf(role, rows)
    ensures r.Err? ==> r.reason.Ragged? || r.reason.Misaligned? || r.reason.ValuesWithoutReturns?
  {
    var hasLogprobs, failure := TensorCheck(rows, Logprobs, maxSeq, maxResponse);
    if failure.Some? {
      return Err(failure.value);
    }
    var hasAdvantages;
    hasAdvantages, failure := TensorCheck(rows, Advantages, maxSeq, maxResponse);
    if failure.Some? {
      return Err(failure.value);
    }
    var _, hasValues := PadField(rows, Values, maxSeq, maxResponse);
    var _, hasReturns := PadField(rows, Returns, maxSeq, maxResponse);
    if role.Critic? {
      failure := CriticCheck(rows, hasValues, hasReturns);
      if failure.Some? {
        return Err(failure.value);
      }
    }
    ChosenAreColumns(rows, role);
    r := Ok(Chosen(role, hasLogprobs, hasAdvantages, hasValues, hasReturns));
  }

  /** The RL tensors are those of which some row carries a part; values and returns only for a critic. */
  predicate HasColumns(role: Role, rows: seq<Example>, columns: set<Column>) {
    && (Logprobs in columns <==> exists e | e in rows :: e.logprobs != [])
    && (Advantages in columns <==> exists e | e in rows :: e.advantages != [])
    && (Values in columns <==> role == Critic && exists e | e in rows :: e.values != [])
    && (Returns in columns <==> role == Critic && exists e | e in rows :: e.returnValues != [])
  }

  lemma ColumnsByName(role: Role, rows: seq<Example>)
    ensures HasColumns(role, rows, ColumnsOf(role, rows))
  {
    FieldsByName(rows);
  }

  lemma AllAlign(rows: seq<Example>, role: Role, aligned: seq<Aligned>, maxSeq: nat, maxResponse: nat, padToken: int)
    requires Fits(rows, maxSeq, maxResponse) && |aligned| == |rows|
    requires forall i | 0 <= i < |rows| ::
      aligned[i] == Align(rows[i], ColumnsOf(role, rows), maxSeq, maxResponse, padToken)
    ensures forall i | 0 <= i < |rows| :: AlignedTo(rows[i], aligned[i], maxSeq, maxResponse, padToken)
    ensures forall i | 0 <= i < |rows| :: HasColumns(role, rows, aligned[i].fields.Keys)
  {
    ColumnsByName(role, rows);
    forall i | 0 <= i < |rows| ensures AlignedTo(rows[i], aligned[i], maxSeq, maxResponse, padToken) {
      AlignAligns(rows[i], ColumnsOf(role, rows), maxSeq, maxResponse, padToken);
    }
  }

  /** Every row aligned to the longest, with the RL tensors that some row asks for; refused exactly if those cannot
      be built. */
  method ToTrainingBatch(rows: seq<Example>, role: Role, padToken: int)
    returns (r: Result<seq<Aligned>, Failure>, maxSeq: nat, maxResponse: nat)
    requires rows != []
    ensures Fits(rows, maxSeq, maxResponse) && (r.Ok? <==> Buildable(role, rows))
    ensures r.Ok? ==> |r.value| == |rows| && forall i | 0 <= i < |rows| ::
      r.value[i] == Align(rows[i], ColumnsOf(role, rows), maxSeq, maxResponse, padToken)
    ensures r.Ok? ==> forall i | 0 <= i < |rows| :: AlignedTo(rows[i], r.value[i], maxSeq, maxResponse, padToken)
    ensures r.Ok? ==> forall i | 0 <= i < |rows| :: HasColumns(role, rows, r.value[i].fields.Keys)
    ensures r.Err? ==> r.reason.Ragged? || r.reason.Misaligned? || r.reason.ValuesWithoutReturns?
    ensures exists e :: e in rows && |e.inputs| + (if e.targets == [] then 0 else 1) == maxSeq
    ensures exists e :: e in rows && |e.weights| == maxResponse
  {
    maxSeq, maxResponse := MaxLengths(rows);
    assert forall k | 0 <= k < |rows| :: rows[k] in rows;
    var columns := ChooseColumns(rows, role, maxSeq, maxResponse);
    if columns.Err? {
      return Err(columns.reason), maxSeq, maxResponse;
    }
    var aligned := AlignAll(rows, columns.value, maxSeq, maxResponse, padToken);
    r := Ok(aligned);
    AllAlign(rows, role, aligned, maxSeq, maxResponse, padToken);
  }

  /** Copies of row 0 whose loss mask is zero bring the batch to a multiple of the alignment. */
  method PadRows(rows: seq<Aligned>, dpSize: nat, microBatch: nat) returns (padded: seq<Aligned>, pad: nat)
    requires rows != [] && dpSize > 0
    ensures pad == PadSize(|rows|, if microBatch > 0 then dpSize * microBatch else dpSize)
    ensures |padded| == |rows| + pad && padded[..|rows|] == rows
    ensures forall i | |rows| <= i < |padded| :: padded[i] == rows[0].(lossMask := Fill(|rows[0].lossMask|, 0.0))
  {
    var alignment := if microBatch > 0 then dpSize * microBatch else dpSize;
    pad := PadSize(|rows|, alignment);
    padded := rows + seq(pad, _ => rows[0].(lossMask := Fill(|rows[0].lossMask|, 0.0)));
  }

  // ---------------------------------------------------------------- one model

  /** A row-wise worker: one value per response token of a row, left-padded with zeros to the response length. */
  type Worker = (string, Content) -> seq<real>

  /** What a training pass reports on a row under a loss. */
  type Reporter = (string, Loss, Option<map<string, real>>, Content) -> seq<real>

  /** A call: a forward pass, or a training pass, whose worker may report something per row or nothing at all. */
  datatype Pass = ForwardPass(worker: Worker) | TrainingPass(report: Reporter, reports: bool)

  /** A row's answer: values or log-probabilities per token, or what training reported, if anything. */
  datatype Output = Tokenwise(of: Role, data: seq<real>) | Reported(data: seq<real>) | Nothing

  ghost predicate PassOk(pass: Pass) {
    pass.ForwardPass? ==> forall m: string, c: Content :: |pass.worker(m, c)| == |c.weights|
  }

  /** What the rows of one model share: its role, the tensors present, the loss of the first row and the first loss
      configuration there is. */
  datatype Setting = Setting(role: Role, columns: set<Column>, loss: Loss, config: Option<map<string, real>>)

  function FirstConfig(rows: seq<Example>): Option<map<string, real>> {
    if rows == [] then None else if rows[0].config.Some? then rows[0].config else FirstConfig(rows[1..])
  }

  function RoleOf(known: map<string, Role>, m: string): Role {
    if m in known then known[m] else Policy
  }

  function SettingOf(role: Role, rows: seq<Example>): Setting {
    Setting(role, ColumnsOf(role, rows), if rows == [] then CrossEntropy else rows[0].loss, FirstConfig(rows))
  }

  /** The setting a model's rows are run in when `rows` are batched together. */
  function SettingFor(known: map<string, Role>, rows: seq<Example>, m: string): Setting {
    SettingOf(RoleOf(known, m), RowsOf(rows, m))
  }

  function Deserved(pass: Pass, s: Setting, e: Example): Output {
    var content := ContentOf(e, s.columns);
    match pass
    case ForwardPass(w) => Tokenwise(s.role, w(e.model, content))
    case TrainingPass(report, reports) =>
      if reports then Reported(report(e.model, s.loss, s.config, content)) else Nothing
  }

  /** What these rows deserve, each in the setting that all the rows batched with it give its model. */
  function Answers(pass: Pass, known: map<string, Role>, batched: seq<Example>, rows: seq<Example>): seq<Output> {
    seq(|rows|, i requires 0 <= i < |rows| => Deserved(pass, SettingFor(known, batched, rows[i].model), rows[i]))
  }

  /** The first configuration that some row has, or none if no row has one. */
  predicate FirstGiven(rows: seq<Example>, config: Option<map<string, real>>) {
    if config == None then forall e | e in rows :: e.config == None
    else exists j | 0 <= j < |rows| ::
      rows[j].config == config && forall i | 0 <= i < j :: rows[i].config == None
  }

  lemma {:induction false} FirstConfigThere(rows: seq<Example>)
    ensures FirstGiven(rows, FirstConfig(rows))
  {
    if rows == [] {
    } else if rows[0].config.Some? {
      assert rows[0] in rows;
    } else {
      FirstConfigThere(rows[1..]);
      assert rows == [rows[0]] + rows[1..];
      if FirstConfig(rows).Some? {
        var j :| 0 <= j < |rows[1..]| && rows[1..][j].config == FirstConfig(rows)
                 && forall i | 0 <= i < j :: rows[1..][i].config == None;
        assert rows[j + 1].config == FirstConfig(rows);
        assert forall i | 1 <= i < j + 1 :: rows[i] == rows[1..][i - 1];
      }
    }
  }

  /** The worker or the reporter is applied to the row's own tokens, weights and fields, under the first loss and the
      first configuration of its model's rows and with the tensors of which some of them carries a part. */
  lemma DeservedByName(pass: Pass, known: map<string, Role>, rows: seq<Example>, e: Example)
    returns (own: seq<Example>, c: Content, config: Option<map<string, real>>)
    requires e in rows && e.model in known
    ensures own == RowsOf(rows, e.model) && e in own
    ensures HasTokens(e, c.tokens) && c.weights == e.weights && HasFields(e, c.fields, [])
    ensures HasColumns(known[e.model], own, c.fields.Keys)
    ensures FirstGiven(own, config)
    ensures Deserved(pass, SettingFor(known, rows, e.model), e) ==
      if pass.ForwardPass? then Tokenwise(known[e.model], pass.worker(e.model, c))
      else if pass.reports then Reported(pass.report(e.model, own[0].loss, config, c))
      else Nothing
  {
    own := RowsOf(rows, e.model);
    var s := SettingFor(known, rows, e.model);
    c, config := ContentOf(e, s.columns), s.config;
    RowsOfMembers(rows, e.model);
    FirstConfigThere(own);
    AlignReadsBack(e, s.columns, |FullSequence(e)|, |e.weights|, 0);
    ColumnsByName(s.role, own);
  }

  /** Every request is answered, with exactly what its own rows deserve, in order. */
  predicate Served(pass: Pass, known: map<string, Role>, b: Batch, results: map<string, seq<Output>>)
    requires InBounds(b)
  {
    && results.Keys == (set k | 0 <= k < |b.slices| :: b.slices[k].request)
    && forall k | 0 <= k < |b.slices| ::
         results[b.slices[k].request] == Answers(pass, known, b.rows, b.rows[b.slices[k].start..b.slices[k].end])
  }

  predicate SingleModel(b: Batch) {
    && InBounds(b) && OneModel(b.rows)
    && forall j, k | 0 <= j < k < |b.slices| :: b.slices[j].request != b.slices[k].request
  }

  /** The rows of one model are known and acceptable. */
  predicate Runs(training: bool, known: map<string, Role>, rows: seq<Example>) {
    rows != [] && rows[0].model in known && Accepts(training, known[rows[0].model], rows)
  }

  /** The worker was given these rows: their contents come first, in order, and what follows has no weight. */
  predicate Given(known: map<string, Role>, rows: seq<Example>, given: seq<Aligned>) {
    && rows != [] && |given| >= |rows|
    && (forall i | 0 <= i < |rows| ::
          Readback(given[i]) == ContentOf(rows[i], SettingFor(known, rows, rows[0].model).columns))
    && (forall i | |rows| <= i < |given| :: forall x | x in given[i].lossMask :: x == 0.0)
  }

  function Tail(xs: seq<real>, n: nat): seq<real> {
    if n <= |xs| then xs[|xs| - n..] else xs
  }

  /** The tail recovers what was padded on the left. */
  lemma TailOfPadded(xs: seq<real>, len: nat)
    requires |xs| <= len
    ensures Tail(LeftPadded(xs, len, 0.0), |xs|) == xs
  {
  }

  lemma OneModelSetting(known: map<string, Role>, rows: seq<Example>, i: nat)
    requires OneModel(rows) && i < |rows|
    ensures SettingFor(known, rows, rows[i].model) == SettingOf(RoleOf(known, rows[0].model), rows)
  {
    RowsOfOne(rows, rows[i].model, rows[0].model);
    assert rows[i] in rows;
  }

  lemma AlignedAreGiven(known: map<string, Role>, rows: seq<Example>, aligned: seq<Aligned>, padded: seq<Aligned>,
                        maxSeq: nat, maxResponse: nat, padToken: int)
    requires rows != [] && OneModel(rows) && Fits(rows, maxSeq, maxResponse) && |aligned| == |rows| && aligned <= padded
    requires forall i | 0 <= i < |rows| ::
      aligned[i] == Align(rows[i], ColumnsOf(RoleOf(known, rows[0].model), rows), maxSeq, maxResponse, padToken)
    requires forall i | |rows| <= i < |padded| :: padded[i].lossMask == Fill(|padded[i].lossMask|, 0.0)
    ensures Given(known, rows, padded)
  {
    var columns := ColumnsOf(RoleOf(known, rows[0].model), rows);
    OneModelSetting(known, rows, 0);
    forall i | 0 <= i < |rows| ensures Readback(padded[i]) == ContentOf(rows[i], columns) {
      AlignReadsBack(rows[i], columns, maxSeq, maxResponse, padToken);
    }
  }

  /** Aligned and padded rows of one model. */
  method Prepare(rows: seq<Example>, known: map<string, Role>, role: Role, padToken: int, dpSize: nat, microBatch: nat)
    returns (r: Result<seq<Aligned>, Failure>, pad: nat, maxResponse: nat)
    requires rows != [] && dpSize > 0 && OneModel(rows) && role == RoleOf(known, rows[0].model)
    ensures r.Ok? <==> Buildable(role, rows)
    ensures r.Ok? ==> |r.value| == |rows| + pad && Given(known, rows, r.value)
    ensures r.Err? ==> r.reason.Ragged? || r.reason.Misaligned? || r.reason.ValuesWithoutReturns?
    ensures forall i | 0 <= i < |rows| :: |rows[i].weights| <= maxResponse
  {
    var maxSeq;
    r, maxSeq, maxResponse := ToTrainingBatch(rows, role, padToken);
    pad := 0;
    if r.Ok? {
      var aligned := r.value;
      var padded;
      padded, pad := PadRows(aligned, dpSize, microBatch);
      AlignedAreGiven(known, rows, aligned, padded, maxSeq, maxResponse, padToken);
      r := Ok(padded);
    }
  }

  method RunWorker(w: Worker, m: string, rows: seq<Aligned>, maxResponse: nat) returns (outs: seq<seq<real>>)
    ensures |outs| == |rows|
    ensures forall i | 0 <= i < |rows| :: outs[i] == LeftPadded(w(m, Readback(rows[i])), maxResponse, 0.0)
  {
    outs := seq(|rows|, i requires 0 <= i < |rows| => LeftPadded(w(m, Readback(rows[i])), maxResponse, 0.0));
  }

  /** The forward pass of one part: align, pad, run, trim the padding rows, and take the tail of each output. */
  method ForwardSingle(w: Worker, b: Batch, known: map<string, Role>, padToken: int, dpSize: nat, microBatch: nat)
    returns (r: Result<map<string, seq<Output>>, Failure>, ghost given: seq<Aligned>)
    requires PassOk(ForwardPass(w)) && dpSize > 0 && SingleModel(b)
    ensures r.Ok? <==> Runs(false, known, b.rows)
    ensures r.Ok? ==> Served(ForwardPass(w), known, b, r.value) && Given(known, b.rows, given)
    ensures r == Err(EmptyPart) <==> b.rows == []
    ensures b.rows != [] ==> (r == Err(UnknownModel(b.rows[0].model)) <==> b.rows[0].model !in known)
  {
    given := [];
    if b.rows == [] {
      return Err(EmptyPart), given;
    }
    var m := b.rows[0].model;
    if m !in known {
      return Err(UnknownModel(m)), given;
    }
    var prepared, pad, maxResponse := Prepare(b.rows, known, known[m], padToken, dpSize, microBatch);
    if prepared.Err? {
      return Err(prepared.reason), given;
    }
    given := prepared.value;
    var outs := RunWorker(w, m, prepared.value, maxResponse);
    outs := if pad > 0 then outs[..|outs| - pad] else outs;
    var tails := seq(|outs|, i requires 0 <= i < |outs| && |outs| == |b.rows| =>
      Tokenwise(known[m], Tail(outs[i], |b.rows[i].weights|)));
    forall i | 0 <= i < |b.rows|
      ensures tails[i] == Deserved(ForwardPass(w), SettingFor(known, b.rows, b.rows[i].model), b.rows[i])
    {
      OneModelSetting(known, b.rows, 0);
      OneModelSetting(known, b.rows, i);
      var values := w(m, ContentOf(b.rows[i], SettingFor(known, b.rows, m).columns));
      assert outs[i] == LeftPadded(values, maxResponse, 0.0);
      assert b.rows[i] in b.rows;
      TailOfPadded(values, maxResponse);
    }
    var results := Collect(ForwardPass(w), known, b, tails);
    r := Ok(results);
  }

  /** The training pass of one part; every request gets what was reported on its own rows, and the padding rows,
      which carry no weight, are trimmed. */
  method ForwardBackwardSingle(report: Reporter, reports: bool, b: Batch, known: map<string, Role>, padToken: int,
                               dpSize: nat, microBatch: nat)
    returns (r: Result<map<string, seq<Output>>, Failure>, ghost given: seq<Aligned>)
    requires dpSize > 0 && SingleModel(b)
    ensures r.Ok? <==> Runs(true, known, b.rows)
    ensures r.Ok? ==> Served(TrainingPass(report, reports), known, b, r.value) && Given(known, b.rows, given)
    ensures r == Err(EmptyPart) <==> b.rows == []
    ensures b.rows != [] ==> (r == Err(UnknownModel(b.rows[0].model)) <==> b.rows[0].model !in known)
    ensures b.rows != [] && b.rows[0].model in known ==>
      var loss, role := b.rows[0].loss, known[b.rows[0].model];
      r == Err(WrongLoss(loss)) <==> if role == Critic then loss != Ppo && loss != PpoCritic else loss == PpoCritic
  {
    given := [];
    if b.rows == [] {
      return Err(EmptyPart), given;
    }
    var m := b.rows[0].model;
    if m !in known {
      return Err(UnknownModel(m)), given;
    }
    if !LossFits(known[m], b.rows[0].loss) {
      return Err(WrongLoss(b.rows[0].loss)), given;
    }
    if known[m].Critic? && !(FullLength(b.rows, Values) && FullLength(b.rows, Returns)) {
      return Err(Misaligned), given;
    }
    var prepared, pad, _ := Prepare(b.rows, known, known[m], padToken, dpSize, microBatch);
    if prepared.Err? {
      return Err(prepared.reason), given;
    }
    given := prepared.value;
    var own := Reports(report, reports, m, b.rows, known, prepared.value, pad);
    var results := Collect(TrainingPass(report, reports), known, b, own);
    r := Ok(results);
  }

  /** The training worker's reports on the rows themselves. */
  method Reports(report: Reporter, reports: bool, m: string, rows: seq<Example>, known: map<string, Role>,
                 padded: seq<Aligned>, pad: nat)
    returns (own: seq<Output>)
    requires OneModel(rows) && Given(known, rows, padded) && |padded| == |rows| + pad && m == rows[0].model
    ensures |own| == |rows| && forall i | 0 <= i < |rows| ::
      own[i] == Deserved(TrainingPass(report, reports), SettingFor(known, rows, rows[i].model), rows[i])
  {
    var loss, config := rows[0].loss, FirstConfig(rows);
    var outs := if reports
      then seq(|padded|, i requires 0 <= i < |padded| => report(m, loss, config, Readback(padded[i]))) else [];
    outs := if pad > 0 && outs != [] then outs[..|outs| - pad] else outs;
    own := seq(|rows|, i requires 0 <= i < |rows| => if outs != [] && i < |outs| then Reported(outs[i]) else Nothing);
    forall i | 0 <= i < |rows|
      ensures own[i] == Deserved(TrainingPass(report, reports), SettingFor(known, rows, rows[i].model), rows[i])
    {
      OneModelSetting(known, rows, 0);
      OneModelSetting(known, rows, i);
      assert rows[i] in rows;
    }
  }

  /** Slices the rows' outputs request by request. */
  method Collect(ghost pass: Pass, ghost known: map<string, Role>, b: Batch, outs: seq<Output>)
    returns (results: map<string, seq<Output>>)
    requires InBounds(b) && |outs| == |b.rows|
    requires forall j, k | 0 <= j < k < |b.slices| :: b.slices[j].request != b.slices[k].request
    requires forall i | 0 <= i < |b.rows| ::
      outs[i] == Deserved(pass, SettingFor(known, b.rows, b.rows[i].model), b.rows[i])
    ensures Served(pass, known, b, results)
  {
    results := map[];
    var k := 0;
    while k < |b.slices|
      invariant k <= |b.slices| && results.Keys == set i | 0 <= i < k :: b.slices[i].request
      invariant forall i | 0 <= i < k ::
        results[b.slices[i].request] == Answers(pass, known, b.rows, b.rows[b.slices[i].start..b.slices[i].end])
    {
      var s := b.slices[k];
      assert outs[s.start..s.end] == Answers(pass, known, b.rows, b.rows[s.start..s.end]);
      results := results[s.request := outs[s.start..s.end]];
      k := k + 1;
    }
  }

  method RunSingle(pass: Pass, b: Batch, known: map<string, Role>, padToken: int, dpSize: nat, microBatch: nat)
    returns (r: Result<map<string, seq<Output>>, Failure>, ghost given: seq<Aligned>)
    requires PassOk(pass) && dpSize > 0 && SingleModel(b)
    ensures r.Ok? <==> Runs(pass.TrainingPass?, known, b.rows)
    ensures r.Ok? ==> Served(pass, known, b, r.value) && Given(known, b.rows, given)
  {
    match pass
    case ForwardPass(w) =>
      r, given := ForwardSingle(w, b, known, padToken, dpSize, microBatch);
    case TrainingPass(report, reports) =>
      r, given := ForwardBackwardSingle(report, reports, b, known, padToken, dpSize, microBatch);
  }
}

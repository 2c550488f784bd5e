/** A call over a batch that mixes models: which batches are answered, and with what. */
module MixedPass {
  import opened Collections
  import opened SplitBatch
  import opened BatchPass

  /** Whether a call answers, from the batch and the known models alone. */
  predicate Servable(training: bool, known: map<string, Role>, b: Batch) {
    if OneModel(b.rows) then b.rows == [] || Runs(training, known, b.rows)
    else forall s | s in b.slices :: s.model in known && Runs(training, known, RowsOf(b.rows, s.model))
  }

  // ---------------------------------------------------------------- one part

  /** The setting of a model is the same in its part as in the whole batch. */
  lemma SettingInPart(known: map<string, Role>, rows: seq<Example>, m: string)
    ensures SettingFor(known, RowsOf(rows, m), m) == SettingFor(known, rows, m)
  {
    RowsOfMembers(rows, m);
    RowsOfOne(RowsOf(rows, m), m, m);
  }

  lemma AnswersInPart(pass: Pass, known: map<string, Role>, batched: seq<Example>, m: string, rows: seq<Example>)
    requires AllOf(rows, m)
    ensures Answers(pass, known, RowsOf(batched, m), rows) == Answers(pass, known, batched, rows)
  {
    SettingInPart(known, batched, m);
    forall i | 0 <= i < |rows| ensures rows[i].model == m {
      assert rows[i] in rows;
    }
  }

  /** Everything a part must satisfy to be run on its own. */
  lemma PartIsSingle(b: Batch, m: string)
    requires WellFormed(b)
    ensures InBounds(Part(b, m)) && SingleModel(Part(b, m)) && Part(b, m).rows == RowsOf(b.rows, m)
  {
    var ss, part := Select(b.slices, m), Part(b, m);
    SelectInside(b.slices, m, |b.rows|);
    SelectDistinct(b.slices, m);
    GatheredWidth(b.rows, ss);
    PartHomogeneous(b, m);
    forall j | 0 <= j < |part.slices|
      ensures part.slices[j].start <= part.slices[j].end <= |part.rows| && part.slices[j].request == ss[j].request
    {
      MovedRows(b.rows, ss, j);
    }
  }

  function RequestsOf(b: Batch, m: string): set<string> {
    set s | s in b.slices && s.model == m :: s.request
  }

  /** Request k has what its rows deserve in this batch. */
  predicate Answered(pass: Pass, known: map<string, Role>, b: Batch, k: nat, results: map<string, seq<Output>>)
    requires InBounds(b) && k < |b.slices|
  {
    && b.slices[k].request in results
    && results[b.slices[k].request] == Answers(pass, known, b.rows, b.rows[b.slices[k].start..b.slices[k].end])
  }

  lemma PartAnswers(pass: Pass, known: map<string, Role>, b: Batch, k: nat, results: map<string, seq<Output>>)
    requires WellFormed(b) && k < |b.slices| && InBounds(Part(b, b.slices[k].model))
    requires Served(pass, known, Part(b, b.slices[k].model), results)
    ensures Answered(pass, known, b, k, results)
  {
    var m := b.slices[k].model;
    RequestKept(b, k);
    PartHomogeneous(b, m);
    AnswersInPart(pass, known, b.rows, m, b.rows[b.slices[k].start..b.slices[k].end]);
  }

  lemma PartRequests(b: Batch, m: string, j: nat)
    requires WellFormed(b) && j < |Part(b, m).slices|
    ensures Part(b, m).slices[j].request in RequestsOf(b, m)
  {
    var ss := Select(b.slices, m);
    SelectInside(b.slices, m, |b.rows|);
    SelectDistinct(b.slices, m);
    GatheredWidth(b.rows, ss);
    MovedRows(b.rows, ss, j);
    assert ss[j] in b.slices;
  }

  /** Serving a part serves its model's requests. */
  lemma PartServes(pass: Pass, known: map<string, Role>, b: Batch, m: string, results: map<string, seq<Output>>)
    requires WellFormed(b) && InBounds(Part(b, m)) && Served(pass, known, Part(b, m), results)
    ensures results.Keys == RequestsOf(b, m)
    ensures forall k | 0 <= k < |b.slices| && b.slices[k].model == m :: Answered(pass, known, b, k, results)
  {
    forall k | 0 <= k < |b.slices| && b.slices[k].model == m
      ensures Answered(pass, known, b, k, results)
    {
      PartAnswers(pass, known, b, k, results);
    }
    forall r | r in results.Keys ensures r in RequestsOf(b, m) {
      var j :| 0 <= j < |Part(b, m).slices| && Part(b, m).slices[j].request == r;
      PartRequests(b, m, j);
    }
  }

  /** The requests of these models are served, and no others. */
  predicate ServedFor(pass: Pass, known: map<string, Role>, b: Batch, ms: seq<string>,
                      results: map<string, seq<Output>>)
    requires InBounds(b)
  {
    && (forall r | r in results ::
          exists k :: 0 <= k < |b.slices| && b.slices[k].model in ms && b.slices[k].request == r)
    && forall k | 0 <= k < |b.slices| && b.slices[k].model in ms :: Answered(pass, known, b, k, results)
  }

  lemma MergePart(pass: Pass, known: map<string, Role>, b: Batch, ms: seq<string>, m: string,
                  results: map<string, seq<Output>>, more: map<string, seq<Output>>)
    requires WellFormed(b) && InBounds(Part(b, m)) && Served(pass, known, Part(b, m), more)
    requires ServedFor(pass, known, b, ms, results)
    ensures ServedFor(pass, known, b, ms + [m], results + more)
  {
    PartServes(pass, known, b, m, more);
    forall k | 0 <= k < |b.slices| && b.slices[k].model in ms + [m]
      ensures Answered(pass, known, b, k, results + more)
    {
      if b.slices[k].request in more {
        RequestModel(b, m, b.slices[k].request, k);
      }
    }
    forall r | r in results + more
      ensures exists k :: 0 <= k < |b.slices| && b.slices[k].model in ms + [m] && b.slices[k].request == r
    {
      if r in more {
        var k := RequestAt(b, m, r);
        assert b.slices[k].model in ms + [m];
      } else {
        var k :| 0 <= k < |b.slices| && b.slices[k].model in ms && b.slices[k].request == r;
        assert b.slices[k].model in ms + [m];
      }
    }
  }

  lemma RequestAt(b: Batch, m: string, request: string) returns (k: nat)
    requires request in RequestsOf(b, m)
    ensures k < |b.slices| && b.slices[k].model == m && b.slices[k].request == request
  {
    var s :| s in b.slices && s.model == m && s.request == request;
    k :| k < |b.slices| && b.slices[k] == s;
  }

  /** A request belongs to one model. */
  lemma RequestModel(b: Batch, m: string, request: string, k: nat)
    requires WellFormed(b) && request in RequestsOf(b, m) && k < |b.slices| && b.slices[k].request == request
    ensures b.slices[k].model == m
  {
    var j := RequestAt(b, m, request);
    assert j == k;
  }

  lemma AllServed(pass: Pass, known: map<string, Role>, b: Batch, ms: seq<string>, results: map<string, seq<Output>>)
    requires InBounds(b) && ServedFor(pass, known, b, ms, results) && forall s | s in b.slices :: s.model in ms
    ensures Served(pass, known, b, results)
  {
    assert forall k | 0 <= k < |b.slices| :: b.slices[k] in b.slices;
  }

  // ---------------------------------------------------------------- all parts

  /** The rows the worker is given, model after model. */
  function Groups(b: Batch, known: map<string, Role>): seq<seq<Example>> {
    if b.rows == [] then []
    else if OneModel(b.rows) then [b.rows]
    else if forall s | s in b.slices :: s.model in known then GroupsOf(b.rows, ModelsOf(b.slices))
    else []
  }

  function GroupsOf(rows: seq<Example>, ms: seq<string>): seq<seq<Example>> {
    seq(|ms|, i requires 0 <= i < |ms| => RowsOf(rows, ms[i]))
  }

  /** The worker was given the groups in order, up to the first that cannot run. */
  predicate Handed(training: bool, known: map<string, Role>, groups: seq<seq<Example>>, given: seq<seq<Aligned>>) {
    && |given| <= |groups|
    && (forall k | 0 <= k < |given| :: Runs(training, known, groups[k]) && Given(known, groups[k], given[k]))
    && (|given| < |groups| ==> !Runs(training, known, groups[|given|]))
  }

  method RunPart(pass: Pass, ghost b: Batch, ghost m: string, part: Batch, known: map<string, Role>, padToken: int,
                 dpSize: nat, microBatch: nat)
    returns (r: Result<map<string, seq<Output>>, Failure>, ghost given: seq<Aligned>)
    requires PassOk(pass) && WellFormed(b) && dpSize > 0 && part == Part(b, m)
    ensures r.Ok? <==> Runs(pass.TrainingPass?, known, RowsOf(b.rows, m))
    ensures r.Ok? ==> InBounds(Part(b, m)) && Served(pass, known, Part(b, m), r.value)
    ensures r.Ok? ==> Given(known, RowsOf(b.rows, m), given)
  {
    PartIsSingle(b, m);
    r, given := RunSingle(pass, part, known, padToken, dpSize, microBatch);
  }

  predicate AllRun(training: bool, known: map<string, Role>, rows: seq<Example>, ms: seq<string>) {
    forall m | m in ms :: Runs(training, known, RowsOf(rows, m))
  }

  /** The worker was given these models' rows. */
  predicate AllGiven(training: bool, known: map<string, Role>, rows: seq<Example>, ms: seq<string>,
                     given: seq<seq<Aligned>>)
  {
    && |given| <= |ms|
    && forall k | 0 <= k < |given| ::
         Runs(training, known, RowsOf(rows, ms[k])) && Given(known, RowsOf(rows, ms[k]), given[k])
  }

  predicate Progress(pass: Pass, known: map<string, Role>, b: Batch, ms: seq<string>, given: seq<seq<Aligned>>,
                     results: map<string, seq<Output>>)
  {
    && AllGiven(pass.TrainingPass?, known, b.rows, ms, given)
    && InBounds(b) && ServedFor(pass, known, b, ms[..|given|], results)
  }

  lemma GivenHanded(training: bool, known: map<string, Role>, rows: seq<Example>, ms: seq<string>,
                    given: seq<seq<Aligned>>)
    requires AllGiven(training, known, rows, ms, given)
    requires |given| < |ms| ==> !Runs(training, known, RowsOf(rows, ms[|given|]))
    ensures Handed(training, known, GroupsOf(rows, ms), given)
    ensures |given| == |ms| <==> AllRun(training, known, rows, ms)
  {
    assert forall k | 0 <= k < |ms| :: ms[k] in ms && GroupsOf(rows, ms)[k] == RowsOf(rows, ms[k]);
  }

  method RunAndMerge(pass: Pass, ghost b: Batch, ghost ms: seq<string>, ghost m: string, part: Batch,
                     results: map<string, seq<Output>>, known: map<string, Role>, padToken: int, dpSize: nat,
                     microBatch: nat)
    returns (r: Result<map<string, seq<Output>>, Failure>, ghost given: seq<Aligned>)
    requires PassOk(pass) && WellFormed(b) && dpSize > 0 && part == Part(b, m)
    requires ServedFor(pass, known, b, ms, results)
    ensures r.Ok? <==> Runs(pass.TrainingPass?, known, RowsOf(b.rows, m))
    ensures r.Ok? ==> ServedFor(pass, known, b, ms + [m], r.value) && Given(known, RowsOf(b.rows, m), given)
  {
    r, given := RunPart(pass, b, m, part, known, padToken, dpSize, microBatch);
    if r.Ok? {
      MergePart(pass, known, b, ms, m, results, r.value);
      r := Ok(results + r.value);
    }
  }

  lemma AllGivenNext(training: bool, known: map<string, Role>, rows: seq<Example>, ms: seq<string>,
                     given: seq<seq<Aligned>>, last: seq<Aligned>)
    requires AllGiven(training, known, rows, ms, given) && |given| < |ms|
    requires Runs(training, known, RowsOf(rows, ms[|given|])) && Given(known, RowsOf(rows, ms[|given|]), last)
    ensures AllGiven(training, known, rows, ms, given + [last])
  {
    var given' := given + [last];
    forall k | 0 <= k < |given'|
      ensures Runs(training, known, RowsOf(rows, ms[k])) && Given(known, RowsOf(rows, ms[k]), given'[k])
    {
      assert k < |given| ==> given'[k] == given[k];
    }
  }

  lemma Prefix(ms: seq<string>, i: nat)
    requires i < |ms|
    ensures ms[..i + 1] == ms[..i] + [ms[i]]
  {
  }

  /** Runs the next part: all goes on as before, or nothing is given to the worker any more. */
  method RunNext(pass: Pass, ghost b: Batch, ghost ms: seq<string>, ghost given: seq<seq<Aligned>>, part: Batch,
                 results: map<string, seq<Output>>, known: map<string, Role>, padToken: int, dpSize: nat,
                 microBatch: nat)
    returns (r: Result<map<string, seq<Output>>, Failure>, ghost given': seq<seq<Aligned>>)
    requires PassOk(pass) && WellFormed(b) && dpSize > 0
    requires |given| < |ms| && part == Part(b, ms[|given|]) && Progress(pass, known, b, ms, given, results)
    ensures r.Ok? <==> Runs(pass.TrainingPass?, known, RowsOf(b.rows, ms[|given|]))
    ensures if r.Ok? then |given'| == |given| + 1 && Progress(pass, known, b, ms, given', r.value) else given' == given
  {
    var i := |given|;
    ghost var last;
    r, last := RunAndMerge(pass, b, ms[..i], ms[i], part, results, known, padToken, dpSize, microBatch);
    given' := given;
    if r.Ok? {
      AllGivenNext(pass.TrainingPass?, known, b.rows, ms, given, last);
      Prefix(ms, i);
      given' := given + [last];
    }
  }

  /** Runs the parts of these models one after the other. */
  method RunParts(pass: Pass, ghost b: Batch, ghost ms: seq<string>, parts: seq<Batch>, known: map<string, Role>,
                  padToken: int, dpSize: nat, microBatch: nat)
    returns (r: Result<map<string, seq<Output>>, Failure>, ghost given: seq<seq<Aligned>>)
    requires PassOk(pass) && WellFormed(b) && dpSize > 0 && parts == Parts(b, ms)
    ensures r.Ok? <==> AllRun(pass.TrainingPass?, known, b.rows, ms)
    ensures r.Ok? ==> ServedFor(pass, known, b, ms, r.value)
    ensures Handed(pass.TrainingPass?, known, GroupsOf(b.rows, ms), given)
  {
    r, given := Ok(map[]), [];
    for i := 0 to |parts|
      invariant |given| == i && r.Ok? && Progress(pass, known, b, ms, given, r.value)
    {
      r, given := RunNext(pass, b, ms, given, parts[i], r.value, known, padToken, dpSize, microBatch);
      if r.Err? {
        GivenHanded(pass.TrainingPass?, known, b.rows, ms, given);
        return;
      }
    }
    GivenHanded(pass.TrainingPass?, known, b.rows, ms, given);
    assert ms[..|ms|] == ms;
  }

  /** A model is listed exactly if a slice has it. */
  lemma ListedModels(ss: seq<Slice>)
    ensures forall m :: m in ModelsOf(ss) <==> exists s :: s in ss && s.model == m
  {
    forall m ensures m in ModelsOf(ss) <==> exists s :: s in ss && s.model == m {
      ModelsMembers(ss, m);
    }
  }

  lemma ServableModels(training: bool, known: map<string, Role>, b: Batch)
    requires !OneModel(b.rows) && forall s | s in b.slices :: s.model in known
    ensures Servable(training, known, b) <==> AllRun(training, known, b.rows, ModelsOf(b.slices))
  {
    ListedModels(b.slices);
    if Servable(training, known, b) {
      forall m | m in ModelsOf(b.slices) ensures Runs(training, known, RowsOf(b.rows, m)) {
        var s :| s in b.slices && s.model == m;
      }
    }
  }

  /** A batch whose models are all known is run part by part. */
  method RunSplit(pass: Pass, b: Batch, parts: seq<Batch>, known: map<string, Role>, padToken: int, dpSize: nat,
                  microBatch: nat)
    returns (r: Result<map<string, seq<Output>>, Failure>, ghost given: seq<seq<Aligned>>)
    requires PassOk(pass) && WellFormed(b) && dpSize > 0 && parts == Parts(b, ModelsOf(b.slices))
    requires !OneModel(b.rows) && forall s | s in b.slices :: s.model in known
    ensures r.Ok? <==> Servable(pass.TrainingPass?, known, b)
    ensures r.Ok? ==> Served(pass, known, b, r.value)
    ensures Handed(pass.TrainingPass?, known, GroupsOf(b.rows, ModelsOf(b.slices)), given)
  {
    ghost var ms := ModelsOf(b.slices);
    ServableModels(pass.TrainingPass?, known, b);
    r, given := RunParts(pass, b, ms, parts, known, padToken, dpSize, microBatch);
    if r.Ok? {
      ListedModels(b.slices);
      AllServed(pass, known, b, ms, r.value);
    }
  }

  /** A batch of one model is run as it is. */
  method RunWhole(pass: Pass, b: Batch, known: map<string, Role>, padToken: int, dpSize: nat, microBatch: nat)
    returns (r: Result<map<string, seq<Output>>, Failure>, ghost given: seq<seq<Aligned>>)
    requires PassOk(pass) && WellFormed(b) && dpSize > 0 && b.rows != [] && OneModel(b.rows)
    ensures r.Ok? <==> Runs(pass.TrainingPass?, known, b.rows)
    ensures r.Ok? ==> Served(pass, known, b, r.value)
    ensures Handed(pass.TrainingPass?, known, [b.rows], given)
  {
    ghost var last;
    r, last := RunSingle(pass, b, known, padToken, dpSize, microBatch);
    given := if r.Ok? then [last] else [];
  }

  method RunMixed(pass: Pass, b: Batch, known: map<string, Role>, padToken: int, dpSize: nat, microBatch: nat)
    returns (r: Result<map<string, seq<Output>>, Failure>, ghost given: seq<seq<Aligned>>)
    requires PassOk(pass) && WellFormed(b) && dpSize > 0
    ensures r.Ok? <==> Servable(pass.TrainingPass?, known, b)
    ensures r.Ok? ==> if b.rows == [] then r.value == map[] else Served(pass, known, b, r.value)
    ensures Handed(pass.TrainingPass?, known, Groups(b, known), given)
  {
    given := [];
    if b.rows == [] {
      return Ok(map[]), given;
    }
    var split := SplitByModel(b, known);
    if split.Err? {
      return Err(UnknownModel(split.reason)), given;
    }
    if OneModel(b.rows) {
      r, given := RunWhole(pass, b, known, padToken, dpSize, microBatch);
    } else {
      r, given := RunSplit(pass, b, split.value, known, padToken, dpSize, microBatch);
    }
  }

  /** A forward call over a mixed batch: it answers exactly when it can, and then every request gets the values of
      its own rows, however they are batched and padded. */
  method Forward(w: Worker, b: Batch, known: map<string, Role>, padToken: int, dpSize: nat, microBatch: nat)
    returns (r: Result<map<string, seq<Output>>, Failure>)
    requires PassOk(ForwardPass(w)) && WellFormed(b) && dpSize > 0
    ensures r.Ok? <==> Servable(false, known, b)
    ensures r.Ok? ==> if b.rows == [] then r.value == map[] else Served(ForwardPass(w), known, b, r.value)
  {
    ghost var given;
    r, given := RunMixed(ForwardPass(w), b, known, padToken, dpSize, microBatch);
  }

  /** A training call over a mixed batch: the same with what was reported on the rows.  The models are trained one
      after the other, up to the first whose rows cannot run. */
  method ForwardBackward(report: Reporter, reports: bool, b: Batch, known: map<string, Role>, padToken: int,
                         dpSize: nat, microBatch: nat)
    returns (r: Result<map<string, seq<Output>>, Failure>, ghost given: seq<seq<Aligned>>)
    requires WellFormed(b) && dpSize > 0
    ensures r.Ok? <==> Servable(true, known, b)
    ensures r.Ok? ==>
      if b.rows == [] then r.value == map[] else Served(TrainingPass(report, reports), known, b, r.value)
    ensures Handed(true, known, Groups(b, known), given)
  {
    r, given := RunMixed(TrainingPass(report, reports), b, known, padToken, dpSize, microBatch);
  }

  lemma ServedSlice(pass: Pass, known: map<string, Role>, b: Batch, results: map<string, seq<Output>>, k: nat)
    requires InBounds(b) && Served(pass, known, b, results) && k < |b.slices|
    ensures Answered(pass, known, b, k, results)
  {
  }

  /** A row of a served request has what it deserves. */
  lemma ServedRow(pass: Pass, known: map<string, Role>, b: Batch, results: map<string, seq<Output>>, k: nat, i: nat)
    requires InBounds(b) && k < |b.slices| && Answered(pass, known, b, k, results)
    requires i < b.slices[k].end - b.slices[k].start
    ensures |results[b.slices[k].request]| == b.slices[k].end - b.slices[k].start
    ensures var e := b.rows[b.slices[k].start + i];
      results[b.slices[k].request][i] == Deserved(pass, SettingFor(known, b.rows, e.model), e)
  {
    AnswersRow(pass, known, b.rows, b.slices[k].start, b.slices[k].end, i);
  }

  lemma AnswersRow(pass: Pass, known: map<string, Role>, rows: seq<Example>, start: nat, end: nat, i: nat)
    requires start <= end <= |rows| && i < end - start
    ensures var answers, e := Answers(pass, known, rows, rows[start..end]), rows[start + i];
      |answers| == end - start && answers[i] == Deserved(pass, SettingFor(known, rows, e.model), e)
  {
    assert rows[start..end][i] == rows[start + i];
  }

  /** Answer i of a request, in full: the worker's or the reporter's on that row's own tokens, weights and fields, under
      the first loss and the first configuration of the rows of its model. */
  lemma AnswerByName(pass: Pass, known: map<string, Role>, b: Batch, results: map<string, seq<Output>>, k: nat, i: nat)
    returns (own: seq<Example>, c: Content, config: Option<map<string, real>>)
    requires InBounds(b) && Served(pass, known, b, results) && k < |b.slices|
    requires i < b.slices[k].end - b.slices[k].start && b.rows[b.slices[k].start + i].model in known
    ensures b.slices[k].request in results
    ensures |results[b.slices[k].request]| == b.slices[k].end - b.slices[k].start
    ensures var e := b.rows[b.slices[k].start + i];
      && own == RowsOf(b.rows, e.model) && own != []
      && HasTokens(e, c.tokens) && c.weights == e.weights && HasFields(e, c.fields, [])
      && HasColumns(known[e.model], own, c.fields.Keys)
      && results[b.slices[k].request][i] ==
           if pass.ForwardPass? then Tokenwise(known[e.model], pass.worker(e.model, c))
           else if pass.reports then Reported(pass.report(e.model, own[0].loss, config, c))
           else Nothing
    ensures FirstGiven(own, config)
  {
    ServedSlice(pass, known, b, results, k);
    ServedRow(pass, known, b, results, k, i);
    own, c, config := DeservedByName(pass, known, b.rows, b.rows[b.slices[k].start + i]);
  }

  // ---------------------------------------------------------------- what batching changes

  /** The batch with one more request at its end. */
  function With(b: Batch, request: string, m: string, more: seq<Example>): Batch {
    Batch(b.rows + more, b.slices + [Slice(request, m, |b.rows|, |b.rows| + |more|)])
  }

  predicate NewRequest(b: Batch, request: string) {
    forall s | s in b.slices :: s.request != request
  }

  lemma WithOwnRows(b: Batch, request: string, m: string, more: seq<Example>, k: nat, i: nat)
    requires WellFormed(b) && AllOf(more, m) && k <= |b.slices|
    requires With(b, request, m, more).slices[k].start <= i < With(b, request, m, more).slices[k].end
    ensures i < |b.rows + more| && (b.rows + more)[i].model == With(b, request, m, more).slices[k].model
  {
    if k == |b.slices| {
      assert more[i - |b.rows|] in more;
    }
  }

  lemma DistinctWith(ss: seq<Slice>, last: Slice)
    requires forall j, k | 0 <= j < k < |ss| :: ss[j].request != ss[k].request
    requires forall s | s in ss :: s.request != last.request
    ensures forall j, k | 0 <= j < k < |ss + [last]| :: (ss + [last])[j].request != (ss + [last])[k].request
  {
    assert forall j | 0 <= j < |ss| :: ss[j] in ss;
  }

  lemma WithIsWellFormed(b: Batch, request: string, m: string, more: seq<Example>)
    requires WellFormed(b) && NewRequest(b, request) && AllOf(more, m)
    ensures WellFormed(With(b, request, m, more))
  {
    var w := With(b, request, m, more);
    DistinctWith(b.slices, w.slices[|b.slices|]);
    forall k, i | 0 <= k < |w.slices| && w.slices[k].start <= i < w.slices[k].end
      ensures i < |w.rows| && w.rows[i].model == w.slices[k].model
    {
      WithOwnRows(b, request, m, more, k, i);
    }
  }

  lemma WithRowsOf(b: Batch, m: string, more: seq<Example>, m': string)
    requires AllOf(more, m)
    ensures RowsOf(b.rows + more, m') == if m' == m then RowsOf(b.rows, m) + more else RowsOf(b.rows, m')
  {
    RowsOfConcat(b.rows, more, m');
    RowsOfOne(more, m', m);
    assert RowsOf(b.rows, m') + [] == RowsOf(b.rows, m');
  }

  lemma WithServable(training: bool, known: map<string, Role>, b: Batch, last: Slice, more: seq<Example>)
    requires AllOf(more, last.model)
    requires forall s | s in b.slices :: s.model in known && Runs(training, known, RowsOf(b.rows, s.model))
    ensures (forall s | s in b.slices + [last] :: s.model in known
               && Runs(training, known, RowsOf(b.rows + more, s.model)))
            <==> last.model in known && Runs(training, known, RowsOf(b.rows, last.model) + more)
  {
    WithRowsOf(b, last.model, more, last.model);
    assert last in b.slices + [last];
    forall s | s in b.slices && s.model != last.model
      ensures RowsOf(b.rows + more, s.model) == RowsOf(b.rows, s.model)
    {
      WithRowsOf(b, last.model, more, s.model);
    }
  }

  lemma StillMixed(rows: seq<Example>, more: seq<Example>)
    requires !OneModel(rows)
    ensures !OneModel(rows + more)
  {
    var e :| e in rows && e.model != rows[0].model;
    assert e in rows + more && (rows + more)[0] == rows[0];
  }

  /** When one more request joins a batch of several models that would be answered, all of it still is exactly if
      the request's model is known and its rows can run together with those already there of that model. */
  lemma AddedRequest(training: bool, known: map<string, Role>, b: Batch, request: string, m: string,
                     more: seq<Example>)
    requires WellFormed(b) && NewRequest(b, request) && AllOf(more, m)
    requires !OneModel(b.rows) && Servable(training, known, b)
    ensures WellFormed(With(b, request, m, more))
    ensures Servable(training, known, With(b, request, m, more)) <==>
            m in known && Runs(training, known, RowsOf(b.rows, m) + more)
  {
    WithIsWellFormed(b, request, m, more);
    StillMixed(b.rows, more);
    WithServable(training, known, b, Slice(request, m, |b.rows|, |b.rows| + |more|), more);
  }

  lemma NoRowsOf(b: Batch, m: string)
    requires WellFormed(b) && forall s | s in b.slices :: s.model != m
    ensures RowsOf(b.rows, m) == []
  {
    PartHomogeneous(b, m);
    SelectNone(b.slices, m);
  }

  /** So a request of a new model whose rows cannot run makes the call fail as a whole, although its model is known
      and the other requests would be served. */
  lemma UnrunnableSinksMixedBatch(training: bool, known: map<string, Role>, b: Batch, request: string, m: string,
                                  more: seq<Example>)
    requires WellFormed(b) && NewRequest(b, request) && !OneModel(b.rows) && Servable(training, known, b)
    requires AllOf(more, m) && !Runs(training, known, more) && forall s | s in b.slices :: s.model != m
    ensures WellFormed(With(b, request, m, more)) && !Servable(training, known, With(b, request, m, more))
  {
    NoRowsOf(b, m);
    assert RowsOf(b.rows, m) + more == more;
    AddedRequest(training, known, b, request, m, more);
  }

  /** In particular one without data. */
  lemma EmptyRequestSinksMixedBatch(training: bool, known: map<string, Role>, b: Batch, request: string, m: string)
    requires WellFormed(b) && NewRequest(b, request) && !OneModel(b.rows) && Servable(training, known, b)
    requires m in known && forall s | s in b.slices :: s.model != m
    ensures WellFormed(With(b, request, m, [])) && !Servable(training, known, With(b, request, m, []))
  {
    UnrunnableSinksMixedBatch(training, known, b, request, m, []);
  }

  /** A model that is new to the batch comes last. */
  lemma ModelsWith(b: Batch, last: Slice)
    requires forall s | s in b.slices :: s.model != last.model
    ensures ModelsOf(b.slices + [last]) == ModelsOf(b.slices) + [last.model]
  {
    ListedModels(b.slices);
    assert (b.slices + [last])[..|b.slices|] == b.slices;
  }

  lemma GroupsWith(b: Batch, m: string, more: seq<Example>, ms: seq<string>)
    requires AllOf(more, m) && RowsOf(b.rows, m) == [] && m !in ms
    ensures GroupsOf(b.rows + more, ms + [m]) == GroupsOf(b.rows, ms) + [more]
  {
    forall k | 0 <= k < |ms| ensures RowsOf(b.rows + more, ms[k]) == RowsOf(b.rows, ms[k]) {
      assert ms[k] in ms;
      WithRowsOf(b, m, more, ms[k]);
    }
    WithRowsOf(b, m, more, m);
    assert RowsOf(b.rows, m) + more == more;
    var left, right := GroupsOf(b.rows + more, ms + [m]), GroupsOf(b.rows, ms) + [more];
    forall k | 0 <= k <= |ms| ensures left[k] == right[k] {
      assert (ms + [m])[k] == if k < |ms| then ms[k] else m;
    }
  }

  lemma KnownWith(known: map<string, Role>, b: Batch, last: Slice, more: seq<Example>)
    requires !OneModel(b.rows) && last.model in known && forall s | s in b.slices :: s.model in known
    ensures var w := Batch(b.rows + more, b.slices + [last]); Groups(w, known) == GroupsOf(w.rows, ModelsOf(w.slices))
  {
    StillMixed(b.rows, more);
    assert forall s | s in b.slices + [last] :: s in b.slices || s == last;
  }

  lemma GroupsOfWith(known: map<string, Role>, b: Batch, request: string, m: string, more: seq<Example>)
    requires !OneModel(b.rows) && AllOf(more, m) && m in known && RowsOf(b.rows, m) == []
    requires forall s | s in b.slices :: s.model in known && s.model != m
    ensures Groups(With(b, request, m, more), known) == GroupsOf(b.rows, ModelsOf(b.slices)) + [more]
  {
    var last := Slice(request, m, |b.rows|, |b.rows| + |more|);
    assert Groups(With(b, request, m, more), known) == GroupsOf(b.rows + more, ModelsOf(b.slices + [last])) by {
      KnownWith(known, b, last, more);
    }
    assert m !in ModelsOf(b.slices) by {
      ModelsAbsent(b.slices, m);
    }
    assert ModelsOf(b.slices + [last]) == ModelsOf(b.slices) + [m] by {
      ModelsWith(b, last);
    }
    GroupsWith(b, m, more, ModelsOf(b.slices));
  }

  lemma UpToTheLast(training: bool, known: map<string, Role>, rows: seq<Example>, ms: seq<string>,
                    more: seq<Example>, given: seq<seq<Aligned>>)
    requires AllRun(training, known, rows, ms) && !Runs(training, known, more)
    requires Handed(training, known, GroupsOf(rows, ms) + [more], given)
    ensures |given| == |ms| && forall k | 0 <= k < |given| :: Given(known, RowsOf(rows, ms[k]), given[k])
  {
    var groups := GroupsOf(rows, ms) + [more];
    assert groups[|ms|] == more;
    assert forall k | 0 <= k < |ms| :: ms[k] in ms && groups[k] == RowsOf(rows, ms[k]);
  }

  lemma AllTrained(known: map<string, Role>, b: Batch, groups: seq<seq<Example>>, more: seq<Example>,
                   given: seq<seq<Aligned>>)
    requires !OneModel(b.rows) && Servable(true, known, b) && !Runs(true, known, more)
    requires groups == GroupsOf(b.rows, ModelsOf(b.slices)) + [more] && Handed(true, known, groups, given)
    ensures |given| == |ModelsOf(b.slices)|
    ensures forall k | 0 <= k < |given| :: Given(known, RowsOf(b.rows, ModelsOf(b.slices)[k]), given[k])
  {
    ServableModels(true, known, b);
    UpToTheLast(true, known, b.rows, ModelsOf(b.slices), more, given);
  }

  /** A call that is refused for the rows of a model that comes last has by then trained all the others. */
  lemma RefusedCallHasTrained(known: map<string, Role>, b: Batch, request: string, m: string, more: seq<Example>,
                              given: seq<seq<Aligned>>)
    requires WellFormed(b) && NewRequest(b, request) && !OneModel(b.rows) && Servable(true, known, b)
    requires AllOf(more, m) && m in known && !Runs(true, known, more) && forall s | s in b.slices :: s.model != m
    requires Handed(true, known, Groups(With(b, request, m, more), known), given)
    ensures !Servable(true, known, With(b, request, m, more)) && |given| == |ModelsOf(b.slices)|
    ensures forall k | 0 <= k < |given| :: Given(known, RowsOf(b.rows, ModelsOf(b.slices)[k]), given[k])
  {
    UnrunnableSinksMixedBatch(true, known, b, request, m, more);
    NoRowsOf(b, m);
    GroupsOfWith(known, b, request, m, more);
    AllTrained(known, b, Groups(With(b, request, m, more), known), more, given);
  }

  /** A batch of requests of one row each. */
  function Pair(e: Example, f: Example): Batch {
    Batch([e, f], [Slice("first", e.model, 0, 1), Slice("second", f.model, 1, 2)])
  }

  function Single(e: Example): Batch {
    Batch([e], [Slice("only", e.model, 0, 1)])
  }

  predicate PairFits(e: Example, f: Example, c: Column) {
    || (Field(e, c) == [] && Field(f, c) == [])
    || |Field(e, c)| - |e.weights| == |Field(f, c)| - |f.weights|
  }

  lemma PairTensor(e: Example, f: Example, c: Column)
    ensures Tensor([e, f], c) <==> PairFits(e, f, c)
  {
    assert e in [e, f] && f in [e, f];
  }

  lemma PairRuns(known: map<string, Role>, e: Example, f: Example)
    requires e.model in known && known[e.model].Policy?
    ensures Runs(false, known, [e, f]) <==> PairFits(e, f, Logprobs) && PairFits(e, f, Advantages)
  {
    PairTensor(e, f, Logprobs);
    PairTensor(e, f, Advantages);
  }

  lemma PairWellFormed(e: Example, f: Example)
    ensures WellFormed(Pair(e, f))
  {
  }

  /** Two requests of one policy that are answered alone are answered together exactly if each of the two tensors
      is carried by neither, or misses the response's length by the same amount in both. */
  lemma PairServable(known: map<string, Role>, e: Example, f: Example)
    requires e.model == f.model && RoleOf(known, e.model).Policy?
    requires Servable(false, known, Single(e)) && Servable(false, known, Single(f))
    ensures WellFormed(Pair(e, f))
    ensures Servable(false, known, Pair(e, f)) <==> PairFits(e, f, Logprobs) && PairFits(e, f, Advantages)
  {
    PairWellFormed(e, f);
    PairRuns(known, e, f);
    assert Single(e).rows[0] == e && OneModel(Pair(e, f).rows);
  }

  /** A row with and a row without log-probabilities: a field present on some rows only. */
  lemma RaggedPairRefused() returns (known: map<string, Role>, e: Example, f: Example)
    ensures e.weights == f.weights == [1.0] && e.logprobs == [0.5] && f.logprobs == []
    ensures Servable(false, known, Single(e)) && Servable(false, known, Single(f))
    ensures WellFormed(Pair(e, f)) && !Servable(false, known, Pair(e, f))
  {
    known := map["m" := Policy];
    e := Example([1], [2], [1.0], [0.5], [], [], [], "m", CrossEntropy, None);
    f := e.(logprobs := []);
    PairServable(known, e, f);
  }

  // ---------------------------------------------------------------- what a request shares with its model's others

  function RequestRows(b: Batch, k: nat): seq<Example>
    requires InBounds(b) && k < |b.slices|
  {
    b.rows[b.slices[k].start..b.slices[k].end]
  }

  /** The request as a batch of its own. */
  function Alone(b: Batch, k: nat): Batch
    requires InBounds(b) && k < |b.slices|
  {
    var own, s := RequestRows(b, k), b.slices[k];
    Batch(own, [Slice(s.request, s.model, 0, |own|)])
  }

  /** Request k deserves in this batch what it deserves alone. */
  predicate AsAlone(pass: Pass, known: map<string, Role>, b: Batch, k: nat)
    requires InBounds(b) && k < |b.slices|
  {
    var own := RequestRows(b, k);
    Answers(pass, known, b.rows, own) == Answers(pass, known, own, own)
  }

  /** The request carries every tensor that its model's rows carry in this batch. */
  predicate SameColumns(known: map<string, Role>, b: Batch, k: nat)
    requires InBounds(b) && k < |b.slices|
  {
    var own, m := RequestRows(b, k), b.slices[k].model;
    ColumnsOf(RoleOf(known, m), RowsOf(b.rows, m)) == ColumnsOf(RoleOf(known, m), own)
  }

  /** Its first loss and its first configuration are those of its model's rows in this batch, too. */
  predicate SameSetting(known: map<string, Role>, b: Batch, k: nat)
    requires InBounds(b) && k < |b.slices|
  {
    var own, rows := RequestRows(b, k), RowsOf(b.rows, b.slices[k].model);
    && SameColumns(known, b, k) && rows != [] && own != []
    && rows[0].loss == own[0].loss && FirstConfig(rows) == FirstConfig(own)
  }

  lemma RequestFacts(b: Batch, k: nat)
    requires WellFormed(b) && k < |b.slices|
    ensures var own, m := RequestRows(b, k), b.slices[k].model;
      && AllOf(own, m) && RowsOf(own, m) == own && forall e | e in own :: e in RowsOf(b.rows, m)
  {
    var own, s := RequestRows(b, k), b.slices[k];
    forall e | e in own ensures e in b.rows && e.model == s.model {
      var i :| 0 <= i < |own| && own[i] == e;
      assert own[i] == b.rows[s.start + i];
    }
    RowsOfOne(own, s.model, s.model);
    RowsOfMembers(b.rows, s.model);
  }

  /** Rows of one model deserve the same in both settings. */
  predicate Alike(pass: Pass, s: Setting, t: Setting, rows: seq<Example>) {
    forall e | e in rows :: Deserved(pass, s, e) == Deserved(pass, t, e)
  }

  lemma AnswerAt(pass: Pass, known: map<string, Role>, batched: seq<Example>, m: string, own: seq<Example>, i: nat)
    requires AllOf(own, m) && i < |own|
    ensures Answers(pass, known, batched, own)[i] == Deserved(pass, SettingFor(known, batched, m), own[i])
  {
    assert own[i] in own;
  }

  /** What the rows of one model get is a matter of the setting they are run in. */
  lemma AnswersByRow(pass: Pass, known: map<string, Role>, batched: seq<Example>, m: string, own: seq<Example>)
    requires AllOf(own, m)
    ensures Answers(pass, known, batched, own) == Answers(pass, known, own, own) <==>
            Alike(pass, SettingFor(known, batched, m), SettingFor(known, own, m), own)
  {
    var together, alone := Answers(pass, known, batched, own), Answers(pass, known, own, own);
    forall i | 0 <= i < |own|
      ensures together[i] == Deserved(pass, SettingFor(known, batched, m), own[i])
      ensures alone[i] == Deserved(pass, SettingFor(known, own, m), own[i])
    {
      AnswerAt(pass, known, batched, m, own, i);
      AnswerAt(pass, known, own, m, own, i);
    }
    if together == alone {
      forall e | e in own ensures Deserved(pass, SettingFor(known, batched, m), e)
                                  == Deserved(pass, SettingFor(known, own, m), e) {
        var i :| 0 <= i < |own| && own[i] == e;
        assert together[i] == alone[i];
      }
    }
    if Alike(pass, SettingFor(known, batched, m), SettingFor(known, own, m), own) {
      forall i | 0 <= i < |own| ensures together[i] == alone[i] {
        assert own[i] in own;
      }
    }
  }

  /** A report that tells this setting from others. */
  function Telling(s: Setting): Reporter {
    (m: string, loss: Loss, config: Option<map<string, real>>, c: Content) =>
      if loss == s.loss && config == s.config && c.fields.Keys == s.columns then [1.0] else [0.0]
  }

  /** A worker that tells these tensors from others. */
  function Marking(columns: set<Column>): Worker {
    (m: string, c: Content) => seq(|c.weights|, _ => if c.fields.Keys == columns then 1.0 else 0.0)
  }

  lemma TrainedAlike(s: Setting, t: Setting, rows: seq<Example>)
    requires rows != []
    ensures (forall report: Reporter :: Alike(TrainingPass(report, true), s, t, rows)) <==>
            s.loss == t.loss && s.config == t.config && s.columns == t.columns
  {
    if s.loss != t.loss || s.config != t.config || s.columns != t.columns {
      var pass := TrainingPass(Telling(t), true);
      assert rows[0] in rows;
      assert Deserved(pass, s, rows[0]) == Reported([0.0]) && Deserved(pass, t, rows[0]) == Reported([1.0]);
      assert !Alike(TrainingPass(Telling(t), true), s, t, rows);
    }
  }

  lemma NoTokensNoValues(w: Worker, s: Setting, t: Setting, rows: seq<Example>)
    requires PassOk(ForwardPass(w)) && s.role == t.role && forall e | e in rows :: e.weights == []
    ensures Alike(ForwardPass(w), s, t, rows)
  {
    forall e | e in rows ensures Deserved(ForwardPass(w), s, e) == Deserved(ForwardPass(w), t, e) {
      assert w(e.model, ContentOf(e, s.columns)) == [] == w(e.model, ContentOf(e, t.columns));
    }
  }

  lemma MarkingTells(s: Setting, t: Setting, e: Example)
    requires s.columns != t.columns && e.weights != []
    ensures PassOk(ForwardPass(Marking(t.columns)))
    ensures Deserved(ForwardPass(Marking(t.columns)), s, e) != Deserved(ForwardPass(Marking(t.columns)), t, e)
  {
    var w := Marking(t.columns);
    assert w(e.model, ContentOf(e, s.columns))[0] == 0.0 && w(e.model, ContentOf(e, t.columns))[0] == 1.0;
  }

  lemma ForwardedAlike(s: Setting, t: Setting, rows: seq<Example>)
    requires s.role == t.role
    ensures (forall w: Worker | PassOk(ForwardPass(w)) :: Alike(ForwardPass(w), s, t, rows)) <==>
            (forall e | e in rows :: e.weights == []) || s.columns == t.columns
  {
    if forall e | e in rows :: e.weights == [] {
      forall w: Worker | PassOk(ForwardPass(w)) ensures Alike(ForwardPass(w), s, t, rows) {
        NoTokensNoValues(w, s, t, rows);
      }
    } else if s.columns == t.columns {
      assert forall w: Worker, e: Example :: Deserved(ForwardPass(w), s, e) == Deserved(ForwardPass(w), t, e);
    } else {
      var e :| e in rows && e.weights != [];
      MarkingTells(s, t, e);
      assert !Alike(ForwardPass(Marking(t.columns)), s, t, rows);
    }
  }

  /** A training call answers a request as it would alone, whatever the training reports, exactly if the request is
      empty or other rows of its model change neither the loss nor the configuration nor the tensors. */
  lemma TrainedAsAlone(known: map<string, Role>, b: Batch, k: nat)
    requires WellFormed(b) && k < |b.slices|
    ensures (forall report: Reporter :: AsAlone(TrainingPass(report, true), known, b, k)) <==>
            RequestRows(b, k) == [] || SameSetting(known, b, k)
  {
    var own, m := RequestRows(b, k), b.slices[k].model;
    RequestFacts(b, k);
    forall report: Reporter
      ensures AsAlone(TrainingPass(report, true), known, b, k) <==>
              Alike(TrainingPass(report, true), SettingFor(known, b.rows, m), SettingFor(known, own, m), own)
    {
      AnswersByRow(TrainingPass(report, true), known, b.rows, m, own);
    }
    if own != [] {
      TrainedAlike(SettingFor(known, b.rows, m), SettingFor(known, own, m), own);
      assert own[0] in own;
    }
  }

  /** A forward call does so, whatever the worker, exactly if the request has no response tokens or other rows of its
      model do not change the tensors. */
  lemma ForwardedAsAlone(known: map<string, Role>, b: Batch, k: nat)
    requires WellFormed(b) && k < |b.slices|
    ensures (forall w: Worker | PassOk(ForwardPass(w)) :: AsAlone(ForwardPass(w), known, b, k)) <==>
            (forall e | e in RequestRows(b, k) :: e.weights == []) || SameColumns(known, b, k)
  {
    var own, m := RequestRows(b, k), b.slices[k].model;
    RequestFacts(b, k);
    forall w: Worker
      ensures AsAlone(ForwardPass(w), known, b, k) <==>
              Alike(ForwardPass(w), SettingFor(known, b.rows, m), SettingFor(known, own, m), own)
    {
      AnswersByRow(ForwardPass(w), known, b.rows, m, own);
    }
    ForwardedAlike(SettingFor(known, b.rows, m), SettingFor(known, own, m), own);
  }

  /** A request that is answered as it would be alone, by the conditions above. */
  predicate Undisturbed(pass: Pass, known: map<string, Role>, b: Batch, k: nat)
    requires InBounds(b) && k < |b.slices|
  {
    match pass
    case ForwardPass(_) => (forall e | e in RequestRows(b, k) :: e.weights == []) || SameColumns(known, b, k)
    case TrainingPass(_, reports) => !reports || RequestRows(b, k) == [] || SameSetting(known, b, k)
  }

  /** Then the results of the two calls agree on it. */
  lemma TogetherAsAlone(pass: Pass, known: map<string, Role>, b: Batch, k: nat, results: map<string, seq<Output>>,
                        alone: map<string, seq<Output>>)
    requires PassOk(pass) && WellFormed(b) && k < |b.slices| && Undisturbed(pass, known, b, k)
    requires Served(pass, known, b, results) && Served(pass, known, Alone(b, k), alone)
    ensures b.slices[k].request in results && b.slices[k].request in alone
    ensures results[b.slices[k].request] == alone[b.slices[k].request]
  {
    var own, request := RequestRows(b, k), b.slices[k].request;
    match pass {
      case ForwardPass(w) => ForwardedAsAlone(known, b, k);
      case TrainingPass(report, reports) =>
        if reports {
          TrainedAsAlone(known, b, k);
        } else {
          assert Answers(pass, known, b.rows, own) == Answers(pass, known, own, own);
        }
    }
    assert AsAlone(pass, known, b, k);
    assert Alone(b, k).slices[0].request == request && own[0..|own|] == own;
  }

  /** A request whose own first loss is not that of its model's rows is answered under another request's loss: some
      training reports otherwise on it than alone. */
  lemma LossIsShared(known: map<string, Role>, b: Batch, k: nat)
    requires WellFormed(b) && k < |b.slices| && RequestRows(b, k) != []
    ensures var own, rows := RequestRows(b, k), RowsOf(b.rows, b.slices[k].model);
      rows != [] && (rows[0].loss != own[0].loss ==>
        exists report: Reporter :: !AsAlone(TrainingPass(report, true), known, b, k))
  {
    RequestFacts(b, k);
    assert RequestRows(b, k)[0] in RequestRows(b, k);
    TrainedAsAlone(known, b, k);
  }

  /** All rows use one loss and configuration and carry the same fields. */
  predicate Uniform(rows: seq<Example>) {
    forall e, f | e in rows && f in rows ::
      e.loss == f.loss && e.config == f.config && forall c: Column :: Field(e, c) == [] <==> Field(f, c) == []
  }

  lemma {:induction false} UniformConfig(rows: seq<Example>)
    requires Uniform(rows) && rows != []
    ensures FirstConfig(rows) == rows[0].config
  {
    if |rows| == 1 || rows[0].config.Some? {
    } else {
      assert forall e | e in rows[1..] :: e in rows;
      assert rows[1] in rows;
      UniformConfig(rows[1..]);
    }
  }

  lemma UniformSetting(role: Role, rows: seq<Example>, own: seq<Example>)
    requires Uniform(rows) && own != [] && forall e | e in own :: e in rows
    ensures rows != [] && SettingOf(role, own) == SettingOf(role, rows)
  {
    assert own[0] in rows && rows[0] in rows;
    assert Uniform(own);
    UniformConfig(rows);
    UniformConfig(own);
    forall c: Column ensures Present(own, c) <==> Present(rows, c) {
      assert own[0] in own;
    }
  }

  /** Requests whose model's rows are uniform never disturb one another. */
  lemma UniformIsUndisturbed(known: map<string, Role>, b: Batch, k: nat)
    requires WellFormed(b) && k < |b.slices| && Uniform(RowsOf(b.rows, b.slices[k].model))
    ensures RequestRows(b, k) == [] || SameSetting(known, b, k)
  {
    RequestFacts(b, k);
    if RequestRows(b, k) != [] {
      var m := b.slices[k].model;
      UniformSetting(RoleOf(known, m), RowsOf(b.rows, m), RequestRows(b, k));
    }
  }

  // ---------------------------------------------------------------- answered together, answered alone

  lemma SomeRowsAccepted(training: bool, role: Role, rows: seq<Example>, own: seq<Example>)
    requires Accepts(training, role, rows) && own != [] && forall e | e in own :: e in rows
    ensures Accepts(training, role, own) <==> !training || LossFits(role, own[0].loss)
  {
    forall c: Column | Tensor(rows, c) ensures Tensor(own, c) {
    }
    if role.Critic? && Present(rows, Values) {
      assert forall e | e in own :: |Field(e, Values)| == |Field(e, Returns)| == |e.weights|;
    }
  }

  /** The rows of a request's model run when its call is answered. */
  lemma ModelRuns(training: bool, known: map<string, Role>, b: Batch, k: nat)
    requires WellFormed(b) && k < |b.slices| && Servable(training, known, b) && RequestRows(b, k) != []
    ensures b.slices[k].model in known && Runs(training, known, RowsOf(b.rows, b.slices[k].model))
    ensures RowsOf(b.rows, b.slices[k].model)[0].model == b.slices[k].model
  {
    var own, m := RequestRows(b, k), b.slices[k].model;
    RequestFacts(b, k);
    RowsOfMembers(b.rows, m);
    assert own[0] in own && own[0] in b.rows;
    assert b.slices[k] in b.slices;
    if OneModel(b.rows) {
      RowsOfOne(b.rows, m, m);
    }
  }

  /** A request of an answered forward call would be answered alone as well; one of an answered training call exactly
      if it is empty or its own first loss fits its model's role. */
  lemma ServedAlone(training: bool, known: map<string, Role>, b: Batch, k: nat)
    requires WellFormed(b) && k < |b.slices| && Servable(training, known, b)
    ensures var own := RequestRows(b, k);
      Servable(training, known, Alone(b, k)) <==>
      own == [] || !training || LossFits(RoleOf(known, b.slices[k].model), own[0].loss)
  {
    var own, m := RequestRows(b, k), b.slices[k].model;
    RequestFacts(b, k);
    if own != [] {
      ModelRuns(training, known, b, k);
      SomeRowsAccepted(training, known[m], RowsOf(b.rows, m), own);
      assert own[0] in own;
    }
  }
}

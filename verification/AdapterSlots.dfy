/** Adapter slots of the JAX backend and the gradients each slot has accumulated since its last optimizer step. */
module AdapterSlots {
  import opened MicroBatch
  import opened Slots

  // ---------------------------------------------------------------- contributions

  /** One row's gradient, by parameter, at the parameters it was run with. */
  type Gradient = nat -> real

  function Total(gs: seq<Gradient>, c: nat): real {
    if gs == [] then 0.0 else Total(gs[..|gs| - 1], c) + gs[|gs| - 1](c)
  }

  function RowGradient(m: Model, row: Row): Gradient {
    (c: nat) => m.grad(row, c)
  }

  function Contributions(m: Model, rows: seq<Row>, a: nat): seq<Gradient> {
    if rows == [] then []
    else
      var n := |rows| - 1;
      Contributions(m, rows[..n], a) + if rows[n].adapter == a then [RowGradient(m, rows[n])] else []
  }

  lemma {:induction false} TotalConcat(gs: seq<Gradient>, hs: seq<Gradient>, c: nat)
    ensures Total(gs + hs, c) == Total(gs, c) + Total(hs, c)
    decreases |hs|
  {
    if hs == [] {
      assert gs + hs == gs;
    } else {
      var n := |hs| - 1;
      assert (gs + hs)[..|gs| + n] == gs + hs[..n];
      TotalConcat(gs, hs[..n], c);
    }
  }

  lemma {:induction false} ContributionsAddUp(m: Model, rows: seq<Row>, a: nat, c: nat)
    ensures Total(Contributions(m, rows, a), c) == GradSum(m, rows, a, c)
    ensures |Contributions(m, rows, a)| == CountOf(rows, a)
    decreases |rows|
  {
    if rows == [] {
    } else {
      var n := |rows| - 1;
      ContributionsAddUp(m, rows[..n], a, c);
      var g := RowGradient(m, rows[n]);
      var before := Contributions(m, rows[..n], a);
      if rows[n].adapter == a {
        assert (before + [g])[..|before|] == before;
        assert Contributions(m, rows, a) == before + [g];
      } else {
        assert Contributions(m, rows, a) == before;
      }
    }
  }

  /** The accumulator of every slot but 0 is the total and the number of the slot's pending contributions. */
  predicate Holds(acc: Accumulated, pending: seq<seq<Gradient>>) {
    && |acc.sums| == |acc.counts| == |pending|
    && (forall a | 1 <= a < |pending| :: acc.counts[a] == |pending[a]|)
    && (forall a, c | 1 <= a < |pending| && 0 <= c < |acc.sums[a]| :: acc.sums[a][c] == Total(pending[a], c))
  }

  function MorePending(m: Model, pending: seq<seq<Gradient>>, rows: seq<Row>): seq<seq<Gradient>> {
    seq(|pending|, a requires 0 <= a < |pending| => pending[a] + Contributions(m, rows, a))
  }

  lemma AddHolds(m: Model, acc: Accumulated, pending: seq<seq<Gradient>>, rows: seq<Row>)
    requires Holds(acc, pending)
    ensures Holds(Add(m, acc, rows), MorePending(m, pending, rows))
  {
    var r, more := Add(m, acc, rows), MorePending(m, pending, rows);
    forall a: nat | 1 <= a < |pending| ensures r.counts[a] == |more[a]| {
      ContributionsAddUp(m, rows, a, 0);
    }
    forall a: nat, c: nat | 1 <= a < |pending| && c < |r.sums[a]| ensures r.sums[a][c] == Total(more[a], c) {
      ContributionsAddUp(m, rows, a, c);
      TotalConcat(pending[a], Contributions(m, rows, a), c);
    }
  }

  lemma SameHolds(x: Accumulated, y: Accumulated, pending: seq<seq<Gradient>>)
    requires SameAbove0(x, y) && Holds(y, pending)
    ensures Holds(x, pending)
  {
    forall a, c | 1 <= a < |pending| && 0 <= c < |x.sums[a]| ensures x.sums[a][c] == Total(pending[a], c) {
      assert x.sums[a] == y.sums[a];
    }
  }

  // ---------------------------------------------------------------- mean and reset

  function Mean(acc: Accumulated, slot: nat): seq<seq<real>>
    requires slot < |acc.counts| == |acc.sums|
  {
    var safe := if acc.counts[slot] > 1 then acc.counts[slot] else 1;
    seq(|acc.sums|, a requires 0 <= a < |acc.sums| =>
      seq(|acc.sums[a]|, c requires 0 <= c < |acc.sums[a]| =>
        if a == slot then acc.sums[a][c] / (safe as real) else 0.0))
  }

  function Reset(acc: Accumulated, slot: nat): Accumulated
    requires slot < |acc.counts| == |acc.sums|
  {
    Accumulated(acc.sums[slot := seq(|acc.sums[slot]|, _ => 0.0)], acc.counts[slot := 0])
  }

  lemma ResetHolds(acc: Accumulated, pending: seq<seq<Gradient>>, slot: nat)
    requires Holds(acc, pending) && slot < |pending|
    ensures Holds(Reset(acc, slot), pending[slot := []])
  {
  }

  /** An optimizer step sees the average of its slot's pending gradients, and nothing of any other slot. */
  predicate IsAverage(mean: seq<seq<real>>, pending: seq<seq<Gradient>>, slot: nat) {
    && |mean| == |pending|
    && (forall a, c | 0 <= a < |mean| && a != slot && 0 <= c < |mean[a]| :: mean[a][c] == 0.0)
    && (slot < |mean| ==> forall c | 0 <= c < |mean[slot]| ::
          if pending[slot] == [] then mean[slot][c] == 0.0
          else mean[slot][c] * (|pending[slot]| as real) == Total(pending[slot], c))
  }

  lemma MeanIsAverage(acc: Accumulated, pending: seq<seq<Gradient>>, slot: nat)
    requires Holds(acc, pending) && 1 <= slot < |pending|
    ensures IsAverage(Mean(acc, slot), pending, slot)
  {
  }

  // ---------------------------------------------------------------- the backend

  class Backend {
    const maxAdapters: nat
    const maxRank: int
    const width: nat
    const mb: int
    const fsdp: nat
    var models: map<string, Metadata>
    var optimizers: set<string>
    var acc: Accumulated
    ghost var pending: seq<seq<Gradient>>

    /** Models own distinct slots above the reserved slot 0, and each slot's accumulator is what is pending on it. */
    ghost predicate Valid()
      reads this
    {
      && maxAdapters >= 1 && fsdp > 0
      && Injective(models) && Reserved0(models, maxAdapters) && optimizers == models.Keys
      && |pending| == maxAdapters && Holds(acc, pending)
      && forall a | 1 <= a < maxAdapters :: |acc.sums[a]| == width
    }

    constructor (maxAdapters: nat, maxRank: int, width: nat, mb: int, fsdp: nat)
      requires maxAdapters >= 1 && fsdp > 0
      ensures Valid() && models == map[] && acc == Zeros(maxAdapters, width) && pending == seq(maxAdapters, _ => [])
      ensures this.maxAdapters == maxAdapters && this.maxRank == maxRank && this.mb == mb && this.fsdp == fsdp
      ensures this.width == width
    {
      this.maxAdapters, this.maxRank, this.width, this.mb, this.fsdp := maxAdapters, maxRank, width, mb, fsdp;
      models, optimizers, acc := map[], {}, Zeros(maxAdapters, width);
      pending := seq(maxAdapters, _ => []);
    }

    /** Role, room and rank are checked in this order; a new model gets the least free slot, and neither the
        accumulator nor what is pending on the slot is touched. */
    method CreateModel(id: string, role: string, rank: int) returns (r: Created)
      requires Valid()
      modifies this`models, this`optimizers
      ensures Valid()
      ensures r.WrongRole? <==> role != "policy"
      ensures r.Full? <==> role == "policy" && |old(models)| == maxAdapters - 1
      ensures r.BadRank? <==> role == "policy" && |old(models)| < maxAdapters - 1 && !(0 < rank <= maxRank)
      ensures r.Slot? ==> LeastFree(Used(old(models)), maxAdapters, r.slot)
      ensures r == CreateResult(old(models), maxAdapters, maxRank, role, rank)
      ensures models == if r.Slot? then old(models)[id := Metadata(r.slot, rank)] else old(models)
    {
      if role != "policy" {
        return WrongRole;
      }
      r := FreeSlot(models, maxAdapters);
      if r.Full? {
        return;
      }
      CreatesLeastFree(models, maxAdapters);
      OneLeastFree(Used(models), maxAdapters, r.slot, FirstFree(Used(models), maxAdapters, 1));
      if !(0 < rank <= maxRank) {
        return BadRank;
      }
      NewSlot(models, maxAdapters, id, Metadata(r.slot, rank));
      models := models[id := Metadata(r.slot, rank)];
      optimizers := optimizers + {id};
    }

    method DeleteModel(id: string) returns (ok: bool)
      requires Valid()
      modifies this`models, this`optimizers
      ensures Valid() && ok == (id in old(models))
      ensures models == if ok then old(models) - {id} else old(models)
    {
      if id !in models {
        return false;
      }
      optimizers := optimizers - {id};
      models := models - {id};
      ok := true;
    }

    /** A forward or forward-backward call over rows whose adapters are their models' slots. */
    method Pass(m: Model, rows: seq<Row>, lens: seq<nat>, slices: seq<Slice>, len: nat, backward: bool)
      returns (results: map<string, Output>)
      requires Valid() && |lens| == |rows|
      requires forall s | s in slices :: s.start <= s.end <= |rows|
      requires forall i, j | 0 <= i < j < |slices| :: slices[i].request != slices[j].request
      modifies this`acc, this`pending
      ensures Valid() && pending == if backward then MorePending(m, old(pending), rows) else old(pending)
      ensures rows != [] ==> results.Keys == set s | s in slices :: s.request
      ensures rows != [] ==> forall s | s in slices ::
        |results[s.request].losses| == |results[s.request].logprobs| == s.end - s.start
      ensures rows != [] ==> forall s, i | s in slices && 0 <= i < s.end - s.start ::
        && results[s.request].losses[i] <= m.losses(rows[s.start + i])
        && results[s.request].logprobs[i] <= m.logprobs(rows[s.start + i])
      ensures rows != [] ==> forall s, i | s in slices && 0 <= i < s.end - s.start ::
        && |results[s.request].losses[i]| == Least(lens[s.start + i], |m.losses(rows[s.start + i])|)
        && |results[s.request].logprobs[i]| == Least(lens[s.start + i], |m.logprobs(rows[s.start + i])|)
    {
      acc, results := ModelPass(m, acc, rows, lens, slices, len, mb, fsdp, backward);
      if backward {
        AddHolds(m, old(acc), pending, rows);
        pending := MorePending(m, pending, rows);
        SameHolds(acc, Add(m, old(acc), rows), pending);
      } else {
        SameHolds(acc, old(acc), pending);
      }
    }

    /** The gradients handed to the optimizer of a model; only its slot is reset. */
    method OptimStep(id: string) returns (mean: seq<seq<real>>)
      requires Valid() && id in models
      modifies this`acc, this`pending
      ensures Valid() && IsAverage(mean, old(pending), models[id].slot)
      ensures forall a | 1 <= a < maxAdapters :: |mean[a]| == width
      ensures pending == old(pending)[models[id].slot := []] && acc.counts == old(acc).counts[models[id].slot := 0]
      ensures acc.sums == old(acc).sums[models[id].slot := seq(width, _ => 0.0)]
    {
      var slot := models[id].slot;
      mean := Mean(acc, slot);
      MeanIsAverage(acc, pending, slot);
      ResetHolds(acc, pending, slot);
      acc := Reset(acc, slot);
      pending := pending[slot := []];
    }
  }

  // ---------------------------------------------------------------- slots handed on

  /** A model is deleted and another created: whichever slot that gets, it starts clean if and only if nothing was
      run backward on the slot since its last optimizer step, by whatever model. */
  method DeleteThenCreate(b: Backend, id: string, id': string, role: string, rank: int) returns (r: Created)
    requires b.Valid() && id in b.models
    modifies b`models, b`optimizers
    ensures b.Valid() && b.acc == old(b.acc) && b.pending == old(b.pending)
    ensures r == CreateResult(old(b.models) - {id}, b.maxAdapters, b.maxRank, role, rank)
    ensures r.Slot? ==> id' in b.models && b.models[id'].slot == r.slot
    ensures r.Slot? ==> (b.acc.counts[r.slot] == 0 <==> old(b.pending)[r.slot] == [])
  {
    var ok := b.DeleteModel(id);
    r := b.CreateModel(id', role, rank);
  }

  /** One row is run backward for model "a", which is deleted; model "b" gets its slot with that row's gradient
      still pending, so it counts in b's first optimizer step. */
  method ReusedSlotIsDirty(m: Model, row: Row, len: nat, width: nat, mb: int, fsdp: nat)
    returns (b: Backend, stale: nat, mean: seq<seq<real>>)
    requires row.adapter == 1 && fsdp > 0
    ensures fresh(b) && b.Valid() && "a" !in b.models && "b" in b.models && b.models["b"].slot == 1
    ensures stale == 1 && IsAverage(mean, [[], [RowGradient(m, row)]], 1)
  {
    b := new Backend(2, 1, width, mb, fsdp);
    var first := b.CreateModel("a", "policy", 1);
    assert Used(map[]) == {};
    var results := b.Pass(m, [row], [0], [], len, true);
    assert b.pending == [[], [RowGradient(m, row)]] by {
      assert [row][..0] == [];
      assert Contributions(m, [row], 1) == [RowGradient(m, row)] && Contributions(m, [row], 0) == [];
    }
    var second := DeleteThenCreate(b, "a", "b", "policy", 1);
    assert map["a" := Metadata(1, 1)] - {"a"} == map[];
    stale := b.acc.counts[1];
    mean := b.OptimStep("b");
  }
}

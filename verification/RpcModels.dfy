/** Registered models on the processes of a distributed backend.  `create_model` is broadcast, `delete_model` is
    not: what that does to the replicas, and to the slots of models created later. */
module RpcModels {
  import opened Slots
  import opened Rpc
  import opened RpcLockstep

  /** The backend's methods, as far as they register models: creating takes the least free slot or fails, deleting
      an unknown model fails and changes nothing, and no other method touches the registry. */
  ghost predicate RegistersModels(w: World, max: nat, maxRank: int) {
    && (forall p, k, id, role, rank, b: Replica ::
          var (o, after) := w.run(p, k, Create(id, role, rank), b);
          var r := CreateResult(b.models, max, maxRank, role, rank);
          after.models == AfterCreate(b.models, id, rank, r) && (o.Success? <==> r.Slot?))
    && (forall p, k, id, b: Replica ::
          var (o, after) := w.run(p, k, Delete(id), b);
          after.models == b.models - {id} && (o.Success? <==> id in b.models) && (id !in b.models ==> after == b))
    && (forall p, k, payload, b: Replica :: w.run(p, k, Other(payload), b).1.models == b.models)
  }

  function RunRegistry(max: nat, maxRank: int, c: Command, b: Replica): (Outcome, Replica) {
    match c
    case Create(id, role, rank) =>
      var r := CreateResult(b.models, max, maxRank, role, rank);
      (if r.Slot? then Success else Failed([67]), b.(models := AfterCreate(b.models, id, rank, r)))
    case Delete(id) => (if id in b.models then Success else Failed([68]), b.(models := b.models - {id}))
    case Other(_) => (Success, b)
  }

  /** There are such backends, deterministic and active everywhere. */
  lemma RegistriesExist(n: nat, max: nat, maxRank: int) returns (w: World)
    requires n > 1
    ensures w.n == n && (forall p :: w.active(p)) && w.start.models == map[]
    ensures Deterministic(w) && RegistersModels(w, max, maxRank)
  {
    w := World(n, p => true, Replica(map[], map[]), (p, k, c) => Success,
               (p, k, c, b) => RunRegistry(max, maxRank, c, b));
  }

  predicate WellRegistered(models: map<string, Metadata>, max: nat) {
    max >= 1 && Injective(models) && Reserved0(models, max)
  }

  /** An unbroadcast delete_model keeps process 0 equal to an active worker if and only if the model is not
      registered: the guard with which the method refuses. */
  lemma UnbroadcastDelete(w: World, r: Run, max: nat, maxRank: int, id: string, p: nat)
    requires IsRun(w, r) && Deterministic(w) && OnlyBroadcasts(r, |r.events|) && RegistersModels(w, max, maxRank)
    requires 0 < p < w.n && w.active(p) && Enabled(w, r.states[|r.events|], Local(Delete(id)))
    ensures var x, before := Extended(w, r, Local(Delete(id))), r.states[|r.events|].ps;
      var after := x.states[|x.events|].ps;
      && IsRun(w, x) && |before| == |after| == w.n && before[0].replica == before[p].replica
      && (after[0].replica == after[p].replica <==> id !in before[0].replica.models)
  {
    AfterLocal(w, r, Delete(id), p);
  }

  // ---------------------------------------------------------------- the next command

  /** From a state in which a process has done d commands: what it has done with command d since. */
  ghost predicate Did(w: World, p: nat, before: Process, s: State)
    requires p < |s.ps|
  {
    var q, d := s.ps[p], |before.did|;
    && |q.did| >= d
    && (|q.did| == d ==> q.replica == before.replica)
    && (|q.did| > d ==> |s.sent| > d && q.did[d] == Effect(w, p, d, s.sent[d], before.replica).0)
    && (|q.did| == d + 1 ==> q.replica == Effect(w, p, d, s.sent[d], before.replica).1)
  }

  lemma DidStep(w: World, s: State, e: Event, p: nat, before: Process)
    requires Inv(w, s) && Enabled(w, s, e) && p < w.n && Did(w, p, before, s) && !(e.Local? && p == 0)
    ensures p < |Next(w, s, e).ps| && Did(w, p, before, Next(w, s, e))
  {
    if e == Execute(p) {
      ExecutedNext(w, s, p);
    } else {
      SameHistory(w, s, e, p);
    }
  }

  lemma {:induction false} NextCommand(w: World, r: Run, i: nat, j: nat, p: nat)
    requires IsRun(w, r) && i <= j < |r.states| && p < w.n
    requires p == 0 ==> forall k | i <= k < j :: !r.events[k].Local?
    ensures |r.states[i].ps| == |r.states[j].ps| == w.n && Did(w, p, r.states[i].ps[p], r.states[j])
    decreases j
  {
    InvRun(w, r, i);
    if i == j {
    } else {
      NextCommand(w, r, i, j - 1, p);
      InvRun(w, r, j - 1);
      assert StepAt(w, r, j - 1);
      DidStep(w, r.states[j - 1], r.events[j - 1], p, r.states[i].ps[p]);
    }
  }

  /** Every replica's registry stays well-formed: distinct slots above the reserved one. */
  lemma {:induction false} ReplayRegisters(w: World, p: nat, commands: seq<Command>, max: nat, maxRank: int)
    requires RegistersModels(w, max, maxRank) && WellRegistered(w.start.models, max)
    ensures WellRegistered(Replay(w, p, commands).models, max)
    decreases |commands|
  {
    if commands == [] {
    } else {
      var k := |commands| - 1;
      ReplayRegisters(w, p, commands[..k], max, maxRank);
      RunRegisters(w, p, k, commands[k], Replay(w, p, commands[..k]), max, maxRank);
    }
  }

  lemma RunRegisters(w: World, p: nat, k: nat, c: Command, b: Replica, max: nat, maxRank: int)
    requires RegistersModels(w, max, maxRank) && WellRegistered(b.models, max)
    ensures WellRegistered(Effect(w, p, k, c, b).1.models, max)
  {
    match c
    case Create(id, role, rank) => SlotsKept(b.models, max, maxRank, id, role, rank);
    case Delete(id) => SlotsKept(b.models, max, maxRank, id, "", 0);
    case Other(_) =>
  }

  // ---------------------------------------------------------------- the model created next

  /** Process p has done exactly one command since, and that was this one. */
  predicate DoneNext(s: State, p: nat, d: nat, c: Command) {
    p < |s.ps| && |s.ps[p].did| == d + 1 && d < |s.sent| && s.sent[d] == c
  }

  /** The new model is in the worker's least free slot, and on process 0 in the deleted one exactly when that was
      lower, else in the same. */
  predicate DifferByDeleted(models: map<string, Metadata>, max: nat, id: string, id': string,
                            zero: map<string, Metadata>, worker: map<string, Metadata>)
    requires id in models
  {
    && id' in zero && id' in worker && LeastFree(Used(models), max, worker[id'].slot)
    && (zero[id'].slot != worker[id'].slot <==> models[id].slot < worker[id'].slot)
    && (zero[id'].slot != worker[id'].slot ==> zero[id'].slot == models[id].slot)
  }

  /** After an unbroadcast delete of a registered model the next broadcast create_model succeeds on process 0.  On
      a worker it fails exactly when the registry was full; otherwise the two place the new model in different
      slots exactly when the deleted slot lies below the worker's least free one. */
  lemma NextCreateDiverges(w: World, r: Run, i: nat, j: nat, p: nat, max: nat, maxRank: int,
                           id: string, id': string, rank: int)
    requires IsRun(w, r) && Deterministic(w) && RegistersModels(w, max, maxRank) && WellRegistered(w.start.models, max)
    requires 0 < p < w.n && w.active(p) && 0 < rank <= maxRank
    requires i < j < |r.states| && OnlyBroadcasts(r, i) && r.events[i] == Local(Delete(id))
    requires forall k | i < k < j :: !r.events[k].Local?
    requires |r.states[i].ps| == w.n && id in r.states[i].ps[0].replica.models
    requires var d, c := |r.states[i].ps[0].did|, Create(id', "policy", rank);
      DoneNext(r.states[j], 0, d, c) && DoneNext(r.states[j], p, d, c)
    ensures var models, d := r.states[i].ps[0].replica.models, |r.states[i].ps[0].did|;
      var z, q := r.states[j].ps[0], r.states[j].ps[p];
      && z.did[d].Success? && id' in z.replica.models
      && (q.did[d].Failed? <==> |models| == max - 1)
      && (q.did[d].Success? ==> DifferByDeleted(models, max, id, id', z.replica.models, q.replica.models))
  {
    BeforeLocal(w, r, i, p, max, maxRank, Delete(id));
    NextCommand(w, r, i + 1, j, 0);
    NextCommand(w, r, i, j, p);
    SlotsOfNext(r.states[i].ps[0].replica.models, max, maxRank, id, rank);
  }

  /** Where an unbroadcast call finds process 0 and an active worker, and where it leaves process 0. */
  lemma BeforeLocal(w: World, r: Run, i: nat, p: nat, max: nat, maxRank: int, c: Command)
    requires IsRun(w, r) && Deterministic(w) && RegistersModels(w, max, maxRank) && WellRegistered(w.start.models, max)
    requires 0 < p < w.n && w.active(p) && i < |r.events| && OnlyBroadcasts(r, i) && r.events[i] == Local(c)
    ensures |r.states[i].ps| == |r.states[i + 1].ps| == w.n
    ensures var z, q, after := r.states[i].ps[0], r.states[i].ps[p], r.states[i + 1].ps[0];
      && |z.did| == |q.did| && z.replica == q.replica && WellRegistered(z.replica.models, max) && w.active(0)
      && after.did == z.did && after.replica == w.run(0, |z.did|, c, z.replica).1
  {
    var s := r.states[i];
    assert StepAt(w, r, i);
    InvRun(w, r, i);
    assert ProcessOk(s, 0) && ProcessOk(s, p) && Together(s.ps[0], s.ps[p]) && Together(s.ps[p], s.ps[0]);
    ReplicasAgree(w, r, i, 0, p);
    RunsReplay(w, r, i, 0);
    ReplayRegisters(w, 0, s.sent[..|s.ps[0].did|], max, maxRank);
  }

  /** The next create, with and without the deleted model. */
  lemma SlotsOfNext(models: map<string, Metadata>, max: nat, maxRank: int, id: string, rank: int)
    requires WellRegistered(models, max) && id in models && 0 < rank <= maxRank
    ensures var without, with := CreateResult(models - {id}, max, maxRank, "policy", rank),
                                 CreateResult(models, max, maxRank, "policy", rank);
      && without.Slot? && (with.Slot? <==> |models| != max - 1)
      && (with.Slot? ==> LeastFree(Used(models), max, with.slot)
                         && (without.slot != with.slot <==> models[id].slot < with.slot)
                         && (without.slot != with.slot ==> without.slot == models[id].slot))
  {
    FullExactlyWhen(models, max);
    UsedWithout(models, id);
    SlotsKept(models, max, maxRank, id, "", 0);
    CreatesLeastFree(models - {id}, max);
    if |models| < max - 1 {
      CreatesLeastFree(models, max);
      SlotsDifferExactlyWhen(models, max, id, FirstFree(Used(models - {id}), max, 1), FirstFree(Used(models), max, 1));
    }
  }

  // ---------------------------------------------------------------- a run in which it happens

  predicate Continues(r: Run, r': Run) {
    |r.states| == |r.events| + 1 && |r'.states| == |r'.events| + 1 && r.events <= r'.events && r.states <= r'.states
  }

  /** Any run can be continued by the protocol alone until nothing is in progress. */
  lemma {:induction false} ToRest(w: World, r: Run) returns (r': Run)
    requires IsRun(w, r)
    ensures IsRun(w, r') && Continues(r, r') && Quiescent(r'.states[|r'.events|])
    ensures forall k | |r.events| <= k < |r'.events| :: Internal(r'.events[k])
    decreases Work(w, r.states[|r.events|])
  {
    var s := r.states[|r.events|];
    InvRun(w, r, |r.events|);
    WorkNonNegative(w, s, w.n);
    if Quiescent(s) {
      r' := r;
    } else {
      var e := NoDeadlock(w, r, |r.events|);
      ExtendedIsRun(w, r, e);
      WorkBelowStep(w, s, e, w.n);
      var x := Extended(w, r, e);
      InvRun(w, x, |x.events|);
      WorkNonNegative(w, x.states[|x.events|], w.n);
      assert Internal(x.events[|r.events|]);
      r' := ToRest(w, x);
    }
  }

  /** At rest every process has done every command. */
  lemma AtRestAllDone(w: World, r: Run, p: nat)
    requires IsRun(w, r) && p < w.n && Quiescent(r.states[|r.events|])
    ensures var s := r.states[|r.events|]; |s.ps| == w.n && |s.ps[p].did| == |s.sent| && s.ps[0].pc.Idle?
  {
    InvRun(w, r, |r.events|);
    var s := r.states[|r.events|];
    assert ProcessOk(s, p) && ProcessOk(s, 0) && Together(s.ps[p], s.ps[0]) && Together(s.ps[0], s.ps[p]);
  }

  /** One broadcast call, carried through. */
  lemma Broadcast(w: World, r: Run, c: Command) returns (r': Run)
    requires IsRun(w, r) && r.states[|r.events|].ps != [] && r.states[|r.events|].ps[0].pc.Idle?
    ensures IsRun(w, r') && Continues(r, r') && Quiescent(r'.states[|r'.events|]) && |r'.events| > |r.events|
    ensures forall k | |r.events| <= k < |r'.events| :: !r'.events[k].Local?
    ensures r'.states[|r'.events|].sent == r.states[|r.events|].sent + [c]
  {
    InvRun(w, r, |r.events|);
    ExtendedIsRun(w, r, Call(c));
    var x := Extended(w, r, Call(c));
    r' := ToRest(w, x);
    SentKept(w, r', |x.events|, |r'.events|);
  }

  lemma {:induction false} SentKept(w: World, r: Run, i: nat, j: nat)
    requires IsRun(w, r) && NoNewCalls(r, i, j)
    ensures r.states[j].sent == r.states[i].sent
    decreases j
  {
    if i == j {
    } else {
      SentKept(w, r, i, j - 1);
      assert StepAt(w, r, j - 1);
    }
  }

  /** Whatever the processes and their number: a model is created, deleted without a broadcast, and another one
      created; process 0 puts it in slot 1 and every active worker in slot 2. */
  lemma DeleteModelDiverges(w: World, max: nat, maxRank: int, p: nat) returns (r: Run)
    requires w.n > 1 && w.active(0) && 0 < p < w.n && w.active(p) && Deterministic(w)
    requires RegistersModels(w, max, maxRank) && w.start.models == map[] && max >= 3 && maxRank >= 1
    ensures IsRun(w, r) && Quiescent(r.states[|r.events|])
    ensures var s := r.states[|r.events|];
      && s.sent == [Create("a", "policy", 1), Create("b", "policy", 1)] && |s.ps| == w.n
      && "b" in s.ps[0].replica.models && s.ps[0].replica.models["b"].slot == 1
      && "b" in s.ps[p].replica.models && s.ps[p].replica.models["b"].slot == 2
    ensures exists i :: 0 <= i < |r.events| && r.events[i] == Local(Delete("a"))
  {
    var a, b := Create("a", "policy", 1), Create("b", "policy", 1);
    var start := Run([Init(w)], []);
    var created := Broadcast(w, start, a);
    var i := |created.events|;
    AtRestAllDone(w, created, 0);
    FirstCreated(w, created, max, maxRank);
    ExtendedIsRun(w, created, Local(Delete("a")));
    var deleted := Extended(w, created, Local(Delete("a")));
    r := Broadcast(w, deleted, b);
    AtRestAllDone(w, r, 0);
    AtRestAllDone(w, r, p);
    assert r.events[i] == deleted.events[i] == Local(Delete("a"));
    assert r.states[i] == created.states[i];
    assert deleted.states[i + 1].sent == created.states[i].sent == [a];
    NextCreateDiverges(w, r, i, |r.events|, p, max, maxRank, "a", "b", 1);
    SlotTwo(map["a" := Metadata(1, 1)], max, r.states[|r.events|].ps[p].replica.models["b"].slot);
  }

  lemma SlotTwo(models: map<string, Metadata>, max: nat, slot: nat)
    requires models == map["a" := Metadata(1, 1)] && LeastFree(Used(models), max, slot)
    ensures slot == 2
  {
    assert 1 in Used(models) by {
      assert models["a"].slot == 1;
    }
    assert 2 !in Used(models);
  }

  /** The first model of all is in slot 1. */
  lemma FirstCreated(w: World, r: Run, max: nat, maxRank: int)
    requires IsRun(w, r) && OnlyBroadcasts(r, |r.events|) && w.active(0) && RegistersModels(w, max, maxRank)
    requires w.start.models == map[] && max >= 2 && maxRank >= 1
    requires var s := r.states[|r.events|]; s.sent == [Create("a", "policy", 1)] && |s.ps| == w.n && |s.ps[0].did| == 1
    ensures r.states[|r.events|].ps[0].replica.models == map["a" := Metadata(1, 1)]
  {
    RunsReplay(w, r, |r.events|, 0);
    var s := r.states[|r.events|];
    assert s.sent[..1] == s.sent && s.sent[..0] == [];
    assert Used(w.start.models) == {};
  }
}

/** What the broadcast/acknowledge protocol guarantees over every interleaving of its processes. */
module RpcLockstep {
  import opened Rpc

  // ---------------------------------------------------------------- lockstep

  /** Acknowledgement counters never differ by more than one. */
  lemma CountersAgree(w: World, r: Run, k: nat, p: nat, q: nat)
    requires IsRun(w, r) && k < |r.states| && p < w.n && q < w.n
    ensures var s := r.states[k]; |s.ps| == w.n && -1 <= s.ps[p].sequence - s.ps[q].sequence <= 1
  {
    InvRun(w, r, k);
    var s := r.states[k];
    assert ProcessOk(s, p) && ProcessOk(s, q);
    assert Together(s.ps[p], s.ps[q]) && Together(s.ps[q], s.ps[p]);
  }

  /** No key is written twice, and slot (i, p) only ever holds what process p had to say about command i. */
  lemma SlotsAreOwn(w: World, r: Run, k: nat, i: nat, p: nat)
    requires IsRun(w, r) && k < |r.states| && p < w.n
    ensures |r.states[k].ps| == w.n && !r.states[k].ps[p].pc.Clashed?
    ensures (i, p) in r.states[k].store ==>
      i < |r.states[k].ps[p].did| && r.states[k].store[(i, p)] == Encode(r.states[k].ps[p].did[i])
  {
    InvRun(w, r, k);
    assert ProcessOk(r.states[k], p);
  }

  /** While process 0 collects command i, every process's slot for i is there: no read blocks. */
  lemma ReadsNeverBlock(w: World, r: Run, k: nat)
    requires IsRun(w, r) && k < |r.states| && |r.states[k].ps| == w.n && r.states[k].ps[0].pc.Reading?
    ensures Enabled(w, r.states[k], Read) || Enabled(w, r.states[k], Return)
  {
    InvRun(w, r, k);
    var s := r.states[k];
    assert ProcessOk(s, 0);
    if s.ps[0].pc.next < w.n {
      assert ProcessOk(s, s.ps[0].pc.next);
    }
  }

  // ---------------------------------------------------------------- error exactness

  datatype CallResult = Returned | RaisedLocal(trace: Trace) | RaisedCombined(failing: set<nat>)

  /** How process 0's call ends. */
  function Result(a: Answer): CallResult {
    if a.local.Failed? then RaisedLocal(a.local.trace)
    else if a.errors != map[] then RaisedCombined(a.errors.Keys)
    else Returned
  }

  ghost predicate AllSucceeded(s: State, k: nat) {
    forall p | 0 <= p < |s.ps| :: k < |s.ps[p].did| && s.ps[p].did[k].Success?
  }

  /** Call k returns normally if and only if command k succeeded on every process; its error map has exactly the
      failing processes as keys, each with the first 16 KiB of its trace. */
  lemma ErrorsExact(w: World, r: Run, j: nat, k: nat)
    requires IsRun(w, r) && j < |r.states| && k < |r.states[j].answers|
    ensures var s := r.states[j]; var a := s.answers[k];
      && |s.ps| == w.n && (forall p | 0 <= p < w.n :: k < |s.ps[p].did|)
      && (Result(a).Returned? <==> AllSucceeded(s, k))
      && (forall p: nat :: p in a.errors <==> p < w.n && s.ps[p].did[k].Failed?)
      && (forall p: nat | p in a.errors ::
            var trace := s.ps[p].did[k].trace; a.errors[p] == if |trace| <= 16384 then trace else trace[..16384])
      && (Result(a).RaisedLocal? <==> s.ps[0].did[k].Failed?)
      && (Result(a).RaisedLocal? ==> 0 in a.errors && Result(a).trace == s.ps[0].did[k].trace)
      && (Result(a).RaisedCombined? ==> Result(a).failing == a.errors.Keys)
  {
    InvRun(w, r, j);
    var s := r.states[j];
    var a := s.answers[k];
    assert AnswerOk(s, k);
    assert ErrorsOf(s.ps, k, |s.ps|, a.errors);
    if AllSucceeded(s, k) {
      assert forall p: nat :: p !in a.errors;
      assert a.errors == map[];
    } else {
      var p :| 0 <= p < |s.ps| && !(k < |s.ps[p].did| && s.ps[p].did[k].Success?);
      assert p in a.errors;
    }
  }

  // ---------------------------------------------------------------- deadlock freedom and termination

  predicate Internal(e: Event) {
    !e.Call? && !e.Local?
  }

  /** Nothing is in progress: process 0 is between calls and every worker waits for the next broadcast. */
  ghost predicate Quiescent(s: State) {
    s.ps != [] && s.ps[0].pc.Idle? && forall p | 0 < p < |s.ps| :: s.ps[p].pc.InBroadcast?
  }

  predicate FreeToMove(p: nat, q: Process) {
    q.pc.HasCommand? || q.pc.Executed? || q.pc.Written? || q.pc.Reading? || (p != 0 && q.pc.Idle?)
  }

  lemma FreeMoves(w: World, s: State, p: nat) returns (e: Event)
    requires Inv(w, s) && p < w.n && FreeToMove(p, s.ps[p])
    ensures Internal(e) && Enabled(w, s, e)
  {
    assert ProcessOk(s, p);
    match s.ps[p].pc
    case HasCommand(_) => e := Execute(p);
    case Executed(_) => e := Acknowledge(p);
    case Written(_) => e := Arrive(p);
    case Idle => e := Enter(p);
    case Reading(_, i, _) =>
      assert p == 0;
      if i < w.n {
        assert ProcessOk(s, i);
        e := Read;
      } else {
        e := Return;
      }
  }

  /** If some process waits at a barrier, one that has not arrived can receive its broadcast, or all have arrived. */
  lemma WaitingMoves(w: World, s: State, q: nat) returns (e: Event)
    requires Inv(w, s) && q < w.n && s.ps[q].pc.Waiting?
    requires forall p | 0 <= p < w.n :: !FreeToMove(p, s.ps[p])
    ensures Internal(e) && Enabled(w, s, e)
  {
    assert ProcessOk(s, q);
    var slot := s.ps[q].pc.slot;
    if forall i: nat | i < w.n :: (slot, i) in s.arrived {
      e := Leave(q);
    } else {
      var p: nat :| p < w.n && (slot, p) !in s.arrived;
      assert ProcessOk(s, p) && Together(s.ps[q], s.ps[p]) && Together(s.ps[p], s.ps[q]);
      assert s.ps[p].pc.InBroadcast? && Round(s.ps[p]) == Round(s.ps[q]);
      e := Receive(p);
      forall i | 0 <= i < w.n ensures s.ps[i].entered >= s.ps[p].entered {
        assert ProcessOk(s, i) && Together(s.ps[q], s.ps[i]) && Together(s.ps[i], s.ps[q]);
      }
    }
  }

  lemma BroadcastMoves(w: World, s: State) returns (e: Event)
    requires Inv(w, s) && forall p | 0 <= p < w.n :: s.ps[p].pc.InBroadcast?
    ensures Internal(e) && Enabled(w, s, e)
  {
    e := Receive(0);
    assert ProcessOk(s, 0);
    forall i | 0 <= i < w.n ensures s.ps[i].entered >= s.ps[0].entered {
      assert ProcessOk(s, i) && Together(s.ps[0], s.ps[i]) && Together(s.ps[i], s.ps[0]);
    }
  }

  /** Unless nothing is in progress, some process can take a step, whatever failed and whoever is inactive. */
  lemma NoDeadlock(w: World, r: Run, k: nat) returns (e: Event)
    requires IsRun(w, r) && k < |r.states| && !Quiescent(r.states[k])
    ensures Internal(e) && Enabled(w, r.states[k], e)
  {
    InvRun(w, r, k);
    e := SomeMove(w, r.states[k]);
  }

  lemma SomeMove(w: World, s: State) returns (e: Event)
    requires Inv(w, s) && !Quiescent(s)
    ensures Internal(e) && Enabled(w, s, e)
  {
    if p: nat :| p < w.n && FreeToMove(p, s.ps[p]) {
      e := FreeMoves(w, s, p);
    } else if q: nat :| q < w.n && s.ps[q].pc.Waiting? {
      e := WaitingMoves(w, s, q);
    } else {
      forall p | 0 <= p < w.n ensures s.ps[p].pc.InBroadcast? || (p == 0 && s.ps[p].pc.Idle?) {
        assert ProcessOk(s, p);
      }
      e := BroadcastMoves(w, s);
    }
  }

  /** Steps process p has left until nothing is in progress. */
  function Left(w: World, sent: nat, p: nat, q: Process): int {
    if p != 0 then 6 * sent + 1 - 6 * Round(q) - Stage(q)
    else match q.pc
         case Idle => 0
         case Reading(_, i, _) => w.n - i + 1
         case _ => 6 - Stage(q) + w.n + 1
  }

  function WorkBelow(w: World, s: State, i: nat): int
    requires i <= |s.ps|
  {
    if i == 0 then 0 else WorkBelow(w, s, i - 1) + Left(w, |s.sent|, i - 1, s.ps[i - 1])
  }

  function Work(w: World, s: State): int {
    WorkBelow(w, s, |s.ps|)
  }

  lemma LeftStep(w: World, s: State, e: Event)
    requires Inv(w, s) && Enabled(w, s, e) && Internal(e)
    ensures Left(w, |s.sent|, Actor(e), Moved(w, s, e)) == Left(w, |s.sent|, Actor(e), s.ps[Actor(e)]) - 1
  {
    assert ProcessOk(s, Actor(e));
    MovedOk(w, s, e);
  }

  lemma {:induction false} WorkBelowStep(w: World, s: State, e: Event, i: nat)
    requires Inv(w, s) && Enabled(w, s, e) && Internal(e) && i <= w.n
    ensures WorkBelow(w, Next(w, s, e), i) == WorkBelow(w, s, i) - if Actor(e) < i then 1 else 0
  {
    if i == 0 {
    } else {
      WorkBelowStep(w, s, e, i - 1);
      if Actor(e) == i - 1 {
        LeftStep(w, s, e);
      }
    }
  }

  lemma LeftNonNegative(w: World, s: State, p: nat)
    requires Inv(w, s) && p < w.n
    ensures Left(w, |s.sent|, p, s.ps[p]) >= 0
    ensures p == 0 && Left(w, |s.sent|, p, s.ps[p]) == 0 ==> s.ps[p].pc.Idle?
    ensures p != 0 && Left(w, |s.sent|, p, s.ps[p]) == 0 ==> s.ps[p].pc.InBroadcast?
  {
    assert ProcessOk(s, p) && ProcessOk(s, 0);
    assert Together(s.ps[p], s.ps[0]) && Together(s.ps[0], s.ps[p]);
  }

  lemma {:induction false} WorkNonNegative(w: World, s: State, i: nat)
    requires Inv(w, s) && i <= w.n
    ensures WorkBelow(w, s, i) >= 0
    ensures WorkBelow(w, s, i) == 0 ==> forall p | 0 <= p < i :: Left(w, |s.sent|, p, s.ps[p]) == 0
  {
    if i == 0 {
    } else {
      WorkNonNegative(w, s, i - 1);
      LeftNonNegative(w, s, i - 1);
    }
  }

  ghost predicate NoNewCalls(r: Run, i: nat, j: nat) {
    i <= j <= |r.events| && forall k | i <= k < j :: Internal(r.events[k])
  }

  /** Every internal step brings the protocol exactly one step closer to rest. */
  lemma {:induction false} WorkShrinks(w: World, r: Run, i: nat, j: nat)
    requires IsRun(w, r) && NoNewCalls(r, i, j)
    ensures Work(w, r.states[j]) == Work(w, r.states[i]) - (j - i)
    decreases j
  {
    if i == j {
    } else {
      WorkShrinks(w, r, i, j - 1);
      InvRun(w, r, j - 1);
      assert StepAt(w, r, j - 1) && Internal(r.events[j - 1]);
      WorkBelowStep(w, r.states[j - 1], r.events[j - 1], w.n);
    }
  }

  /** From any reachable state, whatever the order of the processes' steps, the protocol comes to rest after
      exactly Work steps, and then every command broadcast so far has been answered on process 0. */
  lemma CallsComplete(w: World, r: Run, i: nat, j: nat)
    requires IsRun(w, r) && NoNewCalls(r, i, j)
    ensures j - i <= Work(w, r.states[i])
    ensures j - i == Work(w, r.states[i]) ==> Quiescent(r.states[j]) && |r.states[j].answers| == |r.states[j].sent|
    ensures j - i < Work(w, r.states[i]) ==> exists e :: Internal(e) && Enabled(w, r.states[j], e)
  {
    InvRun(w, r, j);
    WorkShrinks(w, r, i, j);
    var s := r.states[j];
    WorkNonNegative(w, s, w.n);
    assert ProcessOk(s, 0);
    if j - i == Work(w, r.states[i]) {
      forall p | 0 <= p < w.n ensures if p == 0 then s.ps[p].pc.Idle? else s.ps[p].pc.InBroadcast? {
        LeftNonNegative(w, s, p);
      }
    } else {
      if Quiescent(s) {
        AtRestNoWork(w, s, w.n);
      }
      var e := SomeMove(w, s);
    }
  }

  lemma {:induction false} AtRestNoWork(w: World, s: State, i: nat)
    requires Inv(w, s) && Quiescent(s) && i <= w.n
    ensures WorkBelow(w, s, i) == 0
  {
    if i == 0 {
    } else {
      AtRestNoWork(w, s, i - 1);
      assert ProcessOk(s, i - 1) && ProcessOk(s, 0);
      assert Together(s.ps[i - 1], s.ps[0]) && Together(s.ps[0], s.ps[i - 1]);
    }
  }

  // ---------------------------------------------------------------- replicas

  /** The replica of process p after the commands. */
  function Replay(w: World, p: nat, commands: seq<Command>): Replica {
    if commands == [] then w.start
    else
      var k := |commands| - 1;
      Effect(w, p, k, commands[k], Replay(w, p, commands[..k])).1
  }

  ghost predicate Replayed(w: World, s: State, p: nat)
    requires p < |s.ps|
  {
    var q := s.ps[p];
    && |q.did| <= |s.sent| && q.replica == Replay(w, p, s.sent[..|q.did|])
    && forall k: nat | k < |q.did| :: q.did[k] == Effect(w, p, k, s.sent[k], Replay(w, p, s.sent[..k])).0
  }

  lemma ReplayedStep(w: World, s: State, e: Event, p: nat)
    requires Inv(w, s) && Enabled(w, s, e) && p < w.n && Replayed(w, s, p)
    requires !(e.Local? && p == 0)
    ensures Replayed(w, Next(w, s, e), p)
  {
    if e == Execute(p) {
      ReplayedExecute(w, s, p);
    } else {
      SameHistory(w, s, e, p);
      ReplayedKept(w, s, Next(w, s, e), p);
    }
  }

  lemma SameHistory(w: World, s: State, e: Event, p: nat)
    requires Inv(w, s) && Enabled(w, s, e) && p < w.n && e != Execute(p) && !(e.Local? && p == 0)
    ensures var t := Next(w, s, e);
      p < |t.ps| && t.ps[p].did == s.ps[p].did && t.ps[p].replica == s.ps[p].replica && s.sent <= t.sent
  {
  }

  lemma ReplayedKept(w: World, s: State, t: State, p: nat)
    requires p < |s.ps| && p < |t.ps| && Replayed(w, s, p)
    requires t.ps[p].did == s.ps[p].did && t.ps[p].replica == s.ps[p].replica && s.sent <= t.sent
    ensures Replayed(w, t, p)
  {
    forall k: nat | k <= |s.sent| ensures t.sent[..k] == s.sent[..k] {
      assert t.sent[..|s.sent|] == s.sent;
    }
  }

  lemma ReplayedExecute(w: World, s: State, p: nat)
    requires Inv(w, s) && Enabled(w, s, Execute(p)) && p < w.n && Replayed(w, s, p)
    ensures Replayed(w, Next(w, s, Execute(p)), p)
  {
    ExecutedNext(w, s, p);
    var t, k := Next(w, s, Execute(p)), |s.ps[p].did|;
    assert s.sent[..k + 1][..k] == s.sent[..k];
    assert t.ps[p].replica == Replay(w, p, s.sent[..k + 1]);
    forall j: nat | j < k + 1 ensures t.ps[p].did[j] == Effect(w, p, j, s.sent[j], Replay(w, p, s.sent[..j])).0 {
      assert j < k ==> t.ps[p].did[j] == s.ps[p].did[j];
    }
  }

  /** A process executes the broadcast command its number says. */
  lemma ExecutedNext(w: World, s: State, p: nat)
    requires Inv(w, s) && Enabled(w, s, Execute(p)) && p < w.n
    ensures var q, t := s.ps[p], Next(w, s, Execute(p));
      && |q.did| < |s.sent| && t.sent == s.sent && |t.ps| == |s.ps|
      && t.ps[p].did == q.did + [Effect(w, p, |q.did|, s.sent[|q.did|], q.replica).0]
      && t.ps[p].replica == Effect(w, p, |q.did|, s.sent[|q.did|], q.replica).1
  {
    assert ProcessOk(s, p);
  }

  ghost predicate OnlyBroadcasts(r: Run, k: nat) {
    k <= |r.events| && forall i | 0 <= i < k :: !r.events[i].Local?
  }

  /** Every worker has run exactly the broadcast commands, in order; so has process 0 as long as it made no call
      without a broadcast. */
  lemma {:induction false} RunsReplay(w: World, r: Run, k: nat, p: nat)
    requires IsRun(w, r) && k < |r.states| && p < w.n && (p == 0 ==> OnlyBroadcasts(r, k))
    ensures |r.states[k].ps| == w.n && Replayed(w, r.states[k], p)
  {
    if k == 0 {
    } else {
      RunsReplay(w, r, k - 1, p);
      InvRun(w, r, k - 1);
      assert StepAt(w, r, k - 1);
      ReplayedStep(w, r.states[k - 1], r.events[k - 1], p);
    }
  }

  /** Active processes prepare every call and run it alike. */
  ghost predicate Deterministic(w: World) {
    && (forall p, k, c | w.active(p) :: w.prepare(p, k, c) == Success)
    && (forall p, q, k, c, r | w.active(p) && w.active(q) :: w.run(p, k, c, r) == w.run(q, k, c, r))
  }

  lemma {:induction false} SameReplay(w: World, p: nat, q: nat, commands: seq<Command>)
    requires Deterministic(w) && w.active(p) && w.active(q)
    ensures Replay(w, p, commands) == Replay(w, q, commands)
    decreases |commands|
  {
    if commands == [] {
    } else {
      SameReplay(w, p, q, commands[..|commands| - 1]);
    }
  }

  /** Active replicas that have executed equally many commands are equal, in particular whenever both have
      acknowledged the same one, provided process 0 only made broadcast calls. */
  lemma ReplicasAgree(w: World, r: Run, k: nat, p: nat, q: nat)
    requires IsRun(w, r) && k < |r.states| && p < w.n && q < w.n && w.active(p) && w.active(q)
    requires Deterministic(w) && OnlyBroadcasts(r, k)
    ensures |r.states[k].ps| == w.n
    ensures var a, b := r.states[k].ps[p], r.states[k].ps[q];
      && (|a.did| == |b.did| ==> a.replica == b.replica)
      && forall i | 0 <= i < |a.did| && i < |b.did| :: a.did[i] == b.did[i]
  {
    RunsReplay(w, r, k, p);
    RunsReplay(w, r, k, q);
    var s := r.states[k];
    SameReplay(w, p, q, s.sent[..|s.ps[p].did|]);
    forall i: nat | i < |s.ps[p].did| && i < |s.ps[q].did| ensures s.ps[p].did[i] == s.ps[q].did[i] {
      SameReplay(w, p, q, s.sent[..i]);
    }
  }

  /** An inactive coordinator's calls all fail, with process 0 in the error map, while active workers still run
      the command. */
  lemma InactiveCoordinatorFails(w: World, r: Run, j: nat, k: nat)
    requires IsRun(w, r) && j < |r.states| && k < |r.states[j].answers| && !w.active(0)
    ensures Result(r.states[j].answers[k]) == RaisedLocal(InactiveCoordinator)
  {
    NoLocalWhenInactive(w, r, j);
    RunsReplay(w, r, j, 0);
    InvRun(w, r, j);
    assert AnswerOk(r.states[j], k);
  }

  lemma {:induction false} InactiveReplay(w: World, p: nat, commands: seq<Command>)
    requires p != 0 && !w.active(p)
    ensures Replay(w, p, commands) == w.start
    decreases |commands|
  {
    if commands == [] {
    } else {
      InactiveReplay(w, p, commands[..|commands| - 1]);
    }
  }

  /** An inactive worker acknowledges every command without an error and without running it, so no call ever blames
      it. */
  lemma InactiveWorkersAreSilent(w: World, r: Run, j: nat, p: nat)
    requires IsRun(w, r) && j < |r.states| && 0 < p < w.n && !w.active(p)
    ensures var s := r.states[j];
      && |s.ps| == w.n && s.ps[p].replica == w.start
      && (forall k | 0 <= k < |s.ps[p].did| :: s.ps[p].did[k].Success?)
      && (forall k | 0 <= k < |s.answers| :: p !in s.answers[k].errors)
  {
    InvRun(w, r, j);
    RunsReplay(w, r, j, p);
    var s := r.states[j];
    InactiveReplay(w, p, s.sent[..|s.ps[p].did|]);
    forall k | 0 <= k < |s.answers| ensures p !in s.answers[k].errors {
      assert AnswerOk(s, k);
    }
  }

  /** A call returns normally exactly if it succeeded on process 0 and on every active worker. */
  lemma ReturnsExactlyWhen(w: World, r: Run, j: nat, k: nat)
    requires IsRun(w, r) && j < |r.states| && k < |r.states[j].answers|
    ensures var s := r.states[j];
      && |s.ps| == w.n && (forall p | 0 <= p < w.n :: k < |s.ps[p].did|)
      && (Result(s.answers[k]).Returned? <==>
            forall p | 0 <= p < w.n && (p == 0 || w.active(p)) :: s.ps[p].did[k].Success?)
  {
    ErrorsExact(w, r, j, k);
    var s := r.states[j];
    forall p | 0 < p < w.n && !w.active(p) ensures s.ps[p].did[k].Success? {
      InactiveWorkersAreSilent(w, r, j, p);
    }
    assert AllSucceeded(s, k) <==> forall p | 0 <= p < w.n :: s.ps[p].did[k].Success?;
  }

  /** What executing a command is: the coordinator refuses when inactive and runs it unprepared otherwise; an
      inactive worker ignores it; an active one that cannot prepare it reports that and does not run it. */
  lemma ExecutesAsSent(w: World, r: Run, k: nat, p: nat)
    requires IsRun(w, r) && k < |r.events| && r.events[k] == Execute(p)
    ensures p < |r.states[k].ps| == |r.states[k + 1].ps| && |r.states[k].ps[p].did| < |r.states[k].sent|
    ensures var q, t := r.states[k].ps[p], r.states[k + 1].ps[p];
      var i := |q.did|;
      var c := r.states[k].sent[i];
      && |t.did| == i + 1 && t.did[..i] == q.did
      && (t.did[i], t.replica) ==
         (if !w.active(p) then (if p == 0 then Failed(InactiveCoordinator) else Success, q.replica)
          else if p > 0 && w.prepare(p, i, c).Failed? then (w.prepare(p, i, c), q.replica)
          else w.run(p, i, c, q.replica))
  {
    InvRun(w, r, k);
    assert StepAt(w, r, k);
    ExecutedNext(w, r.states[k], p);
  }

  lemma NoLocalWhenInactive(w: World, r: Run, k: nat)
    requires IsRun(w, r) && k < |r.states| && !w.active(0)
    ensures OnlyBroadcasts(r, k)
  {
    forall i | 0 <= i < k ensures !r.events[i].Local? {
      assert StepAt(w, r, i);
    }
  }

  // ---------------------------------------------------------------- a call that is not broadcast

  function Extended(w: World, r: Run, e: Event): Run
    requires r.states != [] && Enabled(w, r.states[|r.states| - 1], e)
  {
    Run(r.states + [Next(w, r.states[|r.states| - 1], e)], r.events + [e])
  }

  lemma ExtendedIsRun(w: World, r: Run, e: Event)
    requires IsRun(w, r) && Enabled(w, r.states[|r.events|], e)
    ensures IsRun(w, Extended(w, r, e))
  {
    var x := Extended(w, r, e);
    forall k | 0 <= k < |x.events| ensures StepAt(w, x, k) {
      assert k < |r.events| ==> StepAt(w, r, k);
    }
  }

  /** What a call that process 0 makes without broadcasting it leaves: a worker where it was, equal until then. */
  lemma AfterLocal(w: World, r: Run, c: Command, p: nat)
    requires IsRun(w, r) && Deterministic(w) && OnlyBroadcasts(r, |r.events|) && 0 < p < w.n && w.active(p)
    requires Enabled(w, r.states[|r.events|], Local(c))
    ensures var x, before := Extended(w, r, Local(c)), r.states[|r.events|].ps;
      var after := x.states[|x.events|].ps;
      && IsRun(w, x) && |before| == |after| == w.n && after[p] == before[p] && |before[0].did| == |before[p].did|
      && before[0].replica == before[p].replica && after[0].did == before[0].did
      && after[0].replica == w.run(0, |before[0].did|, c, before[0].replica).1
  {
    ExtendedIsRun(w, r, Local(c));
    InvRun(w, r, |r.events|);
    var s := r.states[|r.events|];
    assert ProcessOk(s, 0) && ProcessOk(s, p) && Together(s.ps[0], s.ps[p]) && Together(s.ps[p], s.ps[0]);
    ReplicasAgree(w, r, |r.events|, 0, p);
  }
}

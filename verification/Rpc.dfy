/** Broadcast and acknowledgement between the processes of one distributed backend, step by step. */
module Rpc {
  import opened Slots

  type Bytes = seq<bv8>

  type Trace = t: Bytes | t != [] witness [0]

  /** A backend call: the two that change which models are registered, and any other as it is sent. */
  datatype Command = Create(id: string, role: string, rank: int) | Delete(id: string) | Other(payload: string)

  /** A process's backend: its registered models, and the rest of its attributes. */
  datatype Replica = Replica(models: map<string, Metadata>, rest: map<string, int>)

  datatype Outcome = Success | Failed(trace: Trace)

  /** The acknowledgement a process writes: a flag byte, and after 1 the start of its trace. */
  const MaxErrorBytes: nat := 16 * 1024

  function Truncated(t: Bytes): Bytes {
    if |t| <= MaxErrorBytes then t else t[..MaxErrorBytes]
  }

  function Encode(o: Outcome): Bytes {
    if o.Success? then [0] else [1] + Truncated(o.trace)
  }

  function Flagged(payload: Bytes): bool {
    payload != [] && payload[0] == 1
  }

  lemma FlaggedIsFailed(o: Outcome)
    ensures Flagged(Encode(o)) <==> o.Failed?
    ensures o.Failed? ==> Encode(o)[1..] == Truncated(o.trace)
  {
  }

  /** The processes: `active` ones hold a backend; `prepare` finds the method and its arguments, `run` is the
      method itself.  Both may depend on the process and on when they are called. */
  datatype World = World(n: nat, active: nat -> bool, start: Replica,
                         prepare: (nat, nat, Command) -> Outcome,
                         run: (nat, nat, Command, Replica) -> (Outcome, Replica))

  const InactiveCoordinator: Trace := [73]

  /** Effect of command number k on process p. */
  function Effect(w: World, p: nat, k: nat, c: Command, r: Replica): (Outcome, Replica) {
    if !w.active(p) then (if p == 0 then Failed(InactiveCoordinator) else Success, r)
    else if p != 0 && w.prepare(p, k, c).Failed? then (w.prepare(p, k, c), r)
    else w.run(p, k, c, r)
  }

  // ---------------------------------------------------------------- states

  datatype Pc =
    | Idle
    | InBroadcast
    | HasCommand(command: Command)
    | Executed(outcome: Outcome)
    | Written(slot: nat)
    | Waiting(slot: nat)
    | Reading(slot: nat, next: nat, errors: map<nat, Bytes>)
    | Clashed

  /** `entered` counts the broadcasts entered, `sequence` is the acknowledgement counter, `did` the outcomes so far. */
  datatype Process = Process(pc: Pc, entered: nat, sequence: nat, did: seq<Outcome>, replica: Replica)

  datatype Answer = Answer(local: Outcome, errors: map<nat, Bytes>)

  /** `store` and `arrived` are the coordination service's keys and barriers; `sent` what process 0 broadcast
      and `answers` what its calls gave. */
  datatype State = State(ps: seq<Process>, sent: seq<Command>, store: map<(nat, nat), Bytes>,
                         arrived: set<(nat, nat)>, answers: seq<Answer>)

  datatype Event =
    | Call(command: Command)
    | Local(command: Command)
    | Enter(p: nat)
    | Receive(p: nat)
    | Execute(p: nat)
    | Acknowledge(p: nat)
    | Arrive(p: nat)
    | Leave(p: nat)
    | Read
    | Return

  function Init(w: World): State {
    State(seq(w.n, p => Process(Idle, 0, 0, [], w.start)), [], map[], {}, [])
  }

  function Actor(e: Event): nat {
    match e
    case Enter(p) => p
    case Receive(p) => p
    case Execute(p) => p
    case Acknowledge(p) => p
    case Arrive(p) => p
    case Leave(p) => p
    case _ => 0
  }

  predicate Enabled(w: World, s: State, e: Event) {
    && |s.ps| == w.n && Actor(e) < w.n
    && var q := s.ps[Actor(e)];
       match e
       case Call(_) => q.pc.Idle?
       case Local(_) => q.pc.Idle? && w.active(0)
       case Enter(p) => p != 0 && q.pc.Idle?
       // A broadcast delivers once every process has entered it.
       case Receive(p) => q.pc.InBroadcast? && 0 < q.entered <= |s.sent|
         && forall r | r in s.ps :: r.entered >= q.entered
       case Execute(_) => q.pc.HasCommand?
       case Acknowledge(_) => q.pc.Executed?
       case Arrive(_) => q.pc.Written?
       case Leave(_) => q.pc.Waiting? && forall i: nat | i < w.n :: (q.pc.slot, i) in s.arrived
       // Reading a slot blocks until it has been written.
       case Read => q.pc.Reading? && q.pc.next < w.n && (q.pc.slot, q.pc.next) in s.store
       case Return => q.pc.Reading? && q.pc.next == w.n && q.did != []
  }

  /** The acting process after the event. */
  function Moved(w: World, s: State, e: Event): Process
    requires Enabled(w, s, e)
  {
    var q := s.ps[Actor(e)];
    match e
    case Call(_) => q.(pc := InBroadcast, entered := q.entered + 1)
    case Local(c) => q.(replica := w.run(0, |q.did|, c, q.replica).1)
    case Enter(_) => q.(pc := InBroadcast, entered := q.entered + 1)
    case Receive(_) => q.(pc := HasCommand(s.sent[q.entered - 1]))
    case Execute(p) =>
      var (o, r) := Effect(w, p, |q.did|, q.pc.command, q.replica);
      q.(pc := Executed(o), did := q.did + [o], replica := r)
    case Acknowledge(p) =>
      // The service refuses to set a key twice.
      if (q.sequence, p) in s.store then q.(pc := Clashed)
      else q.(pc := Written(q.sequence), sequence := q.sequence + 1)
    case Arrive(_) => q.(pc := Waiting(q.pc.slot))
    case Leave(p) => q.(pc := if p == 0 then Reading(q.pc.slot, 0, map[]) else Idle)
    case Read =>
      var payload := s.store[(q.pc.slot, q.pc.next)];
      q.(pc := Reading(q.pc.slot, q.pc.next + 1,
                       if Flagged(payload) then q.pc.errors[q.pc.next := payload[1..]] else q.pc.errors))
    case Return => q.(pc := Idle)
  }

  function Next(w: World, s: State, e: Event): State
    requires Enabled(w, s, e)
  {
    var q := s.ps[Actor(e)];
    var t := s.(ps := s.ps[Actor(e) := Moved(w, s, e)]);
    match e
    case Call(c) => t.(sent := s.sent + [c])
    case Acknowledge(p) =>
      if (q.sequence, p) in s.store then t else t.(store := s.store[(q.sequence, p) := Encode(q.pc.outcome)])
    case Arrive(p) => t.(arrived := s.arrived + {(q.pc.slot, p)})
    case Return => t.(answers := s.answers + [Answer(q.did[|q.did| - 1], q.pc.errors)])
    case _ => t
  }

  datatype Run = Run(states: seq<State>, events: seq<Event>)

  ghost predicate StepAt(w: World, r: Run, k: nat)
    requires k < |r.events| && |r.states| == |r.events| + 1
  {
    Enabled(w, r.states[k], r.events[k]) && r.states[k + 1] == Next(w, r.states[k], r.events[k])
  }

  ghost predicate IsRun(w: World, r: Run) {
    && w.n > 1 && |r.states| == |r.events| + 1 && r.states[0] == Init(w)
    && forall k | 0 <= k < |r.events| :: StepAt(w, r, k)
  }

  // ---------------------------------------------------------------- the invariant

  /** Commands finished: a process is in its next command as soon as it has left the barrier. */
  function Round(q: Process): int {
    if q.pc.Written? || q.pc.Waiting? then q.sequence - 1 else q.sequence
  }

  /** How far a process is within its round. */
  function Stage(q: Process): nat {
    match q.pc
    case Idle => 0
    case Reading(_, _, _) => 0
    case InBroadcast => 1
    case HasCommand(_) => 2
    case Executed(_) => 3
    case Written(_) => 4
    case Waiting(_) => 5
    case Clashed => 6
  }

  predicate CountersFit(sent: seq<Command>, p: nat, q: Process) {
    && !q.pc.Clashed? && (q.pc.Reading? ==> p == 0)
    && q.entered == Round(q) + (if Stage(q) >= 1 then 1 else 0)
    && |q.did| == Round(q) + (if Stage(q) >= 3 then 1 else 0)
    && (p == 0 ==> q.entered == |sent|)
    && (Stage(q) >= 2 ==> q.entered <= |sent|)
    && match q.pc
       case HasCommand(c) => q.entered > 0 && q.entered <= |sent| && c == sent[q.entered - 1]
       case Executed(o) => o == q.did[|q.did| - 1]
       case Written(slot) => q.sequence == slot + 1
       case Waiting(slot) => q.sequence == slot + 1
       case Reading(slot, next, _) => q.sequence == slot + 1
       case _ => true
  }

  /** No process is more than one round ahead of another: it cannot get past a broadcast the other has not
      entered, nor past a barrier at which the other has not arrived. */
  predicate Together(q: Process, r: Process) {
    && Round(q) <= Round(r) + 1
    && (Round(q) == Round(r) && Stage(q) >= 2 ==> Stage(r) >= 1)
    && (Round(q) == Round(r) + 1 ==> Stage(q) <= 1 && Stage(r) == 5)
  }

  ghost predicate SlotsHold(store: map<(nat, nat), Bytes>, p: nat, q: Process)
    requires q.sequence <= |q.did|
  {
    && (forall k: nat :: (k, p) in store <==> k < q.sequence)
    && (forall k: nat | k < q.sequence :: store[(k, p)] == Encode(q.did[k]))
  }

  ghost predicate Arrivals(arrived: set<(nat, nat)>, p: nat, q: Process) {
    forall k: nat :: (k, p) in arrived <==> k < q.sequence && !(q.pc.Written? && k == q.pc.slot)
  }

  ghost predicate ProcessOk(s: State, p: nat)
    requires p < |s.ps|
  {
    && CountersFit(s.sent, p, s.ps[p]) && s.ps[p].sequence <= |s.ps[p].did|
    && SlotsHold(s.store, p, s.ps[p]) && Arrivals(s.arrived, p, s.ps[p])
  }

  /** The errors collected from the first `upto` slots of command k are those of the processes that failed it. */
  ghost predicate ErrorsOf(ps: seq<Process>, k: nat, upto: nat, errors: map<nat, Bytes>) {
    && upto <= |ps| && (forall p | 0 <= p < upto :: k < |ps[p].did|)
    && (forall p: nat :: p in errors <==> p < upto && ps[p].did[k].Failed?)
    && (forall p: nat | p in errors :: errors[p] == Truncated(ps[p].did[k].trace))
  }

  /** Answer k is process 0's own outcome of command k with the errors of all. */
  ghost predicate AnswerOk(s: State, k: nat) {
    k < |s.answers| && s.ps != [] && k < |s.ps[0].did|
    && s.answers[k].local == s.ps[0].did[k] && ErrorsOf(s.ps, k, |s.ps|, s.answers[k].errors)
  }

  ghost predicate AnswersOk(s: State)
    requires s.ps != []
  {
    var z := s.ps[0];
    && |s.answers| == (if z.pc.Reading? then z.sequence - 1 else Round(z))
    && (forall k: nat | k < |s.answers| :: AnswerOk(s, k))
    && (z.pc.Reading? ==> ErrorsOf(s.ps, z.pc.slot, z.pc.next, z.pc.errors))
  }

  ghost predicate InStep(ps: seq<Process>) {
    forall p, r | 0 <= p < |ps| && 0 <= r < |ps| :: Together(ps[p], ps[r])
  }

  ghost predicate Inv(w: World, s: State) {
    && |s.ps| == w.n && w.n > 1
    && (forall p | 0 <= p < |s.ps| :: ProcessOk(s, p))
    && InStep(s.ps) && AnswersOk(s)
  }

  // ---------------------------------------------------------------- every step keeps it

  lemma MovedTogether(w: World, s: State, e: Event, r: nat)
    requires Inv(w, s) && Enabled(w, s, e) && r < w.n && r != Actor(e)
    ensures Together(Moved(w, s, e), s.ps[r]) && Together(s.ps[r], Moved(w, s, e))
  {
    var a := Actor(e);
    var q := s.ps[a];
    assert Together(q, s.ps[r]) && Together(s.ps[r], q);
    assert ProcessOk(s, a) && ProcessOk(s, r);
    match e
    case Receive(_) =>
      assert s.ps[r] in s.ps;
    case Leave(_) =>
      assert (q.pc.slot, r) in s.arrived;
    case _ =>
  }

  lemma MovedOk(w: World, s: State, e: Event)
    requires Inv(w, s) && Enabled(w, s, e)
    ensures ProcessOk(Next(w, s, e), Actor(e))
  {
    assert ProcessOk(s, Actor(e));
    if e.Acknowledge? {
      AcknowledgedOk(w, s, e.p);
    }
  }

  /** A process writes its slot of the next number, which was free. */
  lemma AcknowledgedOk(w: World, s: State, p: nat)
    requires Enabled(w, s, Acknowledge(p)) && ProcessOk(s, p)
    ensures ProcessOk(Next(w, s, Acknowledge(p)), p)
  {
  }

  lemma OthersOk(w: World, s: State, e: Event, p: nat)
    requires Inv(w, s) && Enabled(w, s, e) && p < w.n && p != Actor(e)
    ensures ProcessOk(Next(w, s, e), p)
  {
    assert ProcessOk(s, p);
  }

  lemma ErrorsKept(ps: seq<Process>, qs: seq<Process>, k: nat, upto: nat, errors: map<nat, Bytes>)
    requires ErrorsOf(ps, k, upto, errors) && |qs| == |ps|
    requires forall p | 0 <= p < |ps| :: ps[p].did <= qs[p].did
    ensures ErrorsOf(qs, k, upto, errors)
  {
    assert forall p | 0 <= p < upto :: qs[p].did[k] == ps[p].did[k];
  }

  lemma OneMoreRead(ps: seq<Process>, k: nat, i: nat, errors: map<nat, Bytes>, payload: Bytes)
    requires ErrorsOf(ps, k, i, errors) && i < |ps| && k < |ps[i].did| && payload == Encode(ps[i].did[k])
    ensures ErrorsOf(ps, k, i + 1, if Flagged(payload) then errors[i := payload[1..]] else errors)
  {
    FlaggedIsFailed(ps[i].did[k]);
  }

  lemma DidGrows(w: World, s: State, e: Event)
    requires Inv(w, s) && Enabled(w, s, e)
    ensures var t := Next(w, s, e);
      |t.ps| == |s.ps| && forall p | 0 <= p < |s.ps| :: s.ps[p].did <= t.ps[p].did
  {
  }

  lemma AnswersKept(w: World, s: State, e: Event)
    requires Inv(w, s) && Enabled(w, s, e)
    ensures AnswersOk(Next(w, s, e))
  {
    DidGrows(w, s, e);
    if e.Return? {
      AnswersReturned(w, s);
    } else {
      OldAnswersKept(s, Next(w, s, e));
      if e.Read? {
        ReadExtends(w, s);
      } else {
        CollectedKept(w, s, e);
      }
    }
  }

  lemma OldAnswersKept(s: State, t: State)
    requires s.ps != [] && AnswersOk(s) && |t.ps| == |s.ps| && t.answers == s.answers
    requires forall p | 0 <= p < |s.ps| :: s.ps[p].did <= t.ps[p].did
    ensures forall k: nat | k < |t.answers| :: AnswerOk(t, k)
  {
    forall k: nat | k < |t.answers| ensures AnswerOk(t, k) {
      AnswerKept(s, t, k);
    }
  }

  lemma AnswersReturned(w: World, s: State)
    requires Inv(w, s) && Enabled(w, s, Return)
    ensures AnswersOk(Next(w, s, Return))
  {
    var t, z := Next(w, s, Return), s.ps[0];
    DidGrows(w, s, Return);
    assert ProcessOk(s, 0);
    forall k: nat | k < |t.answers| ensures AnswerOk(t, k) {
      if k < |s.answers| {
        AnswerKept(s, t, k);
      } else {
        ErrorsKept(s.ps, t.ps, z.pc.slot, z.pc.next, z.pc.errors);
      }
    }
  }

  /** What process 0 has collected so far stays right while others go on, and is empty when it starts to read. */
  lemma CollectedKept(w: World, s: State, e: Event)
    requires Inv(w, s) && Enabled(w, s, e) && !e.Return? && !e.Read?
    ensures var z, t := Next(w, s, e).ps[0], Next(w, s, e);
      && |t.answers| == (if z.pc.Reading? then z.sequence - 1 else Round(z))
      && (z.pc.Reading? ==> ErrorsOf(t.ps, z.pc.slot, z.pc.next, z.pc.errors))
  {
    var t, z := Next(w, s, e), s.ps[0];
    DidGrows(w, s, e);
    assert ProcessOk(s, 0);
    if z.pc.Reading? {
      ErrorsKept(s.ps, t.ps, z.pc.slot, z.pc.next, z.pc.errors);
    }
  }

  lemma AnswerKept(s: State, t: State, k: nat)
    requires AnswerOk(s, k) && |t.ps| == |s.ps| && s.answers <= t.answers
    requires forall p | 0 <= p < |s.ps| :: s.ps[p].did <= t.ps[p].did
    ensures AnswerOk(t, k)
  {
    ErrorsKept(s.ps, t.ps, k, |s.ps|, s.answers[k].errors);
  }

  lemma ReadExtends(w: World, s: State)
    requires Inv(w, s) && Enabled(w, s, Read)
    ensures var z := Moved(w, s, Read); ErrorsOf(s.ps, z.pc.slot, z.pc.next, z.pc.errors)
  {
    var z := s.ps[0];
    var i := z.pc.next;
    assert ProcessOk(s, i);
    OneMoreRead(s.ps, z.pc.slot, i, z.pc.errors, s.store[(z.pc.slot, i)]);
  }

  lemma InvStep(w: World, s: State, e: Event)
    requires Inv(w, s) && Enabled(w, s, e)
    ensures Inv(w, Next(w, s, e))
  {
    var t := Next(w, s, e);
    forall p | 0 <= p < |t.ps| ensures ProcessOk(t, p) {
      if p == Actor(e) {
        MovedOk(w, s, e);
      } else {
        OthersOk(w, s, e, p);
      }
    }
    forall p, r | 0 <= p < |t.ps| && 0 <= r < |t.ps| ensures Together(t.ps[p], t.ps[r]) {
      if p != r && p == Actor(e) {
        MovedTogether(w, s, e, r);
      } else if p != r && r == Actor(e) {
        MovedTogether(w, s, e, p);
      }
    }
    AnswersKept(w, s, e);
  }

  lemma {:induction false} InvRun(w: World, r: Run, k: nat)
    requires IsRun(w, r) && k < |r.states|
    ensures Inv(w, r.states[k])
  {
    if k == 0 {
    } else {
      InvRun(w, r, k - 1);
      assert StepAt(w, r, k - 1);
      InvStep(w, r.states[k - 1], r.events[k - 1]);
    }
  }
}

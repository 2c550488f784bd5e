/** Dispatch and recovery of externally served sampling requests, as a step system.

    The API process runs on one event loop, so whatever happens between two awaits is atomic.
    Each `Event` below is one such atomic piece: an API call, one database execute, the death of
    an attempt, its late done-callback, or one piece of a watchdog sweep.  Every interleaving of
    these pieces is a run, and a run may contain any number of restarts.
 */
module ExternalDispatch {

  // ---------------------------------------------------------------- data

  /** Why a row was failed: the attempt said so, or one of the watchdog's two reasons. */
  datatype Cause = ServingError(code: int) | Abandoned | Dropped(attempts: nat)

  /** A row's status together with its result. */
  datatype Status = Pending | Completed(output: int) | Failed(cause: Cause)

  /** An EXTERNAL row of the futures table; `loadable` says its stored request can be replayed. */
  datatype Row = Row(status: Status, created: real, loadable: bool)

  /** A cancelled attempt is not done until its coroutine ends: until then it may still write. */
  datatype Phase = Running | Cancelling | Done

  datatype Task = Task(rid: nat, phase: Phase, born: real)

  /** `ceiling`, `abandon` and `maxRedispatch` are switched off by values <= 0. */
  datatype Config = Config(stale: real, ceiling: real, abandon: real, maxRedispatch: int)

  /** What a database read of a stored request gave. */
  datatype Reading = Unread | Loadable | Gone

  /** Where the watchdog stands; `at` is the time the sweep read its clock. */
  datatype Pc =
    | Idle
    | Scanned(todo: seq<nat>)
    | Visiting(todo: seq<nat>, at: real)
    | Failing(rid: nat, cause: Cause, tries: nat, todo: seq<nat>, at: real)
    | Loading(rid: nat, seen: nat, read: Reading, todo: seq<nat>, at: real)

  /** `swept`, `redispatches` and `exhausted` are history: the time of the last complete sweep and,
      for this process lifetime, each row's re-dispatches and given-up terminal writes. */
  datatype State = State(
    now: real,
    rows: map<nat, Row>,
    tasks: map<nat, Task>,
    inflight: map<nat, nat>,
    started: map<nat, real>,
    attempts: map<nat, nat>,
    pc: Pc,
    swept: real,
    redispatches: map<nat, nat>,
    exhausted: map<nat, nat>)

  datatype Event =
    | Tick(elapsed: real)
    | Insert(rid: nat, loadable: bool)
    | ApiDispatch(rid: nat, tid: nat)
    | AttemptWrite(tid: nat, outcome: Status, raises: bool)
    | TaskEnds(tid: nat)
    | Callback(tid: nat)
    | Scan(ids: seq<nat>)
    | ReadClock
    | Visit
    | FailTry(raises: bool)
    | LoadRead
    | LoadDone(tid: nat)
    | EndSweep
    | SweepAborts
    | AClose

  const WRITE_ATTEMPTS := 3

  function Get(m: map<nat, nat>, k: nat): nat {
    if k in m then m[k] else 0
  }

  // ---------------------------------------------------------------- steps

  /** UPDATE ... WHERE request_id = rid AND status = PENDING. */
  function Update(rows: map<nat, Row>, rid: nat, outcome: Status): map<nat, Row> {
    if rid in rows && rows[rid].status.Pending? then rows[rid := rows[rid].(status := outcome)] else rows
  }

  predicate Live(s: State, rid: nat) {
    rid in s.inflight && s.inflight[rid] in s.tasks && !s.tasks[s.inflight[rid]].phase.Done?
  }

  function Launch(s: State, rid: nat, tid: nat): State {
    s.(tasks := s.tasks[tid := Task(rid, Running, s.now)],
       inflight := s.inflight[rid := tid],
       started := s.started[rid := s.now])
  }

  function TaskDone(s: State, rid: nat, tid: nat): State {
    if rid in s.inflight && s.inflight[rid] == tid
    then s.(inflight := s.inflight - {rid}, started := s.started - {rid})
    else s
  }

  predicate Overdue(cfg: Config, s: State, rid: nat, at: real) {
    cfg.ceiling > 0.0 && at - (if rid in s.started then s.started[rid] else at) > cfg.ceiling
  }

  function Cancel(s: State, rid: nat): State
    requires rid in s.inflight && s.inflight[rid] in s.tasks
  {
    var tid := s.inflight[rid];
    s.(tasks := s.tasks[tid := s.tasks[tid].(phase := Cancelling)],
       inflight := s.inflight - {rid},
       started := s.started - {rid})
  }

  /** `_redispatch` up to its first await: fail the row, or load its stored request. */
  function Redispatch(cfg: Config, attempts: nat, rid: nat, age: real, todo: seq<nat>, at: real): Pc {
    if cfg.abandon > 0.0 && age > cfg.abandon then Failing(rid, Abandoned, 0, todo, at)
    else if cfg.maxRedispatch > 0 && attempts >= cfg.maxRedispatch then Failing(rid, Dropped(attempts), 0, todo, at)
    else Loading(rid, attempts, Unread, todo, at)
  }

  /** One iteration of the sweep loop up to its first await. */
  function VisitRow(cfg: Config, s: State): State
    requires s.pc.Visiting? && s.pc.todo != [] && s.pc.todo[0] in s.rows
  {
    var rid := s.pc.todo[0];
    var age := s.pc.at - s.rows[rid].created;
    var skip := Visiting(s.pc.todo[1..], s.pc.at);
    var redo := Redispatch(cfg, Get(s.attempts, rid), rid, age, s.pc.todo[1..], s.pc.at);
    if Live(s, rid) then
      if Overdue(cfg, s, rid, s.pc.at) then Cancel(s, rid).(pc := redo) else s.(pc := skip)
    else s.(pc := if age < cfg.stale then skip else redo)
  }

  /** One execute of the terminal write issued by `_fail`, and what follows when it was the last. */
  function FailStep(s: State, raises: bool): State
    requires s.pc.Failing?
  {
    var rid := s.pc.rid;
    var next := s.(attempts := s.attempts - {rid}, pc := Visiting(s.pc.todo, s.pc.at));
    if !raises then next.(rows := Update(s.rows, rid, Failed(s.pc.cause)))
    else if s.pc.tries + 1 < WRITE_ATTEMPTS then s.(pc := s.pc.(tries := s.pc.tries + 1))
    else next.(exhausted := s.exhausted[rid := Get(s.exhausted, rid) + 1])
  }

  predicate Replayable(rows: map<nat, Row>, rid: nat) {
    rid in rows && rows[rid].status.Pending? && rows[rid].loadable
  }

  /** The database reads the stored request, some time before `_redispatch` goes on. */
  function ReadRequest(s: State): State
    requires s.pc.Loading?
  {
    s.(pc := s.pc.(read := if Replayable(s.rows, s.pc.rid) then Loadable else Gone))
  }

  /** `_redispatch` from the moment it has the stored request, whatever became of the row since. */
  function LoadStep(s: State, tid: nat): State
    requires s.pc.Loading?
  {
    var rid := s.pc.rid;
    var next := s.(pc := Visiting(s.pc.todo, s.pc.at));
    if s.pc.read.Loadable? then
      Launch(next.(attempts := s.attempts[rid := s.pc.seen + 1],
                   redispatches := s.redispatches[rid := Get(s.redispatches, rid) + 1]), rid, tid)
    else next.(attempts := s.attempts - {rid})
  }

  function CancelAll(tasks: map<nat, Task>, tids: set<nat>): map<nat, Task> {
    map t | t in tasks :: if t in tids && !tasks[t].phase.Done? then tasks[t].(phase := Cancelling) else tasks[t]
  }

  /** Shutdown; the state it leaves is also the state a new process starts from. */
  function Close(s: State): State {
    s.(tasks := CancelAll(s.tasks, s.inflight.Values), inflight := map[], started := map[], attempts := map[],
       pc := Idle, redispatches := map[], exhausted := map[])
  }

  predicate Increasing(ids: seq<nat>) {
    forall i, j | 0 <= i < j < |ids| :: ids[i] < ids[j]
  }

  /** The result of the PENDING query: every pending row, ordered by request id. */
  predicate PendingScan(rows: map<nat, Row>, ids: seq<nat>) {
    && Increasing(ids)
    && (forall rid | rid in ids :: rid in rows && rows[rid].status.Pending?)
    && (forall rid | rid in rows && rows[rid].status.Pending? :: rid in ids)
  }

  predicate Enabled(s: State, e: Event) {
    match e
    case Tick(d) => d >= 0.0
    case Insert(rid, _) => rid !in s.rows
    case ApiDispatch(rid, tid) => rid in s.rows && tid !in s.tasks
    case AttemptWrite(tid, outcome, _) => tid in s.tasks && !s.tasks[tid].phase.Done? && !outcome.Pending?
    case TaskEnds(tid) => tid in s.tasks
    case Callback(tid) => tid in s.tasks && s.tasks[tid].phase.Done?
    case Scan(ids) => s.pc.Idle? && PendingScan(s.rows, ids)
    case ReadClock => s.pc.Scanned?
    case Visit => s.pc.Visiting? && s.pc.todo != [] && s.pc.todo[0] in s.rows
    case FailTry(_) => s.pc.Failing?
    case LoadRead => s.pc.Loading? && s.pc.read.Unread?
    case LoadDone(tid) => s.pc.Loading? && !s.pc.read.Unread? && tid !in s.tasks
    case EndSweep => s.pc.Visiting? && s.pc.todo == []
    case SweepAborts => true
    case AClose => true
  }

  function Apply(cfg: Config, s: State, e: Event): State
    requires Enabled(s, e)
  {
    match e
    case Tick(d) => s.(now := s.now + d)
    case Insert(rid, loadable) => s.(rows := s.rows[rid := Row(Pending, s.now, loadable)])
    case ApiDispatch(rid, tid) => Launch(s, rid, tid)
    case AttemptWrite(tid, outcome, raises) =>
      if raises then s else s.(rows := Update(s.rows, s.tasks[tid].rid, outcome))
    case TaskEnds(tid) => s.(tasks := s.tasks[tid := s.tasks[tid].(phase := Done)])
    case Callback(tid) => TaskDone(s, s.tasks[tid].rid, tid)
    case Scan(ids) => s.(pc := Scanned(ids))
    case ReadClock => s.(pc := Visiting(s.pc.todo, s.now))
    case Visit => VisitRow(cfg, s)
    case FailTry(raises) => FailStep(s, raises)
    case LoadRead => ReadRequest(s)
    case LoadDone(tid) => LoadStep(s, tid)
    case EndSweep => s.(pc := Idle, swept := s.pc.at)
    case SweepAborts => s.(pc := Idle)
    case AClose => Close(s)
  }

  // ---------------------------------------------------------------- runs

  /** A process facing a table that may already hold rows of earlier processes, with no attempts yet. */
  predicate Init(s: State) {
    && s.tasks == map[] && s.inflight == map[] && s.started == map[] && s.attempts == map[]
    && s.redispatches == map[] && s.exhausted == map[]
    && s.pc.Idle? && s.swept == s.now
    && forall rid | rid in s.rows :: s.rows[rid].created <= s.now
  }

  predicate Ok(cfg: Config, s: State, run: seq<Event>)
    decreases |run|, 0
  {
    run == [] || (
      var n := |run| - 1;
      Ok(cfg, s, run[..n]) && Enabled(After(cfg, s, run[..n]), run[n]))
  }

  function After(cfg: Config, s: State, run: seq<Event>): State
    requires Ok(cfg, s, run)
    decreases |run|, 1
  {
    if run == [] then s
    else var n := |run| - 1; Apply(cfg, After(cfg, s, run[..n]), run[n])
  }

  /** Extending a run by one enabled event. */
  lemma OkAppend(cfg: Config, s: State, run: seq<Event>, e: Event)
    requires Ok(cfg, s, run) && Enabled(After(cfg, s, run), e)
    ensures Ok(cfg, s, run + [e])
    ensures After(cfg, s, run + [e]) == Apply(cfg, After(cfg, s, run), e)
  {
    assert (run + [e])[..|run|] == run;
  }

  // ---------------------------------------------------------------- invariant

  /** The watchdog only holds ids of known rows, a past clock reading and a current retry count; and a row whose
      request could not be loaded never will be. */
  predicate PcOk(pc: Pc, rows: map<nat, Row>, attempts: map<nat, nat>, now: real) {
    match pc
    case Idle => true
    case Scanned(todo) => Known(todo, rows)
    case Visiting(todo, at) => Known(todo, rows) && at <= now
    case Failing(rid, _, _, todo, at) => Known(todo, rows) && at <= now && rid in rows
    case Loading(rid, seen, read, todo, at) =>
      && Known(todo, rows) && at <= now && rid in rows && seen == Get(attempts, rid)
      && (read.Gone? ==> !Replayable(rows, rid))
  }

  predicate Known(ids: seq<nat>, rows: map<nat, Row>) {
    forall rid | rid in ids :: rid in rows
  }

  /** An in-flight entry is the current, uncancelled attempt of its row, with its own start time. */
  predicate Tracked(tasks: map<nat, Task>, tid: nat, rid: nat, started: real) {
    tid in tasks && tasks[tid].rid == rid && tasks[tid].born == started && !tasks[tid].phase.Cancelling?
  }

  predicate Tracking(tasks: map<nat, Task>, inflight: map<nat, nat>, started: map<nat, real>) {
    && inflight.Keys == started.Keys
    && forall rid | rid in inflight :: Tracked(tasks, inflight[rid], rid, started[rid])
  }

  /** Attempts belong to known rows, and nothing lies in the future. */
  predicate History(rows: map<nat, Row>, tasks: map<nat, Task>, now: real) {
    && (forall t | t in tasks :: tasks[t].rid in rows && tasks[t].born <= now)
    && (forall rid | rid in rows :: rows[rid].created <= now)
  }

  predicate Inv(s: State) {
    && Tracking(s.tasks, s.inflight, s.started)
    && PcOk(s.pc, s.rows, s.attempts, s.now)
    && History(s.rows, s.tasks, s.now)
    && s.attempts.Keys <= s.rows.Keys
  }

  lemma InvLaunch(s: State, rid: nat, tid: nat)
    requires Inv(s) && rid in s.rows && tid !in s.tasks
    ensures Inv(Launch(s, rid, tid))
  {
    var n := Launch(s, rid, tid);
    forall r | r in n.inflight ensures Tracked(n.tasks, n.inflight[r], r, n.started[r]) {
      assert r == rid || Tracked(s.tasks, s.inflight[r], r, s.started[r]);
    }
  }

  lemma InvCancel(s: State, rid: nat)
    requires Inv(s) && Live(s, rid)
    ensures Inv(Cancel(s, rid))
  {
    var n := Cancel(s, rid);
    assert Tracked(s.tasks, s.inflight[rid], rid, s.started[rid]);
    forall r | r in n.inflight ensures Tracked(n.tasks, n.inflight[r], r, n.started[r]) {
      assert Tracked(s.tasks, s.inflight[r], r, s.started[r]);
    }
  }

  /** A visit touches only the watchdog's place and, when it cancels, the attempt of the visited row. */
  lemma VisitFrame(cfg: Config, s: State)
    requires Enabled(s, Visit)
    ensures var n := VisitRow(cfg, s); var rid := s.pc.todo[0];
      && n == s.(pc := n.pc, tasks := n.tasks, inflight := n.inflight, started := n.started)
      && (n.pc == Visiting(s.pc.todo[1..], s.pc.at)
          || n.pc == Redispatch(cfg, Get(s.attempts, rid), rid, s.pc.at - s.rows[rid].created, s.pc.todo[1..], s.pc.at))
      && ((n.tasks, n.inflight, n.started) == (s.tasks, s.inflight, s.started)
          || (Live(s, rid) && Overdue(cfg, s, rid, s.pc.at) && n.tasks == Cancel(s, rid).tasks
             && n.inflight == s.inflight - {rid} && n.started == s.started - {rid}))
    ensures forall r | r in s.pc.todo :: r == s.pc.todo[0] || r in s.pc.todo[1..]
    ensures forall r | r in s.pc.todo[1..] :: r in s.pc.todo
  {
  }

  lemma InvVisit(cfg: Config, s: State)
    requires Inv(s) && Enabled(s, Visit)
    ensures Inv(VisitRow(cfg, s))
  {
    assert Known(s.pc.todo[1..], s.rows) by {
      assert forall r | r in s.pc.todo[1..] :: r in s.pc.todo;
    }
    if Live(s, s.pc.todo[0]) {
      InvCancel(s, s.pc.todo[0]);
    }
  }

  lemma InvLoad(s: State, tid: nat)
    requires Inv(s) && Enabled(s, LoadDone(tid))
    ensures Inv(LoadStep(s, tid))
  {
    var rid := s.pc.rid;
    if s.pc.read.Loadable? {
      var counted, done := s.attempts[rid := s.pc.seen + 1], s.redispatches[rid := Get(s.redispatches, rid) + 1];
      InvCounted(s, counted, done);
      InvLaunch(s.(pc := Visiting(s.pc.todo, s.pc.at), attempts := counted, redispatches := done), rid, tid);
    } else {
      InvCounted(s, s.attempts - {rid}, s.redispatches);
    }
  }

  /** The watchdog goes on with its next row, with other counts. */
  lemma InvCounted(s: State, attempts: map<nat, nat>, redispatches: map<nat, nat>)
    requires Inv(s) && (s.pc.Loading? || s.pc.Failing?) && attempts.Keys <= s.rows.Keys
    ensures Inv(s.(pc := Visiting(s.pc.todo, s.pc.at), attempts := attempts, redispatches := redispatches))
  {
  }

  /** Rows are never removed, keep their creation time and never become replayable again. */
  predicate Grows(rows: map<nat, Row>, rows': map<nat, Row>) {
    forall rid | rid in rows ::
      && rid in rows' && rows'[rid].created == rows[rid].created
      && (Replayable(rows', rid) ==> Replayable(rows, rid))
  }

  lemma InvRows(s: State, rows': map<nat, Row>)
    requires Inv(s) && Grows(s.rows, rows')
    requires forall rid | rid in rows' :: rows'[rid].created <= s.now
    ensures Inv(s.(rows := rows'))
  {
    assert forall ids | Known(ids, s.rows) :: Known(ids, rows');
  }

  lemma InvFail(s: State, raises: bool)
    requires Inv(s) && s.pc.Failing?
    ensures Inv(FailStep(s, raises))
  {
    var next := s.(attempts := s.attempts - {s.pc.rid}, pc := Visiting(s.pc.todo, s.pc.at));
    InvCounted(s, s.attempts - {s.pc.rid}, s.redispatches);
    InvRows(next, Update(s.rows, s.pc.rid, Failed(s.pc.cause)));
  }

  lemma InvTasks(cfg: Config, s: State, e: Event)
    requires Inv(s) && Enabled(s, e) && (e.Tick? || e.TaskEnds? || e.Callback? || e.AClose?)
    ensures Inv(Apply(cfg, s, e))
  {
  }

  lemma InvStep(cfg: Config, s: State, e: Event)
    requires Inv(s) && Enabled(s, e)
    ensures Inv(Apply(cfg, s, e))
  {
    if e.Insert? || e.AttemptWrite? {
      InvRows(s, Apply(cfg, s, e).rows);
    } else if e.FailTry? {
      InvFail(s, e.raises);
    } else if e.Tick? || e.TaskEnds? || e.Callback? || e.AClose? {
      InvTasks(cfg, s, e);
    } else if e.ApiDispatch? {
      InvLaunch(s, e.rid, e.tid);
    } else if e.Visit? {
      InvVisit(cfg, s);
    } else if e.LoadDone? {
      InvLoad(s, e.tid);
    }
  }

  lemma {:induction false} InvAfter(cfg: Config, s: State, run: seq<Event>)
    requires Inv(s) && Ok(cfg, s, run)
    ensures Inv(After(cfg, s, run))
    decreases |run|
  {
    if run == [] {
    } else {
      var n := |run| - 1;
      InvAfter(cfg, s, run[..n]);
      InvStep(cfg, After(cfg, s, run[..n]), run[n]);
    }
  }

  /** Every reachable state satisfies the invariant. */
  lemma InvRun(cfg: Config, s: State, run: seq<Event>)
    requires Init(s) && Ok(cfg, s, run)
    ensures Inv(After(cfg, s, run))
  {
    InvAfter(cfg, s, run);
  }
}

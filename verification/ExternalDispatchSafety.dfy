/** What every run of the external-request dispatcher keeps, restarts and late writers included. */
module ExternalDispatchSafety {
  import opened ExternalDispatch

  // ---------------------------------------------------------------- exactly once

  predicate Terminal(s: State, rid: nat) {
    rid in s.rows && !s.rows[rid].status.Pending?
  }

  /** The outcomes whose UPDATE matched a row: the writes that returned True. */
  function Wins(s: State, e: Event, rid: nat): seq<Status>
    requires Enabled(s, e)
  {
    if rid !in s.rows || !s.rows[rid].status.Pending? then []
    else if e.AttemptWrite? && !e.raises && s.tasks[e.tid].rid == rid then [e.outcome]
    else if e.FailTry? && !e.raises && s.pc.rid == rid then [Failed(s.pc.cause)]
    else []
  }

  function RunWins(cfg: Config, s: State, run: seq<Event>, rid: nat): seq<Status>
    requires Ok(cfg, s, run)
  {
    if run == [] then []
    else
      var n := |run| - 1;
      RunWins(cfg, s, run[..n], rid) + Wins(After(cfg, s, run[..n]), run[n], rid)
  }

  /** One event changes a known row only by a winning write, and a terminal row not at all. */
  lemma RowStep(cfg: Config, s: State, e: Event, rid: nat)
    requires Enabled(s, e)
    ensures rid in s.rows ==>
      rid in Apply(cfg, s, e).rows
      && Apply(cfg, s, e).rows[rid] ==
           if Wins(s, e, rid) == [] then s.rows[rid] else s.rows[rid].(status := Wins(s, e, rid)[0])
    ensures rid !in s.rows ==> !Terminal(Apply(cfg, s, e), rid)
    ensures Terminal(s, rid) ==> Wins(s, e, rid) == []
    ensures |Wins(s, e, rid)| <= 1 && forall w | w in Wins(s, e, rid) :: !w.Pending?
  {
    RowsChange(cfg, s, e);
  }

  /** Rows are inserted and conditionally updated, and nothing else happens to them. */
  lemma RowsChange(cfg: Config, s: State, e: Event)
    requires Enabled(s, e)
    ensures Apply(cfg, s, e).rows ==
      match e
      case Insert(rid, loadable) => s.rows[rid := Row(Pending, s.now, loadable)]
      case AttemptWrite(tid, outcome, raises) => if raises then s.rows else Update(s.rows, s.tasks[tid].rid, outcome)
      case FailTry(raises) => if raises then s.rows else Update(s.rows, s.pc.rid, Failed(s.pc.cause))
      case _ => s.rows
  {
    if e.Visit? {
      VisitFrame(cfg, s);
    }
  }

  /** However attempts, cancelled attempts, restarts and watchdog failures interleave, at most one write
      of a request wins, the row is terminal exactly when one did, and it then holds that write's outcome. */
  lemma {:induction false} ExactlyOnce(cfg: Config, s: State, run: seq<Event>, rid: nat)
    requires Ok(cfg, s, run) && !Terminal(s, rid)
    ensures |RunWins(cfg, s, run, rid)| <= 1
    ensures Terminal(After(cfg, s, run), rid) <==> |RunWins(cfg, s, run, rid)| == 1
    ensures Terminal(After(cfg, s, run), rid) ==>
      After(cfg, s, run).rows[rid].status == RunWins(cfg, s, run, rid)[0]
    decreases |run|
  {
    if run == [] {
    } else {
      var n := |run| - 1;
      ExactlyOnce(cfg, s, run[..n], rid);
      RowStep(cfg, After(cfg, s, run[..n]), run[n], rid);
    }
  }

  /** A row that is terminal at some point of a run holds the same status and result ever after. */
  lemma {:induction false} TerminalForever(cfg: Config, s: State, run: seq<Event>, i: nat, rid: nat)
    requires Ok(cfg, s, run) && i <= |run| && Ok(cfg, s, run[..i]) && Terminal(After(cfg, s, run[..i]), rid)
    ensures Terminal(After(cfg, s, run), rid)
    ensures After(cfg, s, run).rows[rid] == After(cfg, s, run[..i]).rows[rid]
    decreases |run|
  {
    if i == |run| {
      assert run[..i] == run;
    } else {
      var n := |run| - 1;
      assert run[..n][..i] == run[..i];
      TerminalForever(cfg, s, run[..n], i, rid);
      RowStep(cfg, After(cfg, s, run[..n]), run[n], rid);
    }
  }

  // ---------------------------------------------------------------- in-flight tracking

  /** `_inflight` and `_started` have one domain in every reachable state, and an entry is an attempt of
      its own row, never a cancelled one, with the moment that attempt started. */
  lemma InflightTracksCurrentAttempts(cfg: Config, s: State, run: seq<Event>)
    requires Init(s) && Ok(cfg, s, run)
    ensures var f := After(cfg, s, run);
      f.inflight.Keys == f.started.Keys
      && forall rid | rid in f.inflight ::
           && f.inflight[rid] in f.tasks
           && f.tasks[f.inflight[rid]] == Task(rid, f.tasks[f.inflight[rid]].phase, f.started[rid])
           && !f.tasks[f.inflight[rid]].phase.Cancelling?
  {
    InvRun(cfg, s, run);
    var f := After(cfg, s, run);
    forall rid | rid in f.inflight
      ensures f.inflight[rid] in f.tasks && !f.tasks[f.inflight[rid]].phase.Cancelling?
      ensures f.tasks[f.inflight[rid]] == Task(rid, f.tasks[f.inflight[rid]].phase, f.started[rid])
    {
      assert Tracked(f.tasks, f.inflight[rid], rid, f.started[rid]);
    }
  }

  /** The only ways attempt `tid` can stop being the tracked attempt of `rid`: its own done-callback after
      it ended, a cancel past the ceiling, a new dispatch of the row, or shutdown.  In particular no
      callback of a superseded attempt evicts its replacement. */
  lemma EntryLeavesOnlyBy(cfg: Config, s: State, e: Event, rid: nat)
    requires Inv(s) && Enabled(s, e) && rid in s.inflight
    ensures var n := Apply(cfg, s, e);
      || (rid in n.inflight && n.inflight[rid] == s.inflight[rid] && rid in n.started
         && n.started[rid] == s.started[rid])
      || (e == Callback(s.inflight[rid]) && !Live(s, rid) && rid !in n.inflight)
      || (e == Visit && s.pc.todo[0] == rid && s.pc.at - s.started[rid] > cfg.ceiling > 0.0 && rid !in n.inflight)
      || (e.ApiDispatch? && e.rid == rid && rid in n.inflight && n.inflight[rid] == e.tid)
      || (e.LoadDone? && s.pc.rid == rid && rid in n.inflight && n.inflight[rid] == e.tid)
      || (e == AClose && n.inflight == map[])
    ensures e == Callback(s.inflight[rid]) ==> rid !in Apply(cfg, s, e).inflight && rid !in Apply(cfg, s, e).started
  {
    assert Tracked(s.tasks, s.inflight[rid], rid, s.started[rid]);
    if e.Visit? {
      EntryLeavesOnVisit(cfg, s, rid);
    } else if e.LoadDone? {
      EntryLeavesOnLoad(s, e.tid, rid);
    } else if !e.Callback? && !e.ApiDispatch? && e != AClose {
      EntriesKept(cfg, s, e);
    }
  }

  lemma EntriesKept(cfg: Config, s: State, e: Event)
    requires Enabled(s, e) && !e.Visit? && !e.LoadDone? && !e.Callback? && !e.ApiDispatch? && e != AClose
    ensures Apply(cfg, s, e).inflight == s.inflight && Apply(cfg, s, e).started == s.started
  {
    if e.FailTry? {
      FailFrame(s, e.raises);
    }
  }

  lemma EntryLeavesOnLoad(s: State, tid: nat, rid: nat)
    requires Inv(s) && Enabled(s, LoadDone(tid)) && rid in s.inflight
    ensures var n := LoadStep(s, tid);
      || (rid in n.inflight && n.inflight[rid] == s.inflight[rid] && rid in n.started
         && n.started[rid] == s.started[rid])
      || (s.pc.rid == rid && rid in n.inflight && n.inflight[rid] == tid)
  {
  }

  lemma EntryLeavesOnVisit(cfg: Config, s: State, rid: nat)
    requires Inv(s) && Enabled(s, Visit) && rid in s.inflight
    ensures var n := VisitRow(cfg, s);
      || (rid in n.inflight && n.inflight[rid] == s.inflight[rid] && rid in n.started
         && n.started[rid] == s.started[rid])
      || (s.pc.todo[0] == rid && s.pc.at - s.started[rid] > cfg.ceiling > 0.0 && rid !in n.inflight)
  {
    VisitFrame(cfg, s);
  }

  /** The API starts a request once, before the watchdog could have picked it up. */
  predicate Orderly(s: State, e: Event)
    requires Enabled(s, e)
  {
    e.ApiDispatch? ==> !Live(s, e.rid) && !(s.pc.Loading? && s.pc.rid == e.rid)
  }

  predicate OrderlyRun(cfg: Config, s: State, run: seq<Event>)
    requires Ok(cfg, s, run)
  {
    run == [] || (
      var n := |run| - 1;
      OrderlyRun(cfg, s, run[..n]) && Orderly(After(cfg, s, run[..n]), run[n]))
  }

  predicate AllTracked(tasks: map<nat, Task>, inflight: map<nat, nat>) {
    forall t | t in tasks && tasks[t].phase.Running? :: tasks[t].rid in inflight && inflight[tasks[t].rid] == t
  }

  /** Every attempt that still runs uncancelled is the tracked one, so no row has two. */
  predicate Solo(s: State) {
    && AllTracked(s.tasks, s.inflight)
    && (s.pc.Loading? ==> !Live(s, s.pc.rid))
  }

  lemma SoloVisit(cfg: Config, s: State)
    requires Inv(s) && Solo(s) && Enabled(s, Visit)
    ensures Solo(VisitRow(cfg, s))
  {
    var rid := s.pc.todo[0];
    if Live(s, rid) {
      assert Tracked(s.tasks, s.inflight[rid], rid, s.started[rid]);
    }
  }

  lemma SoloLaunch(s: State, rid: nat, tid: nat)
    requires Solo(s) && !Live(s, rid) && tid !in s.tasks && !s.pc.Loading?
    ensures Solo(Launch(s, rid, tid))
  {
  }

  lemma SoloTasks(cfg: Config, s: State, e: Event)
    requires Inv(s) && Solo(s) && Enabled(s, e) && (e.TaskEnds? || e.Callback? || e == AClose)
    ensures Solo(Apply(cfg, s, e))
  {
  }

  lemma SoloStep(cfg: Config, s: State, e: Event)
    requires Inv(s) && Solo(s) && Enabled(s, e) && Orderly(s, e)
    ensures Solo(Apply(cfg, s, e))
  {
    if e.Visit? {
      SoloVisit(cfg, s);
    } else if e.LoadDone? {
      SoloLaunch(s.(pc := Idle), s.pc.rid, e.tid);
    } else if e.ApiDispatch? {
      SoloLaunch(s.(pc := Idle), e.rid, e.tid);
    } else if e.TaskEnds? || e.Callback? || e == AClose {
      SoloTasks(cfg, s, e);
    } else {
      SoloQuiet(cfg, s, e);
    }
  }

  lemma SoloQuiet(cfg: Config, s: State, e: Event)
    requires Solo(s) && Enabled(s, e) && !e.Visit? && !e.LoadDone? && !e.ApiDispatch?
    requires !e.TaskEnds? && !e.Callback? && e != AClose
    ensures Solo(Apply(cfg, s, e))
  {
    if e.FailTry? {
      FailFrame(s, e.raises);
    }
  }

  /** One execute of a terminal write leaves attempts alone, and of the rows and counts all but the row's own. */
  lemma FailFrame(s: State, raises: bool)
    requires s.pc.Failing?
    ensures var n, rid := FailStep(s, raises), s.pc.rid;
      && n == s.(rows := n.rows, attempts := n.attempts, exhausted := n.exhausted, pc := n.pc)
      && (n.pc == Visiting(s.pc.todo, s.pc.at) || n.pc == s.pc.(tries := s.pc.tries + 1))
      && (n.rows == s.rows || n.rows == Update(s.rows, rid, Failed(s.pc.cause)))
      && (n.attempts == s.attempts || n.attempts == s.attempts - {rid})
      && (n.exhausted == s.exhausted || n.exhausted == s.exhausted[rid := Get(s.exhausted, rid) + 1])
  {
    var n, rid := FailStep(s, raises), s.pc.rid;
    if !raises {
      assert n.exhausted == s.exhausted && n.attempts == s.attempts - {rid};
    } else if s.pc.tries + 1 < WRITE_ATTEMPTS {
      assert n == s.(pc := n.pc);
    } else {
      assert n.rows == s.rows && n.attempts == s.attempts - {rid};
    }
  }

  /** At most one uncancelled attempt of a request runs at any time. */
  lemma {:induction false} OneLiveAttempt(cfg: Config, s: State, run: seq<Event>, t1: nat, t2: nat)
    requires Init(s) && Ok(cfg, s, run) && OrderlyRun(cfg, s, run)
    requires t1 in After(cfg, s, run).tasks && After(cfg, s, run).tasks[t1].phase.Running?
    requires t2 in After(cfg, s, run).tasks && After(cfg, s, run).tasks[t2].phase.Running?
    requires After(cfg, s, run).tasks[t1].rid == After(cfg, s, run).tasks[t2].rid
    ensures t1 == t2
  {
    SoloRun(cfg, s, run);
  }

  lemma {:induction false} SoloRun(cfg: Config, s: State, run: seq<Event>)
    requires Init(s) && Ok(cfg, s, run) && OrderlyRun(cfg, s, run)
    ensures Solo(After(cfg, s, run))
    decreases |run|
  {
    if run == [] {
    } else {
      var n := |run| - 1;
      SoloRun(cfg, s, run[..n]);
      InvRun(cfg, s, run[..n]);
      SoloStep(cfg, After(cfg, s, run[..n]), run[n]);
    }
  }

  // ---------------------------------------------------------------- ceiling

  /** A sweep cancels an attempt only after that attempt itself has run past the ceiling. */
  lemma CancelOnlyPastCeiling(cfg: Config, s: State, e: Event, tid: nat)
    requires Inv(s) && Enabled(s, e) && e != AClose
    requires tid in s.tasks && s.tasks[tid].phase.Running? && tid in Apply(cfg, s, e).tasks
      && Apply(cfg, s, e).tasks[tid].phase.Cancelling?
    ensures e.Visit? && s.now - s.tasks[tid].born > cfg.ceiling > 0.0
  {
    if e.Visit? {
      CancelOnVisit(cfg, s, tid);
    } else {
      OthersDoNotCancel(cfg, s, e, tid);
    }
  }

  lemma CancelOnVisit(cfg: Config, s: State, tid: nat)
    requires Inv(s) && Enabled(s, Visit)
    requires tid in s.tasks && s.tasks[tid].phase.Running? && tid in VisitRow(cfg, s).tasks
      && VisitRow(cfg, s).tasks[tid].phase.Cancelling?
    ensures s.now - s.tasks[tid].born > cfg.ceiling > 0.0
  {
    VisitFrame(cfg, s);
    var rid := s.pc.todo[0];
    assert Tracked(s.tasks, s.inflight[rid], rid, s.started[rid]);
  }

  lemma OthersDoNotCancel(cfg: Config, s: State, e: Event, tid: nat)
    requires Inv(s) && Enabled(s, e) && !e.Visit? && e != AClose && tid in s.tasks && s.tasks[tid].phase.Running?
    ensures tid in Apply(cfg, s, e).tasks && !Apply(cfg, s, e).tasks[tid].phase.Cancelling?
  {
    if e.LoadDone? {
      LoadCancelsNone(s, e.tid, tid);
    } else if e.FailTry? {
      assert FailStep(s, e.raises).tasks == s.tasks;
    }
  }

  lemma LoadCancelsNone(s: State, new': nat, tid: nat)
    requires Enabled(s, LoadDone(new')) && tid in s.tasks && s.tasks[tid].phase.Running?
    ensures tid in LoadStep(s, new').tasks && !LoadStep(s, new').tasks[tid].phase.Cancelling?
  {
  }

  // ---------------------------------------------------------------- budget

  /** `done` re-dispatches against `attempts` counted ones; each given-up terminal write buys one more budget. */
  predicate Budget(M: int, attempts: nat, done: nat, givenUp: nat, counting: bool) {
    attempts <= M && done <= M * givenUp + if counting then attempts else M
  }

  /** Every re-dispatch since the budget was last reset is counted: the row may still be replayed, or is about to. */
  predicate Counting(s: State, rid: nat) {
    Replayable(s.rows, rid) || (s.pc.Loading? && s.pc.read.Loadable? && s.pc.rid == rid)
  }

  predicate WithinBudget(cfg: Config, s: State, rid: nat) {
    && Budget(cfg.maxRedispatch, Get(s.attempts, rid), Get(s.redispatches, rid), Get(s.exhausted, rid),
       Counting(s, rid))
    && (rid !in s.rows ==> Get(s.redispatches, rid) == 0)
    && (s.pc.Loading? ==> s.pc.seen < cfg.maxRedispatch)
  }

  lemma BudgetReset(M: int, attempts: nat, done: nat, givenUp: nat, counting: bool)
    requires M > 0 && Budget(M, attempts, done, givenUp, counting)
    ensures Budget(M, 0, done, givenUp, false) && Budget(M, 0, done, givenUp + 1, counting)
  {
    assert M * (givenUp + 1) == M * givenUp + M;
  }

  /** Nothing the budget of the row depends on has changed. */
  lemma BudgetSame(cfg: Config, s: State, n: State, rid: nat)
    requires WithinBudget(cfg, s, rid) && !n.pc.Loading? && (rid in s.rows ==> rid in n.rows)
    requires Get(n.attempts, rid) == Get(s.attempts, rid) && Get(n.redispatches, rid) == Get(s.redispatches, rid)
    requires Get(n.exhausted, rid) == Get(s.exhausted, rid) && (Counting(n, rid) ==> Counting(s, rid))
    ensures WithinBudget(cfg, n, rid)
  {
  }

  lemma BudgetFail(cfg: Config, s: State, raises: bool, rid: nat)
    requires cfg.maxRedispatch > 0 && Inv(s) && s.pc.Failing? && WithinBudget(cfg, s, rid)
    ensures WithinBudget(cfg, FailStep(s, raises), rid)
  {
    if rid == s.pc.rid {
      BudgetReset(cfg.maxRedispatch, Get(s.attempts, rid), Get(s.redispatches, rid), Get(s.exhausted, rid),
        Counting(s, rid));
      BudgetFailOwn(cfg, s, raises);
    } else {
      BudgetOtherFail(cfg, s, raises, rid);
    }
  }

  lemma BudgetOtherFail(cfg: Config, s: State, raises: bool, rid: nat)
    requires s.pc.Failing? && rid != s.pc.rid && WithinBudget(cfg, s, rid)
    ensures WithinBudget(cfg, FailStep(s, raises), rid)
  {
    FailFrame(s, raises);
    var n := FailStep(s, raises);
    assert Counting(n, rid) == Counting(s, rid);
    BudgetSame(cfg, s, n, rid);
  }

  lemma BudgetFailOwn(cfg: Config, s: State, raises: bool)
    requires s.pc.Failing? && s.pc.rid in s.rows && WithinBudget(cfg, s, s.pc.rid) && cfg.maxRedispatch > 0
    requires var rid := s.pc.rid; var x, done := Get(s.exhausted, rid), Get(s.redispatches, rid);
      Budget(cfg.maxRedispatch, 0, done, x, false) && Budget(cfg.maxRedispatch, 0, done, x + 1, Counting(s, rid))
    ensures WithinBudget(cfg, FailStep(s, raises), s.pc.rid)
  {
    var n, rid := FailStep(s, raises), s.pc.rid;
    if !raises {
      assert !Counting(n, rid) && Get(n.attempts, rid) == 0;
    } else if s.pc.tries + 1 < WRITE_ATTEMPTS {
      BudgetSame(cfg, s, n, rid);
    } else {
      assert Get(n.attempts, rid) == 0 && Get(n.exhausted, rid) == Get(s.exhausted, rid) + 1;
    }
  }

  lemma BudgetVisit(cfg: Config, s: State, rid: nat)
    requires cfg.maxRedispatch > 0 && Enabled(s, Visit) && WithinBudget(cfg, s, rid)
    ensures WithinBudget(cfg, VisitRow(cfg, s), rid)
  {
  }

  lemma BudgetLoad(cfg: Config, s: State, tid: nat, rid: nat)
    requires cfg.maxRedispatch > 0 && Inv(s) && Enabled(s, LoadDone(tid)) && WithinBudget(cfg, s, rid)
    ensures WithinBudget(cfg, LoadStep(s, tid), rid)
  {
    if rid != s.pc.rid {
      BudgetOtherLoad(cfg, s, tid, rid);
    } else {
      BudgetReset(cfg.maxRedispatch, Get(s.attempts, rid), Get(s.redispatches, rid), Get(s.exhausted, rid),
        Counting(s, rid));
      BudgetLoadOwn(cfg, s, tid);
    }
  }

  lemma BudgetOtherLoad(cfg: Config, s: State, tid: nat, rid: nat)
    requires Enabled(s, LoadDone(tid)) && rid != s.pc.rid && WithinBudget(cfg, s, rid)
    ensures WithinBudget(cfg, LoadStep(s, tid), rid)
  {
    BudgetSame(cfg, s, LoadStep(s, tid), rid);
  }

  lemma BudgetLoadOwn(cfg: Config, s: State, tid: nat)
    requires Inv(s) && Enabled(s, LoadDone(tid)) && WithinBudget(cfg, s, s.pc.rid)
    requires Budget(cfg.maxRedispatch, 0, Get(s.redispatches, s.pc.rid), Get(s.exhausted, s.pc.rid), false)
    ensures WithinBudget(cfg, LoadStep(s, tid), s.pc.rid)
  {
    var n, rid := LoadStep(s, tid), s.pc.rid;
    assert n.exhausted == s.exhausted && n.rows == s.rows;
    if s.pc.read.Loadable? {
      assert Get(n.redispatches, rid) == Get(s.redispatches, rid) + 1 && Get(n.attempts, rid) == s.pc.seen + 1;
    } else {
      assert n.redispatches == s.redispatches && Get(n.attempts, rid) == 0;
    }
  }

  lemma BudgetStep(cfg: Config, s: State, e: Event, rid: nat)
    requires cfg.maxRedispatch > 0 && Inv(s) && Enabled(s, e) && WithinBudget(cfg, s, rid)
    ensures WithinBudget(cfg, Apply(cfg, s, e), rid)
  {
    if e.FailTry? {
      BudgetFail(cfg, s, e.raises, rid);
    } else if e.Visit? {
      BudgetVisit(cfg, s, rid);
    } else if e.LoadDone? {
      BudgetLoad(cfg, s, e.tid, rid);
    }
  }

  /** In one process lifetime a row is re-dispatched at most M times, plus M for every time the
      write that should have failed it was given up. */
  lemma {:induction false} RedispatchBudget(cfg: Config, s: State, run: seq<Event>, rid: nat)
    requires cfg.maxRedispatch > 0 && Init(s) && Ok(cfg, s, run)
    ensures var f := After(cfg, s, run);
      Get(f.redispatches, rid) <= cfg.maxRedispatch * (1 + Get(f.exhausted, rid))
  {
    BudgetRun(cfg, s, run, rid);
    var f := After(cfg, s, run);
    assert cfg.maxRedispatch * (1 + Get(f.exhausted, rid)) ==
      cfg.maxRedispatch + cfg.maxRedispatch * Get(f.exhausted, rid);
  }

  lemma {:induction false} BudgetRun(cfg: Config, s: State, run: seq<Event>, rid: nat)
    requires cfg.maxRedispatch > 0 && Init(s) && Ok(cfg, s, run)
    ensures WithinBudget(cfg, After(cfg, s, run), rid)
    decreases |run|
  {
    if run == [] {
    } else {
      var n := |run| - 1;
      BudgetRun(cfg, s, run[..n], rid);
      InvRun(cfg, s, run[..n]);
      BudgetStep(cfg, After(cfg, s, run[..n]), run[n], rid);
    }
  }

  // ---------------------------------------------------------------- coverage

  /** The row needs nothing more from this sweep. */
  predicate Settled(cfg: Config, s: State, rid: nat, at: real) {
    rid in s.rows && (
      || Terminal(s, rid)
      || Live(s, rid)
      || !s.rows[rid].loadable
      || at - s.rows[rid].created < cfg.stale)
  }

  /** The row the watchdog is working on. */
  function Current(s: State): (rid: nat)
    requires (s.pc.Visiting? && s.pc.todo != []) || s.pc.Failing? || s.pc.Loading?
  {
    if s.pc.Visiting? then s.pc.todo[0] else s.pc.rid
  }

  /** Whatever happens at the awaits of a sweep, when the watchdog moves on from a row it is terminal,
      tracked by a live attempt, not replayable or still young - unless its terminal write was given up. */
  lemma SweepSettlesRow(cfg: Config, s: State, e: Event)
    requires Inv(s) && Enabled(s, e) && (e.Visit? || e.FailTry? || e.LoadDone?)
    requires s.pc.Visiting? || s.pc.Failing? || s.pc.Loading?
    ensures var n := Apply(cfg, s, e);
      n.pc.Visiting? ==>
        || Settled(cfg, n, Current(s), s.pc.at)
        || (s.pc.Failing? && e.raises && Get(n.exhausted, Current(s)) == Get(s.exhausted, Current(s)) + 1)
  {
    if e.Visit? {
      VisitSettles(cfg, s);
    } else if e.LoadDone? {
      LoadSettles(cfg, s, e.tid);
    }
  }

  lemma VisitSettles(cfg: Config, s: State)
    requires Inv(s) && Enabled(s, Visit)
    ensures VisitRow(cfg, s).pc.Visiting? ==> Settled(cfg, VisitRow(cfg, s), s.pc.todo[0], s.pc.at)
  {
    var n, rid := VisitRow(cfg, s), s.pc.todo[0];
    if n.pc.Visiting? {
      assert n == s.(pc := n.pc);
      assert Live(s, rid) || s.pc.at - s.rows[rid].created < cfg.stale;
    }
  }

  lemma LoadSettles(cfg: Config, s: State, tid: nat)
    requires Inv(s) && Enabled(s, LoadDone(tid))
    ensures Settled(cfg, LoadStep(s, tid), s.pc.rid, s.pc.at)
  {
  }

  predicate Queued(pc: Pc, rid: nat) {
    match pc
    case Idle => false
    case Scanned(todo) => rid in todo
    case Visiting(todo, _) => rid in todo
    case Failing(r, _, _, todo, _) => r == rid || rid in todo
    case Loading(r, _, _, todo, _) => r == rid || rid in todo
  }

  /** The row is settled by the sweep's own clock reading. */
  predicate SettledIn(cfg: Config, f: State, rid: nat) {
    (f.pc.Visiting? || f.pc.Failing? || f.pc.Loading?) && Settled(cfg, f, rid, f.pc.at)
  }

  /** The row still waits for the sweep, is settled, or its terminal write was given up since `s`. */
  predicate Covered(cfg: Config, s: State, f: State, rid: nat) {
    Queued(f.pc, rid) || SettledIn(cfg, f, rid) || Get(f.exhausted, rid) > Get(s.exhausted, rid)
  }

  /** A step of the watchdog inside a sweep. */
  predicate IsOwnStep(e: Event) {
    e.Visit? || e.FailTry? || e.LoadRead? || e.LoadDone?
  }

  /** The events of a sweep between its query and its end. */
  predicate IsRowEvent(e: Event) {
    e.ReadClock? || IsOwnStep(e)
  }

  lemma CoveredStep(cfg: Config, s: State, f: State, e: Event, rid: nat)
    requires Inv(f) && Enabled(f, e) && IsOwnStep(e) && Covered(cfg, s, f, rid)
    requires Get(f.exhausted, rid) >= Get(s.exhausted, rid)
    ensures Covered(cfg, s, Apply(cfg, f, e), rid)
    ensures Get(Apply(cfg, f, e).exhausted, rid) >= Get(s.exhausted, rid)
  {
    if e.LoadRead? {
      ReadLeavesAll(cfg, f, rid);
    } else if rid == Current(f) {
      CoveredCurrent(cfg, s, f, e);
    } else if e.Visit? {
      VisitLeavesOthers(cfg, f, rid);
    } else if e.FailTry? {
      FailLeavesOthers(cfg, f, e.raises, rid);
    } else {
      LoadLeavesOthers(cfg, f, e.tid, rid);
    }
  }

  lemma ReadLeavesAll(cfg: Config, f: State, rid: nat)
    requires f.pc.Loading?
    ensures var n := ReadRequest(f);
      && n.exhausted == f.exhausted && n.pc.Loading? && n.pc.at == f.pc.at
      && (Queued(f.pc, rid) <==> Queued(n.pc, rid))
      && (Settled(cfg, f, rid, f.pc.at) <==> Settled(cfg, n, rid, f.pc.at))
  {
  }

  lemma CoveredCurrent(cfg: Config, s: State, f: State, e: Event)
    requires Inv(f) && Enabled(f, e) && (e.Visit? || e.FailTry? || e.LoadDone?)
    requires Get(f.exhausted, Current(f)) >= Get(s.exhausted, Current(f))
    ensures Covered(cfg, s, Apply(cfg, f, e), Current(f))
    ensures Get(Apply(cfg, f, e).exhausted, Current(f)) >= Get(s.exhausted, Current(f))
  {
    SweepSettlesRow(cfg, f, e);
    CurrentStays(cfg, f, e);
  }

  /** A step of the sweep keeps working on its row or goes on to the rest, by the same clock reading. */
  lemma CurrentStays(cfg: Config, f: State, e: Event)
    requires Enabled(f, e) && (e.Visit? || e.FailTry? || e.LoadDone?)
    ensures var n := Apply(cfg, f, e);
      && (n.pc.Visiting? || n.pc.Failing? || n.pc.Loading?) && n.pc.at == f.pc.at
      && (!n.pc.Visiting? ==> Queued(n.pc, Current(f)))
      && Get(n.exhausted, Current(f)) >= Get(f.exhausted, Current(f))
  {
    if e.Visit? {
      VisitFrame(cfg, f);
    } else if e.LoadDone? {
      assert LoadStep(f, e.tid).pc == Visiting(f.pc.todo, f.pc.at) && LoadStep(f, e.tid).exhausted == f.exhausted;
    } else {
      FailStays(f, e.raises);
    }
  }

  lemma FailStays(f: State, raises: bool)
    requires f.pc.Failing?
    ensures var n := FailStep(f, raises);
      && (n.pc == Visiting(f.pc.todo, f.pc.at) || (n.pc.Failing? && n.pc.rid == f.pc.rid && n.pc.at == f.pc.at))
      && Get(n.exhausted, f.pc.rid) >= Get(f.exhausted, f.pc.rid)
  {
  }

  lemma VisitLeavesOthers(cfg: Config, f: State, rid: nat)
    requires Inv(f) && Enabled(f, Visit) && rid != f.pc.todo[0]
    ensures var n := VisitRow(cfg, f);
      && n.exhausted == f.exhausted && !n.pc.Idle? && !n.pc.Scanned? && n.pc.at == f.pc.at
      && (Queued(f.pc, rid) ==> Queued(n.pc, rid))
      && (Settled(cfg, f, rid, f.pc.at) ==> Settled(cfg, n, rid, f.pc.at))
  {
    var first := f.pc.todo[0];
    VisitFrame(cfg, f);
    if first in f.inflight {
      assert Tracked(f.tasks, f.inflight[first], first, f.started[first]);
    }
    if rid in f.inflight {
      assert Tracked(f.tasks, f.inflight[rid], rid, f.started[rid]);
    }
  }

  lemma FailLeavesOthers(cfg: Config, f: State, raises: bool, rid: nat)
    requires f.pc.Failing? && rid != f.pc.rid
    ensures var n := FailStep(f, raises);
      && Get(n.exhausted, rid) == Get(f.exhausted, rid) && (n.pc.Failing? || n.pc.Visiting?) && n.pc.at == f.pc.at
      && (Queued(f.pc, rid) ==> Queued(n.pc, rid))
      && (Settled(cfg, f, rid, f.pc.at) ==> Settled(cfg, n, rid, f.pc.at))
  {
    FailKeepsSettled(cfg, f, raises, rid);
  }

  lemma FailKeepsSettled(cfg: Config, f: State, raises: bool, rid: nat)
    requires f.pc.Failing? && rid != f.pc.rid
    ensures Settled(cfg, f, rid, f.pc.at) ==> Settled(cfg, FailStep(f, raises), rid, f.pc.at)
  {
  }

  lemma LoadLeavesOthers(cfg: Config, f: State, tid: nat, rid: nat)
    requires f.pc.Loading? && tid !in f.tasks && rid != f.pc.rid
    ensures var n := LoadStep(f, tid);
      && n.exhausted == f.exhausted && n.pc.Visiting? && n.pc.at == f.pc.at
      && (Queued(f.pc, rid) ==> Queued(n.pc, rid))
      && (Settled(cfg, f, rid, f.pc.at) ==> Settled(cfg, n, rid, f.pc.at))
  {
  }

  /** What the rest of the process and its attempts may do at any await of the watchdog. */
  predicate IsOutsider(e: Event) {
    e.Tick? || e.Insert? || e.ApiDispatch? || e.AttemptWrite? || e.TaskEnds? || e.Callback?
  }

  lemma OutsiderLeavesWatchdog(cfg: Config, f: State, e: Event)
    requires Enabled(f, e) && IsOutsider(e)
    ensures Apply(cfg, f, e).pc == f.pc && Apply(cfg, f, e).exhausted == f.exhausted
  {
  }

  /** Event i of the run ends the attempt that then keeps the row settled, after the sweep has moved on from it. */
  predicate EndedAt(cfg: Config, s: State, run: seq<Event>, rid: nat, i: nat) {
    && i < |run| && Ok(cfg, s, run[..i])
    && var m := After(cfg, s, run[..i]);
       && (m.pc.Visiting? || m.pc.Failing? || m.pc.Loading?) && !Queued(m.pc, rid)
       && Live(m, rid) && run[i] == TaskEnds(m.inflight[rid])
  }

  ghost predicate AttemptEnded(cfg: Config, s: State, run: seq<Event>, rid: nat) {
    exists i: nat :: EndedAt(cfg, s, run, rid, i)
  }

  /** An event of the outside leaves a settled row settled, unless it ends the very attempt that settles it. */
  lemma OutsiderKeepsSettled(cfg: Config, f: State, e: Event, rid: nat)
    requires Inv(f) && Enabled(f, e) && IsOutsider(e) && SettledIn(cfg, f, rid)
    ensures SettledIn(cfg, Apply(cfg, f, e), rid) || (Live(f, rid) && e == TaskEnds(f.inflight[rid]))
  {
    if rid in f.inflight {
      assert Tracked(f.tasks, f.inflight[rid], rid, f.started[rid]);
    }
  }

  lemma CoveredOutside(cfg: Config, s: State, f: State, e: Event, rid: nat)
    requires Inv(f) && Enabled(f, e) && IsOutsider(e) && Covered(cfg, s, f, rid)
    ensures || Covered(cfg, s, Apply(cfg, f, e), rid)
            || (SettledIn(cfg, f, rid) && !Queued(f.pc, rid) && Live(f, rid) && e == TaskEnds(f.inflight[rid]))
  {
    OutsiderLeavesWatchdog(cfg, f, e);
    if SettledIn(cfg, f, rid) {
      OutsiderKeepsSettled(cfg, f, e, rid);
    }
  }

  /** Whatever attempts, callbacks, clients and the clock do at a sweep's awaits, no row of its query is passed over:
      at every point of the sweep each row still waits, is settled, had its terminal write given up, or lost to its
      own end the attempt that had settled it when the sweep moved on. */
  lemma {:induction false} SweepCovers(cfg: Config, s: State, run: seq<Event>, ids: seq<nat>, rid: nat)
    requires Inv(s) && Ok(cfg, s, run) && |run| >= 1 && run[0] == Scan(ids) && rid in ids
    requires forall i | 1 <= i < |run| :: IsRowEvent(run[i]) || IsOutsider(run[i])
    ensures Inv(After(cfg, s, run))
    ensures Covered(cfg, s, After(cfg, s, run), rid) || AttemptEnded(cfg, s, run, rid)
    ensures Get(After(cfg, s, run).exhausted, rid) >= Get(s.exhausted, rid)
    decreases |run|
  {
    var n := |run| - 1;
    var m := After(cfg, s, run[..n]);
    if n == 0 {
      InvStep(cfg, s, run[0]);
    } else {
      SweepCovers(cfg, s, run[..n], ids, rid);
      InvStep(cfg, m, run[n]);
      if i: nat :| EndedAt(cfg, s, run[..n], rid, i) {
        StillEndedAt(cfg, s, run, rid, i);
        StepNeverForgives(cfg, m, run[n], rid);
      } else if IsOutsider(run[n]) {
        OutsiderLeavesWatchdog(cfg, m, run[n]);
        CoveredOutside(cfg, s, m, run[n], rid);
        assert Covered(cfg, s, After(cfg, s, run), rid) || EndedAt(cfg, s, run, rid, n);
      } else if run[n] != ReadClock {
        CoveredStep(cfg, s, m, run[n], rid);
      }
    }
  }

  lemma StillEndedAt(cfg: Config, s: State, run: seq<Event>, rid: nat, i: nat)
    requires |run| > 0 && EndedAt(cfg, s, run[..|run| - 1], rid, i)
    ensures EndedAt(cfg, s, run, rid, i)
  {
    assert run[..|run| - 1][..i] == run[..i];
  }

  /** No step of a sweep takes back a given-up write. */
  lemma StepNeverForgives(cfg: Config, m: State, e: Event, rid: nat)
    requires Inv(m) && Enabled(m, e) && (IsRowEvent(e) || IsOutsider(e))
    ensures Get(Apply(cfg, m, e).exhausted, rid) >= Get(m.exhausted, rid)
  {
    if IsOutsider(e) {
      OutsiderLeavesWatchdog(cfg, m, e);
    } else if e.Visit? || e.FailTry? || e.LoadDone? {
      CurrentStays(cfg, m, e);
    }
  }

  /** So in the state in which a sweep ends, every row of its query is terminal, tracked by a live attempt, not
      replayable or younger than the stale age - unless its terminal write was given up, or the attempt that was live
      when the sweep moved on has itself ended since. */
  lemma SweepReachesAll(cfg: Config, s: State, run: seq<Event>, ids: seq<nat>, rid: nat)
    requires Inv(s) && Ok(cfg, s, run) && |run| >= 1 && run[0] == Scan(ids) && rid in ids
    requires forall i | 1 <= i < |run| :: IsRowEvent(run[i]) || IsOutsider(run[i])
    requires Enabled(After(cfg, s, run), EndSweep)
    ensures var f := After(cfg, s, run);
      || Settled(cfg, f, rid, f.pc.at)
      || Get(f.exhausted, rid) > Get(s.exhausted, rid)
      || AttemptEnded(cfg, s, run, rid)
  {
    SweepCovers(cfg, s, run, ids, rid);
  }
}

/** The real-time bound on stranding.

    Hypotheses, as guards on the events of a run: time never passes more than `poll` beyond the last
    complete sweep, a sweep takes no time (but anything may happen at its awaits), the first dispatch
    of a row comes with its insertion, the terminal writes of `_fail` land within their three tries,
    and the process is not shut down.  Nothing is assumed about what the attempts do.
 */
module ExternalDispatchTiming {
  import opened ExternalDispatch

  predicate Recovering(cfg: Config, poll: real) {
    cfg.ceiling > 0.0 && cfg.maxRedispatch > 0 && poll >= 0.0
  }

  predicate Timely(poll: real, s: State, e: Event)
    requires Enabled(s, e)
  {
    match e
    case Tick(d) => s.pc.Idle? && s.now + d <= s.swept + poll
    case ApiDispatch(rid, _) => s.rows[rid].created == s.now
    case FailTry(raises) => raises ==> s.pc.tries + 1 < WRITE_ATTEMPTS
    case SweepAborts => false
    case AClose => false
    case _ => true
  }

  predicate TimelyRun(cfg: Config, poll: real, s: State, run: seq<Event>)
    requires Ok(cfg, s, run)
  {
    run == [] || (
      var n := |run| - 1;
      TimelyRun(cfg, poll, s, run[..n]) && Timely(poll, After(cfg, s, run[..n]), run[n]))
  }

  function Max(x: real, y: real): real {
    if x >= y then x else y
  }

  /** When this process first owed the row something. */
  function Epoch(start: real, row: Row): real {
    Max(row.created, start)
  }

  /** Latest start of the row's attempt number k (0 is the original dispatch). */
  function Deadline(cfg: Config, poll: real, epoch: real, k: nat): real {
    if k == 0 then epoch
    else Max(Deadline(cfg, poll, epoch, k - 1) + cfg.ceiling, epoch + cfg.stale) + poll
  }

  /** Any sweep after this moment takes attempt number k away from the row. */
  function Patience(cfg: Config, poll: real, epoch: real, k: nat): real {
    Max(Deadline(cfg, poll, epoch, k) + cfg.ceiling, epoch + cfg.stale)
  }

  /** t0 + max(C, stale) + M*C + (M+1)*P. */
  function Bound(cfg: Config, poll: real, t0: real, M: nat): real {
    t0 + Max(cfg.ceiling, cfg.stale) + M as real * cfg.ceiling + (M + 1) as real * poll
  }

  lemma {:induction false} DeadlineClosedForm(cfg: Config, poll: real, epoch: real, k: nat)
    requires Recovering(cfg, poll)
    ensures Deadline(cfg, poll, epoch, k + 1) == Bound(cfg, poll, epoch, k)
    ensures epoch <= Deadline(cfg, poll, epoch, k) <= Deadline(cfg, poll, epoch, k + 1)
  {
    if k == 0 {
    } else {
      DeadlineClosedForm(cfg, poll, epoch, k - 1);
      var c, p := cfg.ceiling, poll;
      assert (k - 1) as real * c + c == k as real * c;
      assert k as real * p + p == (k + 1) as real * p;
      assert (k - 1) as real * c >= 0.0 && k as real * p >= 0.0;
    }
  }

  lemma {:induction false} DeadlineMonotone(cfg: Config, poll: real, epoch: real, k: nat, m: nat)
    requires Recovering(cfg, poll) && k <= m
    ensures Deadline(cfg, poll, epoch, k) <= Deadline(cfg, poll, epoch, m)
    decreases m - k
  {
    if k == m {
    } else {
      DeadlineClosedForm(cfg, poll, epoch, k);
      DeadlineMonotone(cfg, poll, epoch, k + 1, m);
    }
  }

  /** The current sweep has not dealt with the row yet (or no sweep is under way). */
  predicate Waiting(pc: Pc, rid: nat) {
    match pc
    case Idle => true
    case Scanned(_) => true
    case Visiting(todo, _) => rid in todo
    case Failing(r, _, _, todo, _) => r == rid || rid in todo
    case Loading(r, _, _, todo, _) => r == rid || rid in todo
  }

  /** The last sweep that dealt with the row. */
  function LastDealt(s: State, rid: nat): real {
    if Waiting(s.pc, rid) then s.swept else s.now
  }

  predicate Prompt(poll: real, start: real, s: State) {
    && start <= s.swept <= s.now <= s.swept + poll
    && (s.pc.Visiting? || s.pc.Failing? || s.pc.Loading? ==> s.pc.at == s.now)
  }

  predicate OnTime(cfg: Config, poll: real, start: real, s: State, rid: nat) {
    Replayable(s.rows, rid) ==>
      var k := Get(s.attempts, rid);
      var epoch := Epoch(start, s.rows[rid]);
      && k <= cfg.maxRedispatch
      && (rid in s.started ==> s.started[rid] <= Deadline(cfg, poll, epoch, k))
      && LastDealt(s, rid) <= Patience(cfg, poll, epoch, k)
      && (s.pc.Loading? && s.pc.rid == rid ==> k < cfg.maxRedispatch)
      && (s.pc.Scanned? ==> rid in s.pc.todo || s.rows[rid].created == s.now)
  }

  lemma PromptStep(cfg: Config, poll: real, start: real, s: State, e: Event)
    requires Recovering(cfg, poll) && Prompt(poll, start, s) && Enabled(s, e) && Timely(poll, s, e)
    ensures Prompt(poll, start, Apply(cfg, s, e))
  {
    if e.Visit? {
      VisitFrame(cfg, s);
    } else if e.LoadDone? {
      assert LoadStep(s, e.tid).pc == Visiting(s.pc.todo, s.pc.at) && LoadStep(s, e.tid).swept == s.swept;
    } else if e.FailTry? {
      assert FailStep(s, e.raises).swept == s.swept && FailStep(s, e.raises).pc.at == s.pc.at;
    }
  }

  /** A sweep that leaves the row alone does so before the row's patience runs out. */
  lemma SkipIsInTime(cfg: Config, poll: real, start: real, s: State, rid: nat)
    requires Recovering(cfg, poll) && Inv(s) && Prompt(poll, start, s) && OnTime(cfg, poll, start, s, rid)
    requires s.pc.Visiting? && Replayable(s.rows, rid)
    requires if Live(s, rid) then !Overdue(cfg, s, rid, s.pc.at) else s.pc.at - s.rows[rid].created < cfg.stale
    ensures s.now <= Patience(cfg, poll, Epoch(start, s.rows[rid]), Get(s.attempts, rid))
  {
  }

  lemma OnTimeVisit(cfg: Config, poll: real, start: real, s: State, rid: nat)
    requires Recovering(cfg, poll) && Inv(s) && Prompt(poll, start, s) && OnTime(cfg, poll, start, s, rid)
    requires Enabled(s, Visit)
    ensures OnTime(cfg, poll, start, VisitRow(cfg, s), rid)
  {
    VisitFrame(cfg, s);
    if Replayable(s.rows, rid) && rid != s.pc.todo[0] {
      OnTimeOtherVisit(cfg, poll, start, s, rid);
    } else if Replayable(s.rows, rid) {
      if VisitRow(cfg, s).pc.Visiting? {
        SkipIsInTime(cfg, poll, start, s, rid);
      }
      OnTimeOwnVisit(cfg, poll, start, s);
    }
  }

  lemma OnTimeOtherVisit(cfg: Config, poll: real, start: real, s: State, rid: nat)
    requires Inv(s) && OnTime(cfg, poll, start, s, rid) && Enabled(s, Visit) && rid != s.pc.todo[0]
    ensures OnTime(cfg, poll, start, VisitRow(cfg, s), rid)
  {
    VisitFrame(cfg, s);
  }

  lemma OnTimeOwnVisit(cfg: Config, poll: real, start: real, s: State)
    requires Recovering(cfg, poll) && Inv(s) && Prompt(poll, start, s) && Enabled(s, Visit)
    requires OnTime(cfg, poll, start, s, s.pc.todo[0]) && Replayable(s.rows, s.pc.todo[0])
    requires VisitRow(cfg, s).pc.Visiting? ==>
      s.now <= Patience(cfg, poll, Epoch(start, s.rows[s.pc.todo[0]]), Get(s.attempts, s.pc.todo[0]))
    ensures OnTime(cfg, poll, start, VisitRow(cfg, s), s.pc.todo[0])
  {
    VisitFrame(cfg, s);
  }

  lemma OnTimeLoad(cfg: Config, poll: real, start: real, s: State, tid: nat, rid: nat)
    requires Recovering(cfg, poll) && Inv(s) && Prompt(poll, start, s) && OnTime(cfg, poll, start, s, rid)
    requires Enabled(s, LoadDone(tid))
    ensures OnTime(cfg, poll, start, LoadStep(s, tid), rid)
  {
    if s.pc.rid != rid {
      OnTimeOtherLoad(cfg, poll, start, s, tid, rid);
    } else if Replayable(s.rows, rid) {
      OnTimeOwnLoad(cfg, poll, start, s, tid);
    }
  }

  /** Nothing the row's timing depends on has changed. */
  lemma OnTimeSame(cfg: Config, poll: real, start: real, s: State, n: State, rid: nat)
    requires OnTime(cfg, poll, start, s, rid) && n.rows == s.rows && Get(n.attempts, rid) == Get(s.attempts, rid)
    requires rid in n.started ==> rid in s.started && n.started[rid] == s.started[rid]
    requires LastDealt(n, rid) == LastDealt(s, rid) && !n.pc.Loading? && !n.pc.Scanned?
    ensures OnTime(cfg, poll, start, n, rid)
  {
  }

  lemma OnTimeOtherLoad(cfg: Config, poll: real, start: real, s: State, tid: nat, rid: nat)
    requires OnTime(cfg, poll, start, s, rid) && Enabled(s, LoadDone(tid)) && s.pc.rid != rid
    ensures OnTime(cfg, poll, start, LoadStep(s, tid), rid)
  {
    LoadFrame(s, tid);
    OnTimeSame(cfg, poll, start, s, LoadStep(s, tid), rid);
  }

  /** The end of a load leaves every other row's start and count alone. */
  lemma LoadFrame(s: State, tid: nat)
    requires s.pc.Loading?
    ensures var n, rid := LoadStep(s, tid), s.pc.rid;
      && n.rows == s.rows && n.now == s.now && n.swept == s.swept && n.pc == Visiting(s.pc.todo, s.pc.at)
      && (n.started == s.started || n.started == s.started[rid := s.now])
      && (n.attempts == s.attempts - {rid} || n.attempts == s.attempts[rid := s.pc.seen + 1])
  {
  }

  lemma OnTimeOwnLoad(cfg: Config, poll: real, start: real, s: State, tid: nat)
    requires Recovering(cfg, poll) && Inv(s) && Prompt(poll, start, s) && Enabled(s, LoadDone(tid))
    requires OnTime(cfg, poll, start, s, s.pc.rid) && Replayable(s.rows, s.pc.rid)
    ensures OnTime(cfg, poll, start, LoadStep(s, tid), s.pc.rid)
  {
    var rid := s.pc.rid;
    var k, epoch := Get(s.attempts, rid), Epoch(start, s.rows[rid]);
    assert s.now <= Deadline(cfg, poll, epoch, k + 1) == Patience(cfg, poll, epoch, k) + poll;
    var n := LoadStep(s, tid);
    assert n.rows == s.rows && Get(n.attempts, rid) == k + 1 && n.started[rid] == s.now;
  }

  lemma OnTimeFail(cfg: Config, poll: real, start: real, s: State, raises: bool, rid: nat)
    requires Recovering(cfg, poll) && Inv(s) && Prompt(poll, start, s) && OnTime(cfg, poll, start, s, rid)
    requires Enabled(s, FailTry(raises)) && Timely(poll, s, FailTry(raises))
    ensures OnTime(cfg, poll, start, FailStep(s, raises), rid)
  {
    if rid == s.pc.rid {
      assert !raises ==> !Replayable(FailStep(s, raises).rows, rid);
    } else {
      assert Get(FailStep(s, raises).attempts, rid) == Get(s.attempts, rid);
    }
  }

  lemma OnTimeTasks(cfg: Config, poll: real, start: real, s: State, e: Event, rid: nat)
    requires OnTime(cfg, poll, start, s, rid) && Enabled(s, e) && (e.AttemptWrite? || e.TaskEnds? || e.Callback?)
    ensures OnTime(cfg, poll, start, Apply(cfg, s, e), rid)
  {
  }

  lemma OnTimeArrival(cfg: Config, poll: real, start: real, s: State, e: Event, rid: nat)
    requires Recovering(cfg, poll) && Inv(s) && Prompt(poll, start, s) && OnTime(cfg, poll, start, s, rid)
    requires Enabled(s, e) && Timely(poll, s, e) && (e.Insert? || e.ApiDispatch? || e.ReadClock?)
    ensures OnTime(cfg, poll, start, Apply(cfg, s, e), rid)
  {
    var n := Apply(cfg, s, e);
    if rid in s.started {
      assert Tracked(s.tasks, s.inflight[rid], rid, s.started[rid]);
    }
    if Replayable(n.rows, rid) {
      DeadlineClosedForm(cfg, poll, Epoch(start, n.rows[rid]), Get(n.attempts, rid));
    }
  }

  lemma OnTimeStep(cfg: Config, poll: real, start: real, s: State, e: Event, rid: nat)
    requires Recovering(cfg, poll) && Inv(s) && Prompt(poll, start, s) && OnTime(cfg, poll, start, s, rid)
    requires Enabled(s, e) && Timely(poll, s, e)
    ensures OnTime(cfg, poll, start, Apply(cfg, s, e), rid)
  {
    if e.Visit? {
      OnTimeVisit(cfg, poll, start, s, rid);
    } else if e.LoadDone? {
      OnTimeLoad(cfg, poll, start, s, e.tid, rid);
    } else if e.Insert? || e.ApiDispatch? || e.ReadClock? {
      OnTimeArrival(cfg, poll, start, s, e, rid);
    } else if e.FailTry? {
      OnTimeFail(cfg, poll, start, s, e.raises, rid);
    } else if e.AttemptWrite? || e.TaskEnds? || e.Callback? {
      OnTimeTasks(cfg, poll, start, s, e, rid);
    }
  }

  lemma {:induction false} OnTimeRun(cfg: Config, poll: real, s: State, run: seq<Event>, rid: nat)
    requires Recovering(cfg, poll) && Init(s) && Ok(cfg, s, run) && TimelyRun(cfg, poll, s, run)
    ensures var f := After(cfg, s, run);
      Prompt(poll, s.now, f) && OnTime(cfg, poll, s.now, f, rid)
    decreases |run|
  {
    if run == [] {
    } else {
      var n := |run| - 1;
      var m := After(cfg, s, run[..n]);
      OnTimeRun(cfg, poll, s, run[..n], rid);
      InvRun(cfg, s, run[..n]);
      PromptStep(cfg, poll, s.now, m, run[n]);
      OnTimeStep(cfg, poll, s.now, m, run[n], rid);
    }
  }

  lemma ReplayableInTime(cfg: Config, poll: real, start: real, s: State, rid: nat)
    requires Recovering(cfg, poll) && Prompt(poll, start, s) && OnTime(cfg, poll, start, s, rid)
    requires Replayable(s.rows, rid)
    ensures s.now <= Bound(cfg, poll, Epoch(start, s.rows[rid]), cfg.maxRedispatch)
  {
    var epoch, k, M := Epoch(start, s.rows[rid]), Get(s.attempts, rid), cfg.maxRedispatch;
    assert s.now <= Patience(cfg, poll, epoch, k) + poll;
    assert Patience(cfg, poll, epoch, k) + poll == Deadline(cfg, poll, epoch, k + 1);
    DeadlineMonotone(cfg, poll, epoch, k + 1, M + 1);
    DeadlineClosedForm(cfg, poll, epoch, M);
  }

  /** A replayable row is terminal by t0 + max(C, stale) + M*C + (M+1)*P, where t0 is its insertion or,
      for a row left by an earlier process, the start of this one. */
  lemma BoundedResolution(cfg: Config, poll: real, s: State, run: seq<Event>, rid: nat)
    requires Recovering(cfg, poll) && Init(s) && Ok(cfg, s, run) && TimelyRun(cfg, poll, s, run)
    requires rid in After(cfg, s, run).rows && After(cfg, s, run).rows[rid].loadable
    requires After(cfg, s, run).now > Bound(cfg, poll, Epoch(s.now, After(cfg, s, run).rows[rid]), cfg.maxRedispatch)
    ensures !After(cfg, s, run).rows[rid].status.Pending?
  {
    var f := After(cfg, s, run);
    OnTimeRun(cfg, poll, s, run, rid);
    if Replayable(f.rows, rid) {
      ReplayableInTime(cfg, poll, s.now, f, rid);
    }
  }
}

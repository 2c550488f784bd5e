/** What the watchdog fails a row for, and when it starts a new attempt instead. */
module ExternalDispatchCauses {
  import opened ExternalDispatch
  import opened ExternalDispatchSafety

  /** At the sweep's clock reading the row is older than anybody would wait for. */
  predicate TooOld(cfg: Config, rows: map<nat, Row>, rid: nat, at: real) {
    rid in rows && cfg.abandon > 0.0 && at - rows[rid].created > cfg.abandon
  }

  predicate SpentBudget(cfg: Config, attempts: map<nat, nat>, rid: nat) {
    cfg.maxRedispatch > 0 && Get(attempts, rid) >= cfg.maxRedispatch
  }

  /** Why the row is to be failed. */
  function CauseOf(cfg: Config, s: State, rid: nat, at: real): Cause {
    if TooOld(cfg, s.rows, rid, at) then Abandoned else Dropped(Get(s.attempts, rid))
  }

  /** The watchdog fails rows that are too old or have spent their budget, and reloads only others. */
  predicate Justified(cfg: Config, s: State) {
    && (s.pc.Failing? ==>
          && (TooOld(cfg, s.rows, s.pc.rid, s.pc.at) || SpentBudget(cfg, s.attempts, s.pc.rid))
          && s.pc.cause == CauseOf(cfg, s, s.pc.rid, s.pc.at))
    && (s.pc.Loading? ==>
          !TooOld(cfg, s.rows, s.pc.rid, s.pc.at) && !SpentBudget(cfg, s.attempts, s.pc.rid))
  }

  lemma JustifiedVisit(cfg: Config, s: State)
    requires Enabled(s, Visit)
    ensures Justified(cfg, VisitRow(cfg, s))
  {
    VisitFrame(cfg, s);
  }

  /** Nothing the watchdog's decision rests on has changed. */
  lemma StillJustified(cfg: Config, s: State, n: State)
    requires Inv(s) && Justified(cfg, s) && Grows(s.rows, n.rows) && n.attempts == s.attempts
    requires n.pc == s.pc || (n.pc.Failing? && s.pc.Failing? && n.pc == s.pc.(tries := n.pc.tries))
             || (n.pc.Loading? && s.pc.Loading? && n.pc == s.pc.(read := n.pc.read))
    ensures Justified(cfg, n)
  {
  }

  lemma RowsGrow(cfg: Config, s: State, e: Event)
    requires Enabled(s, e)
    ensures Grows(s.rows, Apply(cfg, s, e).rows)
  {
    RowsChange(cfg, s, e);
  }

  lemma JustifiedFail(cfg: Config, s: State, raises: bool)
    requires Inv(s) && Justified(cfg, s) && s.pc.Failing?
    ensures Justified(cfg, FailStep(s, raises))
  {
    var n := FailStep(s, raises);
    if n.pc.Failing? {
      FailFrame(s, raises);
      assert n == s.(pc := n.pc);
      StillJustified(cfg, s, n);
    }
  }

  lemma JustifiedStep(cfg: Config, s: State, e: Event)
    requires Inv(s) && Justified(cfg, s) && Enabled(s, e)
    ensures Justified(cfg, Apply(cfg, s, e))
  {
    if e.Visit? {
      JustifiedVisit(cfg, s);
    } else if e.FailTry? {
      JustifiedFail(cfg, s, e.raises);
    } else if IsOutsider(e) {
      OutsiderLeavesWatchdog(cfg, s, e);
      RowsGrow(cfg, s, e);
      StillJustified(cfg, s, Apply(cfg, s, e));
    } else if e.LoadRead? {
      StillJustified(cfg, s, Apply(cfg, s, e));
    }
  }

  lemma {:induction false} JustifiedRun(cfg: Config, s: State, run: seq<Event>)
    requires Init(s) && Ok(cfg, s, run)
    ensures Justified(cfg, After(cfg, s, run))
    decreases |run|
  {
    if run == [] {
    } else {
      var n := |run| - 1;
      JustifiedRun(cfg, s, run[..n]);
      InvRun(cfg, s, run[..n]);
      JustifiedStep(cfg, After(cfg, s, run[..n]), run[n]);
    }
  }

  /** No sweep ever starts an attempt for a row past the abandon threshold, nor for one whose budget is spent. */
  lemma NoLaunchPastAbandon(cfg: Config, s: State, run: seq<Event>, tid: nat)
    requires Init(s) && Ok(cfg, s, run) && Enabled(After(cfg, s, run), LoadDone(tid))
    ensures After(cfg, s, run).pc.rid in After(cfg, s, run).rows
    ensures var f := After(cfg, s, run);
      && (cfg.abandon <= 0.0 || f.pc.at - f.rows[f.pc.rid].created <= cfg.abandon)
      && (cfg.maxRedispatch <= 0 || Get(f.attempts, f.pc.rid) < cfg.maxRedispatch)
  {
    JustifiedRun(cfg, s, run);
    InvRun(cfg, s, run);
  }

  /** Every failure the watchdog writes has its reason: the row is past the abandon threshold, or, when it is not,
      its budget is spent and the count is named. */
  lemma FailuresHaveReasons(cfg: Config, s: State, run: seq<Event>)
    requires Init(s) && Ok(cfg, s, run) && After(cfg, s, run).pc.Failing?
    ensures After(cfg, s, run).pc.rid in After(cfg, s, run).rows
    ensures var f := After(cfg, s, run);
      if cfg.abandon > 0.0 && f.pc.at - f.rows[f.pc.rid].created > cfg.abandon then f.pc.cause == Abandoned
      else cfg.maxRedispatch > 0 && f.pc.cause == Dropped(Get(f.attempts, f.pc.rid))
           && Get(f.attempts, f.pc.rid) >= cfg.maxRedispatch
  {
    JustifiedRun(cfg, s, run);
    InvRun(cfg, s, run);
  }

  // ---------------------------------------------------------------- what is loaded

  /** After the first i events the row was being loaded and was wanted, or not: pending, with a request to replay. */
  predicate HeldAt(cfg: Config, s: State, run: seq<Event>, i: nat, rid: nat, wanted: bool) {
    && i <= |run| && Ok(cfg, s, run[..i])
    && var m := After(cfg, s, run[..i]);
    && m.pc.Loading? && m.pc.rid == rid
    && (wanted <==> rid in m.rows && m.rows[rid].status == Pending && m.rows[rid].loadable)
  }

  lemma StillLoading(cfg: Config, m: State, e: Event)
    requires Enabled(m, e) && Apply(cfg, m, e).pc.Loading? && !Apply(cfg, m, e).pc.read.Unread?
    ensures e.LoadRead? || Apply(cfg, m, e).pc == m.pc
  {
    if IsOutsider(e) {
      OutsiderLeavesWatchdog(cfg, m, e);
    } else if e.Visit? {
      VisitFrame(cfg, m);
    } else if !e.LoadRead? {
      LoadsNothing(cfg, m, e);
    }
  }

  lemma LoadsNothing(cfg: Config, m: State, e: Event)
    requires Enabled(m, e) && !IsOutsider(e) && !e.Visit? && !e.LoadRead?
    ensures !Apply(cfg, m, e).pc.Loading?
  {
    if e.FailTry? {
      FailLoadsNothing(m, e.raises);
    } else if e.LoadDone? {
      LoadEnds(m, e.tid);
    }
  }

  lemma FailLoadsNothing(m: State, raises: bool)
    requires m.pc.Failing?
    ensures !FailStep(m, raises).pc.Loading?
  {
  }

  lemma LoadEnds(m: State, tid: nat)
    requires m.pc.Loading?
    ensures LoadStep(m, tid).pc == Visiting(m.pc.todo, m.pc.at)
  {
  }

  lemma StillHeldAt(cfg: Config, s: State, run: seq<Event>, i: nat, rid: nat, wanted: bool)
    requires run != [] && HeldAt(cfg, s, run[..|run| - 1], i, rid, wanted)
    ensures HeldAt(cfg, s, run, i, rid, wanted)
  {
    assert run[..|run| - 1][..i] == run[..i];
  }

  /** What a load has given did hold, of the same row, at some moment while it was being loaded. */
  lemma {:induction false} LoadsWhatHeld(cfg: Config, s: State, run: seq<Event>)
    requires Init(s) && Ok(cfg, s, run)
    requires After(cfg, s, run).pc.Loading? && !After(cfg, s, run).pc.read.Unread?
    ensures var pc := After(cfg, s, run).pc;
      exists i: nat :: HeldAt(cfg, s, run, i, pc.rid, pc.read.Loadable?)
    decreases |run|
  {
    var n := |run| - 1;
    var m, pc := After(cfg, s, run[..n]), After(cfg, s, run).pc;
    StillLoading(cfg, m, run[n]);
    if run[n].LoadRead? {
      assert HeldAt(cfg, s, run, n, pc.rid, pc.read.Loadable?);
    } else {
      LoadsWhatHeld(cfg, s, run[..n]);
      var i: nat :| HeldAt(cfg, s, run[..n], i, pc.rid, pc.read.Loadable?);
      StillHeldAt(cfg, s, run, i, pc.rid, pc.read.Loadable?);
    }
  }

  /** An attempt is started exactly if the load found the row wanted; then it is counted, else its count is
      forgotten. */
  lemma StartsWhatIsLoaded(cfg: Config, s: State, tid: nat)
    requires Enabled(s, LoadDone(tid))
    ensures var n, rid := Apply(cfg, s, LoadDone(tid)), s.pc.rid;
      && (s.pc.read.Loadable? ==>
            && n.tasks == s.tasks[tid := Task(rid, Running, s.now)]
            && n.inflight == s.inflight[rid := tid] && n.started == s.started[rid := s.now]
            && n.attempts == s.attempts[rid := s.pc.seen + 1])
      && (s.pc.read.Gone? ==>
            && n.tasks == s.tasks && n.inflight == s.inflight && n.started == s.started
            && n.attempts == s.attempts - {rid})
  {
    LoadLaunches(s, tid);
  }

  lemma LoadLaunches(s: State, tid: nat)
    requires s.pc.Loading?
    ensures var n, rid := LoadStep(s, tid), s.pc.rid;
      if s.pc.read.Loadable?
      then n.tasks == s.tasks[tid := Task(rid, Running, s.now)] && n.inflight == s.inflight[rid := tid]
           && n.started == s.started[rid := s.now] && n.attempts == s.attempts[rid := s.pc.seen + 1]
      else n.tasks == s.tasks && n.inflight == s.inflight && n.started == s.started && n.attempts == s.attempts - {rid}
  {
  }

  // ---------------------------------------------------------------- what becomes of the row

  /** A sweep that reads its clock at `s.pc.at` does not leave the row alone. */
  predicate ActedOn(cfg: Config, s: State, rid: nat)
    requires s.pc.Visiting? && rid in s.rows
  {
    if Live(s, rid) then Overdue(cfg, s, rid, s.pc.at) else s.pc.at - s.rows[rid].created >= cfg.stale
  }

  /** The row was terminal already while its terminal write was still being tried. */
  predicate TerminalInTime(cfg: Config, s: State, run: seq<Event>, rid: nat, i: nat) {
    && i <= |run| && Ok(cfg, s, run[..i])
    && After(cfg, s, run[..i]).pc.Failing? && Terminal(After(cfg, s, run[..i]), rid)
  }

  ghost predicate Beaten(cfg: Config, s: State, run: seq<Event>, rid: nat) {
    exists i: nat :: TerminalInTime(cfg, s, run, rid, i)
  }

  /** The row is being failed, or has been: it holds the failure, unless another write was first or its own was
      given up. */
  ghost predicate FailedOrFailing(cfg: Config, s: State, run: seq<Event>, rid: nat, cause: Cause)
    requires Ok(cfg, s, run)
  {
    var f := After(cfg, s, run);
    || (f.pc.Failing? && f.pc.rid == rid && f.pc.cause == cause && Get(f.exhausted, rid) == Get(s.exhausted, rid))
    || (f.pc.Visiting? && (
          || (rid in f.rows && f.rows[rid].status == Failed(cause))
          || Get(f.exhausted, rid) == Get(s.exhausted, rid) + 1
          || Beaten(cfg, s, run, rid)))
  }

  lemma StillBeaten(cfg: Config, s: State, run: seq<Event>, rid: nat, i: nat)
    requires |run| > 0 && TerminalInTime(cfg, s, run[..|run| - 1], rid, i)
    ensures TerminalInTime(cfg, s, run, rid, i)
  {
    assert run[..|run| - 1][..i] == run[..i];
  }

  /** The last execute of the terminal write, or one that raises before. */
  lemma FailTryFails(m: State, raises: bool)
    requires m.pc.Failing? && m.pc.rid in m.rows
    ensures var n, rid := FailStep(m, raises), m.pc.rid;
      || n == m.(pc := m.pc.(tries := m.pc.tries + 1))
      || (n.pc == Visiting(m.pc.todo, m.pc.at) && Get(n.exhausted, rid) == Get(m.exhausted, rid) + 1)
      || (n.pc == Visiting(m.pc.todo, m.pc.at) && !Terminal(m, rid) && n.rows[rid].status == Failed(m.pc.cause))
      || (n.pc == Visiting(m.pc.todo, m.pc.at) && Terminal(m, rid))
  {
  }

  lemma FailedOrFailingStep(cfg: Config, s: State, run: seq<Event>, rid: nat, cause: Cause)
    requires Ok(cfg, s, run) && |run| > 0 && Inv(After(cfg, s, run[..|run| - 1]))
    requires FailedOrFailing(cfg, s, run[..|run| - 1], rid, cause)
    requires run[|run| - 1].FailTry? || IsOutsider(run[|run| - 1])
    ensures FailedOrFailing(cfg, s, run, rid, cause)
  {
    var n := |run| - 1;
    var m, e := After(cfg, s, run[..n]), run[n];
    if IsOutsider(e) {
      OutsiderLeavesWatchdog(cfg, m, e);
      RowStep(cfg, m, e, rid);
      if i: nat :| TerminalInTime(cfg, s, run[..n], rid, i) {
        StillBeaten(cfg, s, run, rid, i);
      }
    } else {
      FailTryFails(m, e.raises);
      if Terminal(m, rid) {
        assert run[..n][..n] == run[..n];
        assert TerminalInTime(cfg, s, run, rid, n);
      }
    }
  }

  /** A visited row that is past the abandon threshold, or has spent its budget, and is not left alone is failed for
      that reason: when the watchdog moves on the row holds the failure, unless another write was first or the write
      was given up. */
  lemma {:induction false} UnwantedRowsFail(cfg: Config, s: State, run: seq<Event>, rid: nat)
    requires Inv(s) && Enabled(s, Visit) && rid == s.pc.todo[0] && ActedOn(cfg, s, rid)
    requires TooOld(cfg, s.rows, rid, s.pc.at) || SpentBudget(cfg, s.attempts, rid)
    requires Ok(cfg, s, run) && |run| >= 1 && run[0] == Visit
    requires forall i | 1 <= i < |run| :: run[i].FailTry? || IsOutsider(run[i])
    ensures FailedOrFailing(cfg, s, run, rid,
              if cfg.abandon > 0.0 && s.pc.at - s.rows[rid].created > cfg.abandon then Abandoned
              else Dropped(Get(s.attempts, rid)))
    decreases |run|
  {
    var n := |run| - 1;
    if n == 0 {
      assert run[..0] == [] && After(cfg, s, run) == VisitRow(cfg, s);
      VisitFrame(cfg, s);
      assert VisitRow(cfg, s).pc == Failing(rid, CauseOf(cfg, s, rid, s.pc.at), 0, s.pc.todo[1..], s.pc.at);
    } else {
      UnwantedRowsFail(cfg, s, run[..n], rid);
      InvAfter(cfg, s, run[..n]);
      FailedOrFailingStep(cfg, s, run, rid, CauseOf(cfg, s, rid, s.pc.at));
    }
  }
}

/** How far re-dispatches can go: the bound M * (1 + given-up writes) is reached for every M and every number of
    given-up writes. */
module ExternalDispatchBudget {
  import opened ExternalDispatch
  import opened ExternalDispatchSafety

  /** Only the retry budget is switched on, and every orphan is stale at once. */
  function OnlyBudget(M: int): Config {
    Config(0.0, 0.0, 0.0, M)
  }

  function OneRow(): State {
    State(0.0, map[0 := Row(Pending, 0.0, true)], map[], map[], map[], map[], Idle, 0.0, map[], map[])
  }

  /** Row 0 is pending and orphaned; it has been re-dispatched `done` times, `counted` of them since its last
      terminal write was given up, which happened `givenUp` times. */
  predicate Orphaned(s: State, nextTask: nat, counted: nat, done: nat, givenUp: nat) {
    && s.rows == map[0 := Row(Pending, 0.0, true)] && s.pc.Idle? && !Live(s, 0) && s.now == 0.0
    && (forall t | t in s.tasks :: t < nextTask)
    && Get(s.attempts, 0) == counted && Get(s.redispatches, 0) == done && Get(s.exhausted, 0) == givenUp
  }

  /** `run` leads from the start to an orphaned row. */
  predicate Leads(M: int, run: seq<Event>, nextTask: nat, counted: nat, done: nat, givenUp: nat) {
    && Ok(OnlyBudget(M), OneRow(), run)
    && Orphaned(After(OnlyBudget(M), OneRow(), run), nextTask, counted, done, givenUp)
  }

  /** A sweep up to its decision about row 0. */
  lemma Decide(M: int, run: seq<Event>, nextTask: nat, counted: nat, done: nat, givenUp: nat) returns (run': seq<Event>)
    requires M > 0 && Leads(M, run, nextTask, counted, done, givenUp)
    ensures var s := After(OnlyBudget(M), OneRow(), run);
      && Ok(OnlyBudget(M), OneRow(), run')
      && After(OnlyBudget(M), OneRow(), run') ==
         s.(pc := if counted >= M then Failing(0, Dropped(counted), 0, [], 0.0)
                  else Loading(0, counted, Unread, [], 0.0))
  {
    var cfg, s0 := OnlyBudget(M), OneRow();
    var s := After(cfg, s0, run);
    OkAppend(cfg, s0, run, Scan([0]));
    OkAppend(cfg, s0, run + [Scan([0])], ReadClock);
    OkAppend(cfg, s0, run + [Scan([0])] + [ReadClock], Visit);
    run' := run + [Scan([0])] + [ReadClock] + [Visit];
    assert [0][1..] == [];
    assert VisitRow(cfg, s.(pc := Visiting([0], 0.0))) == s.(pc := Redispatch(cfg, counted, 0, 0.0, [], 0.0));
  }

  /** With budget left a sweep re-dispatches the row, and the new attempt dies. */
  lemma Retry(M: int, run: seq<Event>, nextTask: nat, counted: nat, done: nat, givenUp: nat) returns (run': seq<Event>)
    requires M > 0 && counted < M && Leads(M, run, nextTask, counted, done, givenUp)
    ensures Leads(M, run', nextTask + 1, counted + 1, done + 1, givenUp)
  {
    var cfg, s0 := OnlyBudget(M), OneRow();
    var decided := Decide(M, run, nextTask, counted, done, givenUp);
    OkAppend(cfg, s0, decided, LoadRead);
    OkAppend(cfg, s0, decided + [LoadRead], LoadDone(nextTask));
    OkAppend(cfg, s0, decided + [LoadRead] + [LoadDone(nextTask)], EndSweep);
    OkAppend(cfg, s0, decided + [LoadRead] + [LoadDone(nextTask)] + [EndSweep], TaskEnds(nextTask));
    run' := decided + [LoadRead] + [LoadDone(nextTask)] + [EndSweep] + [TaskEnds(nextTask)];
  }

  /** With the budget spent a sweep fails the row, but all three executes of that write raise. */
  lemma GiveUp(M: int, run: seq<Event>, nextTask: nat, done: nat, givenUp: nat) returns (run': seq<Event>)
    requires M > 0 && Leads(M, run, nextTask, M, done, givenUp)
    ensures Leads(M, run', nextTask, 0, done, givenUp + 1)
  {
    var cfg, s0 := OnlyBudget(M), OneRow();
    var decided := Decide(M, run, nextTask, M, done, givenUp);
    OkAppend(cfg, s0, decided, FailTry(true));
    OkAppend(cfg, s0, decided + [FailTry(true)], FailTry(true));
    OkAppend(cfg, s0, decided + [FailTry(true)] + [FailTry(true)], FailTry(true));
    OkAppend(cfg, s0, decided + [FailTry(true)] + [FailTry(true)] + [FailTry(true)], EndSweep);
    run' := decided + [FailTry(true)] + [FailTry(true)] + [FailTry(true)] + [EndSweep];
  }

  lemma {:induction false} Retries(M: int, run: seq<Event>, nextTask: nat, counted: nat, done: nat, givenUp: nat)
    returns (run': seq<Event>, nextTask': nat)
    requires M > 0 && counted <= M && Leads(M, run, nextTask, counted, done, givenUp)
    ensures Leads(M, run', nextTask', M, done + (M - counted), givenUp)
    decreases M - counted
  {
    if counted == M {
      run', nextTask' := run, nextTask;
    } else {
      run' := Retry(M, run, nextTask, counted, done, givenUp);
      run', nextTask' := Retries(M, run', nextTask + 1, counted + 1, done + 1, givenUp);
    }
  }

  /** After g given-up writes the budget has been spent g + 1 times. */
  lemma {:induction false} Spend(M: int, g: nat) returns (run: seq<Event>, nextTask: nat)
    requires M > 0
    ensures Leads(M, run, nextTask, M, M * (1 + g), g)
  {
    if g == 0 {
      assert Leads(M, [], 0, 0, 0, 0);
      run, nextTask := Retries(M, [], 0, 0, 0, 0);
    } else {
      run, nextTask := Spend(M, g - 1);
      run := GiveUp(M, run, nextTask, M * g, g - 1);
      run, nextTask := Retries(M, run, nextTask, 0, M * g, g);
      assert M * g + M == M * (1 + g);
    }
  }

  /** The bound is reached: for every M and every g some run gives up g writes and re-dispatches M * (1 + g) times,
      with the row still pending. */
  lemma BudgetIsReached(M: int, g: nat) returns (cfg: Config, s: State, run: seq<Event>)
    requires M > 0
    ensures cfg.maxRedispatch == M && Init(s) && Ok(cfg, s, run)
    ensures var f := After(cfg, s, run);
      && Get(f.exhausted, 0) == g && Get(f.redispatches, 0) == M * (1 + g)
      && 0 in f.rows && f.rows[0].status.Pending?
  {
    var nextTask;
    cfg, s := OnlyBudget(M), OneRow();
    run, nextTask := Spend(M, g);
  }

  /** No run with at most g given-up writes of a row re-dispatches it more than `bound` times. */
  ghost predicate Bounds(M: int, g: nat, bound: int) {
    forall cfg: Config, s: State, run: seq<Event>, rid: nat |
      cfg.maxRedispatch == M && Init(s) && Ok(cfg, s, run) && Get(After(cfg, s, run).exhausted, rid) <= g ::
      Get(After(cfg, s, run).redispatches, rid) <= bound
  }

  /** M * (1 + g) is the least bound; in particular M itself is one exactly when no terminal write is given up. */
  lemma LeastBound(M: int, g: nat, bound: int)
    requires M > 0
    ensures Bounds(M, g, bound) <==> bound >= M * (1 + g)
    ensures Bounds(M, g, M) <==> g == 0
  {
    var cfg0, s0, run0 := BudgetIsReached(M, g);
    forall cfg: Config, s: State, run: seq<Event>, rid: nat |
      cfg.maxRedispatch == M && Init(s) && Ok(cfg, s, run) && Get(After(cfg, s, run).exhausted, rid) <= g
      ensures Get(After(cfg, s, run).redispatches, rid) <= M * (1 + g)
    {
      RedispatchBudget(cfg, s, run, rid);
      Multiples(M, 1 + Get(After(cfg, s, run).exhausted, rid), 1 + g);
    }
    Multiples(M, 1, 1 + g);
    if g > 0 {
      Multiples(M, 2, 1 + g);
    }
  }

  lemma Multiples(M: int, x: nat, y: nat)
    requires M > 0 && x <= y
    ensures M * x <= M * y
  {
  }
}

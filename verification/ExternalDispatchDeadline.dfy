/** How late a row can be resolved: the deadline of the timing theorem is the least one, for every configuration
    whose abandon threshold does not come first. */
module ExternalDispatchDeadline {
  import opened ExternalDispatch
  import opened ExternalDispatchTiming

  /** Sweeps come at intervals, and no row is old enough to be abandoned before the deadline. */
  predicate Patient(cfg: Config, poll: real) {
    && Recovering(cfg, poll) && poll > 0.0
    && (cfg.abandon <= 0.0 || cfg.abandon >= Bound(cfg, poll, 0.0, cfg.maxRedispatch))
  }

  /** A new process and one row, inserted at this moment. */
  function Start(): State {
    State(0.0, map[0 := Row(Pending, 0.0, true)], map[], map[], map[], map[], Idle, 0.0, map[], map[])
  }

  /** What stands at time `t`, when a sweep has just ended: the row is pending after `k` re-dispatches, and its
      attempt, if it has one, runs since `since`. */
  datatype Stage = Stage(t: real, k: nat, nextTask: nat, live: bool, since: real)

  predicate Standing(s: State, g: Stage) {
    && s.rows == map[0 := Row(Pending, 0.0, true)] && s.pc.Idle? && s.now == s.swept == g.t
    && Get(s.attempts, 0) == g.k && (forall x | x in s.tasks :: x < g.nextTask)
    && (Live(s, 0) <==> g.live) && (g.live ==> 0 in s.started && s.started[0] == g.since)
  }

  predicate Reaches(cfg: Config, poll: real, run: seq<Event>, g: Stage) {
    Ok(cfg, Start(), run) && TimelyRun(cfg, poll, Start(), run) && Standing(After(cfg, Start(), run), g)
  }

  /** A timely run that ends in `s`. */
  predicate Runs(cfg: Config, poll: real, run: seq<Event>, s: State) {
    Ok(cfg, Start(), run) && TimelyRun(cfg, poll, Start(), run) && After(cfg, Start(), run) == s
  }

  lemma OneMore(cfg: Config, poll: real, run: seq<Event>, s: State, e: Event)
    requires Runs(cfg, poll, run, s) && Enabled(s, e) && Timely(poll, s, e)
    ensures Runs(cfg, poll, run + [e], Apply(cfg, s, e))
  {
    OkAppend(cfg, Start(), run, e);
    assert (run + [e])[..|run|] == run;
  }

  /** The next sweep, `d` later, up to its decision about the row. */
  lemma Decide(cfg: Config, poll: real, run: seq<Event>, g: Stage, d: real) returns (run': seq<Event>, s: State)
    requires Reaches(cfg, poll, run, g) && 0.0 <= d <= poll
    ensures s == After(cfg, Start(), run).(now := g.t + d, pc := Visiting([0], g.t + d))
    ensures Runs(cfg, poll, run', VisitRow(cfg, s))
  {
    s := After(cfg, Start(), run);
    run' := run;
    OneMore(cfg, poll, run', s, Tick(d));
    run', s := run' + [Tick(d)], s.(now := g.t + d);
    OneMore(cfg, poll, run', s, Scan([0]));
    run', s := run' + [Scan([0])], s.(pc := Scanned([0]));
    OneMore(cfg, poll, run', s, ReadClock);
    run', s := run' + [ReadClock], s.(pc := Visiting([0], g.t + d));
    OneMore(cfg, poll, run', s, Visit);
    run' := run' + [Visit];
  }

  /** A sweep at this time would leave the row alone. */
  predicate LeftAlone(cfg: Config, g: Stage, at: real) {
    if g.live then at - g.since <= cfg.ceiling else at < cfg.stale
  }

  lemma QuietSweep(cfg: Config, poll: real, run: seq<Event>, g: Stage, d: real) returns (run': seq<Event>)
    requires Reaches(cfg, poll, run, g) && 0.0 <= d <= poll && LeftAlone(cfg, g, g.t + d)
    ensures Reaches(cfg, poll, run', g.(t := g.t + d))
  {
    var s;
    run', s := Decide(cfg, poll, run, g, d);
    assert [0][1..] == [];
    assert VisitRow(cfg, s) == s.(pc := Visiting([], g.t + d));
    OneMore(cfg, poll, run', VisitRow(cfg, s), EndSweep);
    run' := run' + [EndSweep];
  }

  /** A sweep that acts cancels the attempt, if there is one, and starts the next. */
  lemma ActingSweep(cfg: Config, poll: real, run: seq<Event>, g: Stage, d: real) returns (run': seq<Event>)
    requires Reaches(cfg, poll, run, g) && 0.0 <= d <= poll && !LeftAlone(cfg, g, g.t + d)
    requires cfg.ceiling > 0.0 && g.k < cfg.maxRedispatch && (cfg.abandon <= 0.0 || g.t + d <= cfg.abandon)
    ensures Reaches(cfg, poll, run', Stage(g.t + d, g.k + 1, g.nextTask + 1, true, g.t + d))
  {
    var s;
    run', s := Decide(cfg, poll, run, g, d);
    assert [0][1..] == [];
    var v := VisitRow(cfg, s);
    Acts(cfg, s, g, g.t + d);
    OneMore(cfg, poll, run', v, LoadRead);
    run', v := run' + [LoadRead], v.(pc := v.pc.(read := Loadable));
    OneMore(cfg, poll, run', v, LoadDone(g.nextTask));
    run', v := run' + [LoadDone(g.nextTask)], LoadStep(v, g.nextTask);
    OneMore(cfg, poll, run', v, EndSweep);
    run' := run' + [EndSweep];
  }

  lemma Acts(cfg: Config, s: State, g: Stage, at: real)
    requires Standing(s.(pc := Idle, now := g.t), g) && s.now == at && s.pc == Visiting([0], at)
    requires !LeftAlone(cfg, g, at) && cfg.ceiling > 0.0 && g.k < cfg.maxRedispatch
    requires cfg.abandon <= 0.0 || at <= cfg.abandon
    ensures var v := VisitRow(cfg, s);
      && v.pc == Loading(0, g.k, Unread, [], at) && v.rows == s.rows && v.attempts == s.attempts && v.now == at
      && v.tasks.Keys == s.tasks.Keys
  {
    assert [0][1..] == [];
  }

  /** `n` intervals are long enough. */
  predicate Enough(length: real, poll: real, n: nat)
    decreases n
  {
    length <= 0.0 || (n > 0 && Enough(length - poll, poll, n - 1))
  }

  /** Sweeps up to an interval apart leave the row alone until `at`, if one at `at` itself does. */
  lemma {:induction false} QuietUntil(cfg: Config, poll: real, run: seq<Event>, g: Stage, at: real, n: nat)
    returns (run': seq<Event>)
    requires Reaches(cfg, poll, run, g) && poll > 0.0 && g.t <= at && Enough(at - g.t, poll, n)
    requires LeftAlone(cfg, g, at)
    ensures Reaches(cfg, poll, run', g.(t := at))
    decreases n
  {
    if at - g.t <= poll {
      run' := QuietSweep(cfg, poll, run, g, at - g.t);
    } else {
      run' := QuietSweep(cfg, poll, run, g, poll);
      run' := QuietUntil(cfg, poll, run', g.(t := g.t + poll), at, n - 1);
    }
  }

  lemma Intervals(length: real, poll: real) returns (n: nat)
    requires length >= 0.0 && poll > 0.0
    ensures Enough(length, poll, n)
  {
    var x := length / poll;
    assert x * poll == length;
    n := x.Floor + 1;
    Scaled(x, n as real, poll);
    EnoughTimes(length, poll, n);
  }

  lemma Scaled(x: real, y: real, p: real)
    requires x <= y && p > 0.0
    ensures x * p <= y * p
  {
  }

  lemma {:induction false} EnoughTimes(length: real, poll: real, n: nat)
    requires poll > 0.0 && length <= n as real * poll
    ensures Enough(length, poll, n)
    decreases n
  {
    if n == 0 {
    } else {
      assert n as real * poll == (n - 1) as real * poll + poll;
      EnoughTimes(length - poll, poll, n - 1);
    }
  }

  lemma Quiet(cfg: Config, poll: real, run: seq<Event>, g: Stage, at: real) returns (run': seq<Event>)
    requires Reaches(cfg, poll, run, g) && poll > 0.0 && g.t <= at && LeftAlone(cfg, g, at)
    ensures Reaches(cfg, poll, run', g.(t := at))
  {
    var n := Intervals(at - g.t, poll);
    run' := QuietUntil(cfg, poll, run, g, at, n);
  }

  /** The latest moment, less `slack`, at which re-dispatch number k + 1 can happen. */
  function Late(cfg: Config, poll: real, slack: real, k: nat): real {
    Bound(cfg, poll, 0.0, k) - slack
  }

  lemma LateSteps(cfg: Config, poll: real, slack: real, k: nat)
    ensures Late(cfg, poll, slack, k + 1) == Late(cfg, poll, slack, k) + cfg.ceiling + poll
    ensures Late(cfg, poll, slack, 0) == Max(cfg.ceiling, cfg.stale) - slack + poll
  {
    assert (k + 1) as real * cfg.ceiling == k as real * cfg.ceiling + cfg.ceiling;
    assert (k + 2) as real * poll == (k + 1) as real * poll + poll;
  }

  lemma {:induction false} LateGrows(cfg: Config, poll: real, slack: real, k: nat, m: nat)
    requires Recovering(cfg, poll) && k <= m
    ensures Late(cfg, poll, slack, k) <= Late(cfg, poll, slack, m)
    decreases m
  {
    if k == m {
    } else {
      LateGrows(cfg, poll, slack, k, m - 1);
      LateSteps(cfg, poll, slack, m - 1);
    }
  }

  predicate Slack(cfg: Config, poll: real, slack: real) {
    0.0 < slack < poll && slack < cfg.ceiling
  }

  /** The row's first attempt: it stays for a whole ceiling, or it dies at once and the row waits to become stale. */
  lemma First(cfg: Config, poll: real, slack: real) returns (run: seq<Event>, g: Stage)
    requires Patient(cfg, poll) && Slack(cfg, poll, slack)
    ensures Reaches(cfg, poll, run, g) && g.t == 0.0 && g.k == 0
    ensures LeftAlone(cfg, g, Max(cfg.ceiling, cfg.stale) - slack)
    ensures !LeftAlone(cfg, g, Max(cfg.ceiling, cfg.stale) - slack + poll)
  {
    assert Runs(cfg, poll, [], Start());
    var s := Start();
    OneMore(cfg, poll, [], s, ApiDispatch(0, 0));
    run, s := [] + [ApiDispatch(0, 0)], Launch(s, 0, 0);
    if cfg.ceiling >= cfg.stale {
      g := Stage(0.0, 0, 1, true, 0.0);
    } else {
      OneMore(cfg, poll, run, s, TaskEnds(0));
      run := run + [TaskEnds(0)];
      g := Stage(0.0, 0, 1, false, 0.0);
    }
  }

  /** Re-dispatch number k + 1 as late as `slack` allows. */
  lemma {:induction false} Dispatched(cfg: Config, poll: real, slack: real, k: nat) returns (run: seq<Event>, g: Stage)
    requires Patient(cfg, poll) && Slack(cfg, poll, slack) && k < cfg.maxRedispatch
    ensures Reaches(cfg, poll, run, g)
    ensures g.t == g.since == Late(cfg, poll, slack, k) && g.k == k + 1 && g.live
  {
    LateSteps(cfg, poll, slack, k);
    LateGrows(cfg, poll, slack, k, cfg.maxRedispatch);
    var at := Late(cfg, poll, slack, k) - poll;
    if k == 0 {
      run, g := First(cfg, poll, slack);
    } else {
      LateSteps(cfg, poll, slack, k - 1);
      run, g := Dispatched(cfg, poll, slack, k - 1);
    }
    run := Quiet(cfg, poll, run, g, at);
    g := g.(t := at);
    run := ActingSweep(cfg, poll, run, g, poll);
    g := Stage(at + poll, g.k + 1, g.nextTask + 1, true, at + poll);
  }

  /** Within any slack of the deadline the row can still be pending. */
  lemma PendingUntilDeadline(cfg: Config, poll: real, slack: real) returns (run: seq<Event>)
    requires Patient(cfg, poll) && Slack(cfg, poll, slack)
    ensures Ok(cfg, Start(), run) && TimelyRun(cfg, poll, Start(), run)
    ensures var f := After(cfg, Start(), run);
      && f.now == Bound(cfg, poll, 0.0, cfg.maxRedispatch) - slack
      && f.rows == map[0 := Row(Pending, 0.0, true)]
  {
    var M := cfg.maxRedispatch;
    var g;
    run, g := Dispatched(cfg, poll, slack, M - 1);
    LateSteps(cfg, poll, slack, M - 1);
    run := Quiet(cfg, poll, run, g, g.t + cfg.ceiling);
    OneMore(cfg, poll, run, After(cfg, Start(), run), Tick(poll));
    run := run + [Tick(poll)];
  }

  /** Whatever happens, a replayable row is terminal once more than `d` has passed since this process first owed it
      something. */
  ghost predicate ResolvedWithin(cfg: Config, poll: real, d: real) {
    forall s: State, run: seq<Event>, rid: nat |
      && Init(s) && Ok(cfg, s, run) && TimelyRun(cfg, poll, s, run)
      && rid in After(cfg, s, run).rows && After(cfg, s, run).rows[rid].loadable
      && After(cfg, s, run).now > Epoch(s.now, After(cfg, s, run).rows[rid]) + d ::
      !After(cfg, s, run).rows[rid].status.Pending?
  }

  /** max(C, stale) + M*C + (M+1)*P is the least such `d`. */
  lemma LeastDeadline(cfg: Config, poll: real, d: real)
    requires Patient(cfg, poll)
    ensures ResolvedWithin(cfg, poll, d) <==> d >= Bound(cfg, poll, 0.0, cfg.maxRedispatch)
  {
    var bound := Bound(cfg, poll, 0.0, cfg.maxRedispatch);
    if d >= bound {
      forall s: State, run: seq<Event>, rid: nat |
        && Init(s) && Ok(cfg, s, run) && TimelyRun(cfg, poll, s, run)
        && rid in After(cfg, s, run).rows && After(cfg, s, run).rows[rid].loadable
        && After(cfg, s, run).now > Epoch(s.now, After(cfg, s, run).rows[rid]) + d
        ensures !After(cfg, s, run).rows[rid].status.Pending?
      {
        BoundedResolution(cfg, poll, s, run, rid);
      }
    } else {
      var slack := SmallSlack(cfg, poll, bound - d);
      var run := PendingUntilDeadline(cfg, poll, slack);
      assert After(cfg, Start(), run).rows[0].status.Pending?;
    }
  }

  lemma SmallSlack(cfg: Config, poll: real, room: real) returns (slack: real)
    requires Patient(cfg, poll) && room > 0.0
    ensures Slack(cfg, poll, slack) && slack < room
  {
    slack := Min(Min(poll, cfg.ceiling), room) / 2.0;
  }

  function Min(x: real, y: real): real {
    if x <= y then x else y
  }
}

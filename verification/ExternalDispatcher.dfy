/** The dispatcher object itself.  Its maps are updated in place, and whatever else may happen at an await does
    happen there: every method is proved to make a run of the step system, its own events among those of the
    outside, so all that holds of runs holds of it. */
module ExternalDispatcherImpl {
  import opened ExternalDispatch
  import opened ExternalDispatchSafety

  datatype SweepReport = SweepReport(
    pending: nat, inflight: nat, redispatched: seq<nat>, cancelled: seq<nat>, failed: seq<nat>)

  // ---------------------------------------------------------------- pieces of runs

  predicate Steps(cfg: Config, s: State, es: seq<Event>, t: State) {
    Ok(cfg, s, es) && After(cfg, s, es) == t
  }

  predicate Outsiders(es: seq<Event>) {
    forall e | e in es :: IsOutsider(e)
  }

  /** The dispatcher's own events among others. */
  function Own(es: seq<Event>): seq<Event> {
    if es == [] then []
    else Own(es[..|es| - 1]) + if IsOutsider(es[|es| - 1]) then [] else [es[|es| - 1]]
  }

  lemma {:induction false} OwnConcat(a: seq<Event>, b: seq<Event>)
    ensures Own(a + b) == Own(a) + Own(b)
    decreases |b|
  {
    if b == [] {
      assert a + b == a;
    } else {
      var n := |b| - 1;
      assert (a + b)[..|a| + n] == a + b[..n];
      OwnConcat(a, b[..n]);
    }
  }

  lemma {:induction false} OutsidersOwnNothing(es: seq<Event>)
    requires Outsiders(es)
    ensures Own(es) == []
  {
    if es == [] {
    } else {
      OutsidersOwnNothing(es[..|es| - 1]);
    }
  }

  lemma OneStep(cfg: Config, s: State, e: Event)
    requires Enabled(s, e)
    ensures Steps(cfg, s, [e], Apply(cfg, s, e))
  {
    assert Ok(cfg, s, []) && After(cfg, s, []) == s;
    OkAppend(cfg, s, [], e);
    assert [] + [e] == [e];
  }

  lemma {:induction false} StepsThen(cfg: Config, s: State, a: seq<Event>, m: State, b: seq<Event>, t: State)
    requires Steps(cfg, s, a, m) && Steps(cfg, m, b, t)
    ensures Steps(cfg, s, a + b, t)
    decreases |b|
  {
    if b == [] {
      assert a + b == a;
    } else {
      var n := |b| - 1;
      StepsThen(cfg, s, a, m, b[..n], After(cfg, m, b[..n]));
      OkAppend(cfg, s, a + b[..n], b[n]);
      assert a + b == a + b[..n] + [b[n]];
    }
  }

  /** One more event after a piece of a run. */
  lemma StepsAnd(cfg: Config, s: State, a: seq<Event>, m: State, e: Event)
    requires Steps(cfg, s, a, m) && Enabled(m, e)
    ensures Steps(cfg, s, a + [e], Apply(cfg, m, e))
    ensures Own(a + [e]) == Own(a) + if IsOutsider(e) then [] else [e]
  {
    OkAppend(cfg, s, a, e);
    assert (a + [e])[..|a|] == a;
  }

  lemma OutsidersAfter(cfg: Config, s: State, a: seq<Event>, m: State, rest: seq<Event>, t: State)
    requires Steps(cfg, s, a, m) && Steps(cfg, m, rest, t) && Outsiders(rest)
    ensures Steps(cfg, s, a + rest, t) && Own(a + rest) == Own(a)
    ensures t.pc == m.pc && t.attempts == m.attempts && t.redispatches == m.redispatches && t.exhausted == m.exhausted
  {
    StepsThen(cfg, s, a, m, rest, t);
    OwnConcat(a, rest);
    OutsidersOwnNothing(rest);
    OutsidersTouchNone(cfg, m, rest);
  }

  lemma {:induction false} OutsidersTouchNone(cfg: Config, m: State, es: seq<Event>)
    requires Outsiders(es) && Ok(cfg, m, es)
    ensures var t := After(cfg, m, es);
      t.pc == m.pc && t.attempts == m.attempts && t.redispatches == m.redispatches && t.exhausted == m.exhausted
    decreases |es|
  {
    if es == [] {
    } else {
      var n := |es| - 1;
      OutsidersTouchNone(cfg, m, es[..n]);
      OutsiderTouchesNone(cfg, After(cfg, m, es[..n]), es[n]);
    }
  }

  lemma OutsiderTouchesNone(cfg: Config, m: State, e: Event)
    requires IsOutsider(e) && Enabled(m, e)
    ensures var t := Apply(cfg, m, e);
      t.pc == m.pc && t.attempts == m.attempts && t.redispatches == m.redispatches && t.exhausted == m.exhausted
  {
  }

  // ---------------------------------------------------------------- terminal writes

  /** What the outside does does not depend on where the watchdog stands. */
  lemma OutsiderIgnoresPc(cfg: Config, s: State, e: Event, pc: Pc)
    requires IsOutsider(e) && Enabled(s, e)
    ensures Enabled(s.(pc := pc), e) && Apply(cfg, s.(pc := pc), e) == Apply(cfg, s, e).(pc := pc)
    ensures Apply(cfg, s, e).pc == s.pc
  {
  }

  lemma {:induction false} OutsidersIgnorePc(cfg: Config, s: State, es: seq<Event>, pc: Pc)
    requires Outsiders(es) && Ok(cfg, s, es)
    ensures Steps(cfg, s.(pc := pc), es, After(cfg, s, es).(pc := pc)) && After(cfg, s, es).pc == s.pc
    decreases |es|
  {
    if es == [] {
    } else {
      var n := |es| - 1;
      OutsidersIgnorePc(cfg, s, es[..n], pc);
      OutsiderIgnoresPc(cfg, After(cfg, s, es[..n]), es[n], pc);
    }
  }

  /** What happened outside before each try, in order. */
  function Flat(parts: seq<seq<Event>>): seq<Event> {
    if parts == [] then [] else Flat(parts[..|parts| - 1]) + parts[|parts| - 1]
  }

  function Raising(n: nat): (es: seq<Event>)
    ensures |es| == n
  {
    if n == 0 then [] else Raising(n - 1) + [FailTry(true)]
  }

  /** The same with a raising execute after each. */
  function Woven(parts: seq<seq<Event>>): seq<Event> {
    if parts == [] then [] else Woven(parts[..|parts| - 1]) + parts[|parts| - 1] + [FailTry(true)]
  }

  predicate AllOutsiders(parts: seq<seq<Event>>) {
    forall p | p in parts :: Outsiders(p)
  }

  /** `|tries|` executes with what happened before each: all but the last raise, and the last lands or, being the
      third, raises as well. */
  predicate Tried(parts: seq<seq<Event>>, landed: bool) {
    1 <= |parts| <= WRITE_ATTEMPTS && AllOutsiders(parts) && (!landed ==> |parts| == WRITE_ATTEMPTS)
  }

  function WovenTries(parts: seq<seq<Event>>, landed: bool): seq<Event>
    requires parts != []
  {
    var n := |parts| - 1;
    Woven(parts[..n]) + parts[n] + [FailTry(!landed)]
  }

  lemma {:induction false} WovenSteps(cfg: Config, s: State, parts: seq<seq<Event>>)
    requires s.pc.Failing? && s.pc.tries == 0 && |parts| < WRITE_ATTEMPTS && AllOutsiders(parts)
      && Ok(cfg, s, Flat(parts))
    ensures Steps(cfg, s, Woven(parts), After(cfg, s, Flat(parts)).(pc := s.pc.(tries := |parts|)))
    ensures After(cfg, s, Flat(parts)).pc == s.pc && Own(Woven(parts)) == Raising(|parts|)
    decreases |parts|
  {
    if parts == [] {
      assert Own(Woven(parts)) == Raising(0);
    } else {
      var n := |parts| - 1;
      var before, part := parts[..n], parts[n];
      SplitOk(cfg, s, Flat(before), part);
      WovenSteps(cfg, s, before);
      WovenPart(cfg, s, Woven(before), After(cfg, s, Flat(before)), part, n);
    }
  }

  lemma WovenPart(cfg: Config, s: State, woven: seq<Event>, m: State, part: seq<Event>, n: nat)
    requires s.pc.Failing? && n + 1 < WRITE_ATTEMPTS && Outsiders(part) && Ok(cfg, m, part) && m.pc == s.pc
    requires Steps(cfg, s, woven, m.(pc := s.pc.(tries := n)))
    ensures Steps(cfg, s, woven + part + [FailTry(true)], After(cfg, m, part).(pc := s.pc.(tries := n + 1)))
    ensures After(cfg, m, part).pc == s.pc && Own(woven + part + [FailTry(true)]) == Own(woven) + [FailTry(true)]
  {
    var at := s.pc.(tries := n);
    OutsidersIgnorePc(cfg, m, part, at);
    StepsThen(cfg, s, woven, m.(pc := at), part, After(cfg, m, part).(pc := at));
    StepsAnd(cfg, s, woven + part, After(cfg, m, part).(pc := at), FailTry(true));
    OwnConcat(woven, part);
    OutsidersOwnNothing(part);
  }

  lemma {:induction false} SplitOk(cfg: Config, s: State, a: seq<Event>, b: seq<Event>)
    requires Ok(cfg, s, a + b)
    ensures Ok(cfg, s, a) && Ok(cfg, After(cfg, s, a), b) && After(cfg, After(cfg, s, a), b) == After(cfg, s, a + b)
    decreases |b|
  {
    if b == [] {
      assert a + b == a;
    } else {
      var n := |b| - 1;
      assert (a + b)[..|a| + n] == a + b[..n];
      SplitOk(cfg, s, a, b[..n]);
    }
  }

  /** The end of `_fail` after the tries, whose executes saw the table in state `m`. */
  function WriteEnded(m: State, landed: bool): State
    requires m.pc.Failing?
  {
    FailStep(m.(pc := m.pc.(tries := WRITE_ATTEMPTS - 1)), !landed)
  }

  lemma TriesAreSteps(cfg: Config, s: State, parts: seq<seq<Event>>, landed: bool)
    requires s.pc.Failing? && s.pc.tries == 0 && Tried(parts, landed) && Ok(cfg, s, Flat(parts))
    ensures After(cfg, s, Flat(parts)).pc == s.pc
    ensures Steps(cfg, s, WovenTries(parts, landed), WriteEnded(After(cfg, s, Flat(parts)), landed))
    ensures Own(WovenTries(parts, landed)) == Raising(|parts| - 1) + [FailTry(!landed)]
  {
    var n := |parts| - 1;
    var before, part := parts[..n], parts[n];
    SplitOk(cfg, s, Flat(before), part);
    WovenSteps(cfg, s, before);
    LastTry(cfg, s, Woven(before), After(cfg, s, Flat(before)), part, n, landed);
  }

  lemma LastTry(cfg: Config, s: State, woven: seq<Event>, m: State, part: seq<Event>, n: nat, landed: bool)
    requires s.pc.Failing? && n < WRITE_ATTEMPTS && Outsiders(part) && Ok(cfg, m, part) && m.pc == s.pc
    requires Steps(cfg, s, woven, m.(pc := s.pc.(tries := n))) && (!landed ==> n == WRITE_ATTEMPTS - 1)
    ensures After(cfg, m, part).pc == s.pc
    ensures Steps(cfg, s, woven + part + [FailTry(!landed)], WriteEnded(After(cfg, m, part), landed))
    ensures Own(woven + part + [FailTry(!landed)]) == Own(woven) + [FailTry(!landed)]
  {
    var at := s.pc.(tries := n);
    OutsidersIgnorePc(cfg, m, part, at);
    StepsThen(cfg, s, woven, m.(pc := at), part, After(cfg, m, part).(pc := at));
    StepsAnd(cfg, s, woven + part, After(cfg, m, part).(pc := at), FailTry(!landed));
    OwnConcat(woven, part);
    OutsidersOwnNothing(part);
  }

  /** The table after the last execute, which landed or raised. */
  function Written(m: State, rid: nat, outcome: Status, landed: bool): State {
    if landed then m.(rows := Update(m.rows, rid, outcome)) else m
  }

  predicate Matches(m: State, rid: nat) {
    rid in m.rows && m.rows[rid].status.Pending?
  }

  predicate AllRaise(raises: nat -> bool, from: nat, n: int) {
    forall k: nat | from <= k < from + n :: raises(k)
  }

  /** The dispatcher's own part of a terminal write: the tries that raise, up to three, and the one that lands. */
  predicate FailOwn(own: seq<Event>, raises: nat -> bool, from: nat) {
    && 1 <= |own| <= WRITE_ATTEMPTS && AllRaise(raises, from, |own| - 1)
    && own == Raising(|own| - 1) + [FailTry(raises(from + |own| - 1))]
    && (raises(from + |own| - 1) ==> |own| == WRITE_ATTEMPTS)
  }

  lemma {:induction false} WovenMidSweep(parts: seq<seq<Event>>)
    requires AllOutsiders(parts)
    ensures MidSweep(Woven(parts))
    decreases |parts|
  {
    if parts == [] {
    } else {
      var n := |parts| - 1;
      WovenMidSweep(parts[..n]);
      assert parts[n] in parts;
      MidSweepConcat(Woven(parts[..n]), parts[n]);
    }
  }

  /** The state `_fail` leaves when its last execute met the table in state `m`. */
  function AfterFail(m: State, landed: bool): State
    requires m.pc.Failing?
  {
    MoveOn(Written(m, m.pc.rid, Failed(m.pc.cause), landed), landed)
  }

  /** The row's retry count is forgotten and the watchdog goes on. */
  function MoveOn(w: State, landed: bool): State
    requires w.pc.Failing?
  {
    w.(attempts := w.attempts - {w.pc.rid}, pc := Visiting(w.pc.todo, w.pc.at),
       exhausted := if landed then w.exhausted else w.exhausted[w.pc.rid := Get(w.exhausted, w.pc.rid) + 1])
  }

  /** The step system's last execute and the code's agree. */
  lemma EndsAgree(m: State, landed: bool)
    requires m.pc.Failing?
    ensures WriteEnded(m, landed) == AfterFail(m, landed)
  {
  }

  lemma WholeFail(cfg: Config, s: State, parts: seq<seq<Event>>, landed: bool, raises: nat -> bool, from: nat)
    requires s.pc.Failing? && s.pc.tries == 0 && Tried(parts, landed) && Ok(cfg, s, Flat(parts))
    requires AllRaise(raises, from, |parts| - 1) && landed == !raises(from + |parts| - 1)
    ensures After(cfg, s, Flat(parts)).pc == s.pc
    ensures var es := WovenTries(parts, landed);
      && Steps(cfg, s, es, AfterFail(After(cfg, s, Flat(parts)), landed))
      && FailOwn(Own(es), raises, from) && |Own(es)| == |parts| && MidSweep(es)
  {
    TriesAreSteps(cfg, s, parts, landed);
    EndsAgree(After(cfg, s, Flat(parts)), landed);
    RaisingThenLast(|parts| - 1, landed, raises, from);
    TriesMidSweep(parts, landed);
  }

  lemma RaisingThenLast(n: nat, landed: bool, raises: nat -> bool, from: nat)
    requires n < WRITE_ATTEMPTS && AllRaise(raises, from, n) && landed == !raises(from + n)
    requires !landed ==> n == WRITE_ATTEMPTS - 1
    ensures FailOwn(Raising(n) + [FailTry(!landed)], raises, from)
  {
  }

  lemma TriesMidSweep(parts: seq<seq<Event>>, landed: bool)
    requires parts != [] && AllOutsiders(parts)
    ensures MidSweep(WovenTries(parts, landed))
  {
    var n := |parts| - 1;
    WovenMidSweep(parts[..n]);
    assert parts[n] in parts;
  }

  lemma FlatGrows(parts: seq<seq<Event>>, es: seq<Event>)
    ensures Flat(parts + [es]) == Flat(parts) + es
  {
    assert (parts + [es])[..|parts|] == parts;
  }

  // ---------------------------------------------------------------- sweeps

  /** Until the sweep ends, only its own steps and the outside's. */
  predicate MidSweep(es: seq<Event>) {
    forall e | e in es :: IsRowEvent(e) || IsOutsider(e)
  }

  /** `run` leads from `s0` to `s`, has made the query `scan`, read its clock and dealt with its first `i` rows. */
  predicate Sweeping(cfg: Config, s0: State, run: seq<Event>, s: State, scan: seq<nat>, i: nat, at: real) {
    && i <= |scan| && Steps(cfg, s0, run, s) && Inv(s) && s.pc == Visiting(scan[i..], at)
    && |run| >= 1 && run[0] == Scan(scan) && MidSweep(run[1..])
  }

  /** What a sweep's run looks like when it is over. */
  predicate Swept(cfg: Config, s0: State, run: seq<Event>, s: State, scan: seq<nat>, last: Event) {
    && Steps(cfg, s0, run, s) && Inv(s)
    && |run| >= 2 && run[0] == Scan(scan) && run[|run| - 1] == last && MidSweep(run[1..|run| - 1])
  }

  /** One iteration of the sweep loop: its events end at the next row, or with the sweep because loading raised. */
  predicate RowDone(es: seq<Event>, raised: bool) {
    if raised then |es| >= 1 && es[|es| - 1] == SweepAborts && MidSweep(es[..|es| - 1]) else MidSweep(es)
  }

  /** How a load ends its row, or its sweep. */
  lemma RowEnds(es: seq<Event>, raised: bool, last: Event, tid: nat)
    requires MidSweep(es) && Own(es) == if raised then [] else [LoadRead]
    requires last == if raised then SweepAborts else LoadDone(tid)
    ensures RowDone(es + [last], raised)
    ensures Own(es + [last]) == if raised then [SweepAborts] else [LoadRead, LoadDone(tid)]
  {
    assert (es + [last])[..|es|] == es;
  }

  lemma RowDoneAfterVisit(rest: seq<Event>, raised: bool)
    requires RowDone(rest, raised)
    ensures RowDone([Visit] + rest, raised)
  {
    if raised {
      var n := |rest| - 1;
      assert ([Visit] + rest)[..n + 1] == [Visit] + rest[..n];
    }
  }

  lemma MidSweepConcat(a: seq<Event>, b: seq<Event>)
    requires MidSweep(a) && MidSweep(b)
    ensures MidSweep(a + b)
  {
  }

  lemma SweepBegins(cfg: Config, s0: State, scan: seq<nat>, s1: State, es: seq<Event>, s2: State)
    requires Inv(s0) && Enabled(s0, Scan(scan)) && s1 == Apply(cfg, s0, Scan(scan))
    requires Steps(cfg, s1, es, s2) && Outsiders(es) && s2.pc == s1.pc
    ensures Sweeping(cfg, s0, [Scan(scan)] + es + [ReadClock], s2.(pc := Visiting(scan, s2.now)), scan, 0, s2.now)
  {
    var run := [Scan(scan)] + es + [ReadClock];
    OneStep(cfg, s0, Scan(scan));
    StepsThen(cfg, s0, [Scan(scan)], s1, es, s2);
    StepsAnd(cfg, s0, [Scan(scan)] + es, s2, ReadClock);
    InvAfter(cfg, s0, run);
    assert run[1..] == es + [ReadClock];
    assert scan[0..] == scan;
  }

  lemma SweepContinues(cfg: Config, s0: State, run: seq<Event>, s: State, scan: seq<nat>, i: nat, at: real,
                       es: seq<Event>, t: State, raised: bool)
    requires Inv(s0) && Sweeping(cfg, s0, run, s, scan, i, at) && i < |scan|
    requires Steps(cfg, s, es, t) && RowDone(es, raised)
    requires if raised then t.pc.Idle? else t.pc == Visiting(scan[i..][1..], at)
    ensures if raised then Swept(cfg, s0, run + es, t, scan, SweepAborts)
            else Sweeping(cfg, s0, run + es, t, scan, i + 1, at)
  {
    StepsThen(cfg, s0, run, s, es, t);
    InvAfter(cfg, s0, run + es);
    if raised {
      var n := |es| - 1;
      MidSweepConcat(run[1..], es[..n]);
      assert (run + es)[1..|run + es| - 1] == run[1..] + es[..n];
    } else {
      MidSweepConcat(run[1..], es);
      assert (run + es)[1..] == run[1..] + es;
      assert scan[i..][1..] == scan[i + 1..];
    }
  }

  /** When a sweep is completed every row of its query is settled by the sweep's clock reading - unless its terminal
      write was given up, or the attempt that settled it has ended since. */
  ghost predicate SettledAll(cfg: Config, s0: State, run: seq<Event>, s: State, scan: seq<nat>) {
    forall rid | rid in scan ::
      || Settled(cfg, s, rid, s.swept)
      || Get(s.exhausted, rid) > Get(s0.exhausted, rid)
      || AttemptEnded(cfg, s0, run, rid)
  }

  /** A sweep is over: its run keeps the invariant, and if it was completed all its rows are settled. */
  ghost predicate SweepDone(cfg: Config, s0: State, run: seq<Event>, s: State, scan: seq<nat>, completed: bool) {
    && Swept(cfg, s0, run, s, scan, if completed then EndSweep else SweepAborts) && s.pc.Idle?
    && (completed ==> SettledAll(cfg, s0, run, s, scan))
  }

  lemma SweepEnds(cfg: Config, s0: State, run: seq<Event>, s: State, scan: seq<nat>, at: real)
    requires Inv(s0) && Sweeping(cfg, s0, run, s, scan, |scan|, at)
    ensures Swept(cfg, s0, run + [EndSweep], s.(pc := Idle, swept := at), scan, EndSweep)
    ensures SettledAll(cfg, s0, run + [EndSweep], s.(pc := Idle, swept := at), scan)
  {
    StepsAnd(cfg, s0, run, s, EndSweep);
    InvStep(cfg, s, EndSweep);
    var whole := run + [EndSweep];
    assert whole[1..|whole| - 1] == run[1..];
    forall rid | rid in scan
      ensures || Settled(cfg, s.(pc := Idle, swept := at), rid, at)
              || Get(s.exhausted, rid) > Get(s0.exhausted, rid)
              || AttemptEnded(cfg, s0, whole, rid)
    {
      assert forall i | 1 <= i < |run| :: run[i] == run[1..][i - 1] && run[i] in run[1..];
      SweepReachesAll(cfg, s0, run, scan, rid);
      if i: nat :| EndedAt(cfg, s0, run, rid, i) {
        assert whole[..|whole| - 1] == run;
        StillEndedAt(cfg, s0, whole, rid, i);
      }
    }
  }

  lemma CloseKeeps(cfg: Config, s: State)
    requires Inv(s)
    ensures Inv(Close(s)) && Close(s).tasks.Keys == s.tasks.Keys && s.inflight.Values <= s.tasks.Keys
  {
    TrackedAreTasks(s);
    InvTasks(cfg, s, Event.AClose);
  }

  lemma TrackedAreTasks(s: State)
    requires Inv(s)
    ensures s.inflight.Values <= s.tasks.Keys
  {
    forall t | t in s.inflight.Values ensures t in s.tasks {
      var rid :| rid in s.inflight && s.inflight[rid] == t;
      assert Tracked(s.tasks, s.inflight[rid], rid, s.started[rid]);
    }
  }

  /** A row is reported at most once under each heading, and as re-dispatched exactly if it was. */
  predicate RowReported(r: SweepReport, r': SweepReport, rid: nat, before: map<nat, nat>, after: map<nat, nat>) {
    && r'.pending == r.pending
    && (if r'.redispatched == r.redispatched then after == before else after == before[rid := Get(before, rid) + 1])
    && (r'.redispatched == r.redispatched || r'.redispatched == r.redispatched + [rid])
    && (r'.cancelled == r.cancelled || r'.cancelled == r.cancelled + [rid])
    && (r'.failed == r.failed || r'.failed == r.failed + [rid])
  }

  /** How often `x` is listed. */
  function Times(xs: seq<nat>, x: nat): nat {
    if xs == [] then 0 else Times(xs[..|xs| - 1], x) + if xs[|xs| - 1] == x then 1 else 0
  }

  /** The report names rows of the query only, and each re-dispatch as often as it happened. */
  ghost predicate ReportRight(r: SweepReport, scan: seq<nat>, before: map<nat, nat>, after: map<nat, nat>) {
    && (forall rid | rid in r.redispatched || rid in r.cancelled || rid in r.failed :: rid in scan)
    && forall rid: nat :: Get(after, rid) == Get(before, rid) + Times(r.redispatched, rid)
  }

  lemma ReportStaysRight(r: SweepReport, r': SweepReport, rid: nat, scan: seq<nat>, before: map<nat, nat>,
                         mid: map<nat, nat>, after: map<nat, nat>)
    requires ReportRight(r, scan, before, mid) && RowReported(r, r', rid, mid, after) && rid in scan
    ensures ReportRight(r', scan, before, after) && r'.pending == r.pending
  {
    assert (r.redispatched + [rid])[..|r.redispatched|] == r.redispatched;
  }

  lemma NothingReported(pending: nat, scan: seq<nat>, before: map<nat, nat>)
    ensures ReportRight(SweepReport(pending, 0, [], [], []), scan, before, before)
  {
  }

  /** The row's retry count after a load: one more, or forgotten. */
  function Counted(attempts: map<nat, nat>, rid: nat, seen: nat, launched: bool): map<nat, nat> {
    if launched then attempts[rid := seen + 1] else attempts - {rid}
  }

  function Redispatches(counts: map<nat, nat>, rid: nat, launched: bool): map<nat, nat> {
    if launched then counts[rid := Get(counts, rid) + 1] else counts
  }

  // ---------------------------------------------------------------- the object

  /** `outside(k)` is what else happens at await number k, and `raises(k)` whether the database call awaited then
      raises. */
  class ExternalDispatcher {
    const cfg: Config
    const outside: nat -> seq<Event>
    const raises: nat -> bool
    var awaits: nat
    var now: real
    var rows: map<nat, Row>
    var tasks: map<nat, Task>
    var nextTask: nat
    var inflight: map<nat, nat>
    var started: map<nat, real>
    var attempts: map<nat, nat>
    ghost var pc: Pc
    ghost var swept: real
    ghost var redispatches: map<nat, nat>
    ghost var exhausted: map<nat, nat>

    ghost function View(): State
      reads this
    {
      State(now, rows, tasks, inflight, started, attempts, pc, swept, redispatches, exhausted)
    }

    ghost predicate Fresh()
      reads this`tasks, this`nextTask
    {
      forall t | t in tasks :: t < nextTask
    }

    ghost predicate Valid()
      reads this
    {
      Inv(View()) && Fresh()
    }

    /** A new process in front of an existing table. */
    constructor (cfg: Config, now: real, rows: map<nat, Row>, outside: nat -> seq<Event>, raises: nat -> bool)
      requires forall rid | rid in rows :: rows[rid].created <= now
      ensures Valid() && Init(View()) && this.cfg == cfg && this.now == now && this.rows == rows
      ensures this.outside == outside && this.raises == raises && awaits == 0
    {
      this.cfg, this.now, this.rows, this.outside, this.raises := cfg, now, rows, outside, raises;
      awaits, tasks, nextTask, inflight, started, attempts := 0, map[], 0, map[], map[], map[];
      pc, swept, redispatches, exhausted := Idle, now, map[], map[];
    }

    method Dispatch(rid: nat) returns (tid: nat)
      requires rid in rows && Fresh()
      modifies this`tasks, this`nextTask, this`inflight, this`started
      ensures tid == old(nextTask) && tid !in old(tasks)
      ensures View() == Apply(cfg, old(View()), ApiDispatch(rid, tid))
      ensures tasks == old(tasks)[tid := Task(rid, Running, now)]
      ensures inflight == old(inflight)[rid := tid] && started == old(started)[rid := now]
      ensures (old(Valid()) ==> Valid()) && Fresh()
    {
      tid := nextTask;
      Start(rid, tid);
      if Inv(old(View())) {
        InvLaunch(old(View()), rid, tid);
      }
    }

    method Start(rid: nat, tid: nat)
      requires Fresh()
      modifies this`tasks, this`nextTask, this`inflight, this`started
      ensures View() == Launch(old(View()), rid, tid) && Fresh()
    {
      tasks := tasks[tid := Task(rid, Running, now)];
      nextTask := if tid < nextTask then nextTask else tid + 1;
      inflight := inflight[rid := tid];
      started := started[rid := now];
    }

    method OnTaskDone(rid: nat, tid: nat)
      requires tid in tasks && tasks[tid].rid == rid && tasks[tid].phase.Done?
      modifies this`inflight, this`started
      ensures View() == Apply(cfg, old(View()), Callback(tid))
      ensures var own := rid in old(inflight) && old(inflight)[rid] == tid;
        && inflight == (if own then old(inflight) - {rid} else old(inflight))
        && started == (if own then old(started) - {rid} else old(started))
      ensures old(Valid()) ==> Valid()
    {
      if rid in inflight && inflight[rid] == tid {
        inflight := inflight - {rid};
        started := started - {rid};
      }
      if Inv(old(View())) {
        InvStep(cfg, old(View()), Callback(tid));
      }
    }

    /** An event of the outside, if it can happen now. */
    method Happen(e: Event)
      requires IsOutsider(e) && Fresh()
      modifies this`now, this`rows, this`tasks, this`nextTask, this`inflight, this`started
      ensures View() == if Enabled(old(View()), e) then Apply(cfg, old(View()), e) else old(View())
      ensures Fresh() && old(rows).Keys <= rows.Keys
    {
      match e
      case Tick(d) =>
        now := if d >= 0.0 then now + d else now;
      case Insert(rid, loadable) =>
        rows := if rid in rows then rows else rows[rid := Row(Pending, now, loadable)];
      case ApiDispatch(rid, tid) =>
        if rid in rows && tid !in tasks {
          Start(rid, tid);
        }
      case AttemptWrite(tid, outcome, raised) =>
        if tid in tasks && !tasks[tid].phase.Done? && !outcome.Pending? && !raised {
          rows := Update(rows, tasks[tid].rid, outcome);
        }
      case TaskEnds(tid) =>
        tasks := if tid in tasks then tasks[tid := tasks[tid].(phase := Done)] else tasks;
      case Callback(tid) =>
        if tid in tasks && tasks[tid].phase.Done? {
          OnTaskDone(tasks[tid].rid, tid);
        }
    }

    /** Everything that happens at one await. */
    method Await() returns (ghost es: seq<Event>)
      requires Fresh()
      modifies this`awaits, this`now, this`rows, this`tasks, this`nextTask, this`inflight, this`started
      ensures awaits == old(awaits) + 1
      ensures Outsiders(es) && Steps(cfg, old(View()), es, View())
      ensures Fresh() && old(rows).Keys <= rows.Keys
    {
      var todo := outside(awaits);
      awaits := awaits + 1;
      es := [];
      var i := 0;
      while i < |todo|
        invariant i <= |todo| && awaits == old(awaits) + 1
        invariant Outsiders(es) && Steps(cfg, old(View()), es, View())
        invariant Fresh() && old(rows).Keys <= rows.Keys
      {
        if IsOutsider(todo[i]) {
          ghost var s := View();
          Happen(todo[i]);
          if Enabled(s, todo[i]) {
            StepsAnd(cfg, old(View()), es, s, todo[i]);
            es := es + [todo[i]];
          }
        }
        i := i + 1;
      }
    }

    /** One execute of the conditional terminal write. */
    method TryWrite(rid: nat, outcome: Status) returns (raised: bool, matched: bool, ghost es: seq<Event>)
      requires Fresh()
      modifies this`awaits, this`now, this`rows, this`tasks, this`nextTask, this`inflight, this`started
      ensures awaits == old(awaits) + 1 && raised == raises(old(awaits))
      ensures Outsiders(es) && Ok(cfg, old(View()), es) && Fresh() && old(rows).Keys <= rows.Keys
      ensures View() == Written(After(cfg, old(View()), es), rid, outcome, !raised)
      ensures matched <==> !raised && Matches(After(cfg, old(View()), es), rid)
    {
      raised := raises(awaits);
      es := Await();
      matched := !raised && rid in rows && rows[rid].status.Pending?;
      rows := if raised then rows else Update(rows, rid, outcome);
    }

    /** The conditional terminal write, tried until an execute does not raise; `parts` is what happened outside
        before each execute.  It returns True exactly when its own execute landed on a pending row. */
    method CompleteExternalFuture(rid: nat, outcome: Status)
      returns (won: bool, ghost landed: bool, ghost parts: seq<seq<Event>>)
      requires Fresh()
      modifies this`awaits, this`now, this`rows, this`tasks, this`nextTask, this`inflight, this`started
      ensures Tried(parts, landed) && awaits == old(awaits) + |parts|
      ensures AllRaise(raises, old(awaits), |parts| - 1) && landed == !raises(old(awaits) + |parts| - 1)
      ensures Ok(cfg, old(View()), Flat(parts)) && Fresh() && old(rows).Keys <= rows.Keys
      ensures View() == Written(After(cfg, old(View()), Flat(parts)), rid, outcome, landed)
      ensures won <==> landed && Matches(After(cfg, old(View()), Flat(parts)), rid)
      ensures 1 <= |parts| <= 3 && (!landed ==> |parts| == 3)
      ensures var m := After(cfg, old(View()), Flat(parts));
        if won then rid in m.rows && m.rows[rid].status == Pending
                    && rows == m.rows[rid := m.rows[rid].(status := outcome)]
        else rows == m.rows
    {
      won, landed, parts := false, false, [];
      var attempt := 0;
      while attempt < WRITE_ATTEMPTS
        invariant attempt == |parts| <= WRITE_ATTEMPTS && !won && !landed && AllOutsiders(parts)
        invariant awaits == old(awaits) + attempt && AllRaise(raises, old(awaits), attempt)
        invariant Steps(cfg, old(View()), Flat(parts), View()) && Fresh() && old(rows).Keys <= rows.Keys
      {
        ghost var s, before := View(), parts;
        var raised, matched;
        ghost var es;
        raised, matched, es := TryWrite(rid, outcome);
        StepsThen(cfg, old(View()), Flat(before), s, es, After(cfg, s, es));
        FlatGrows(before, es);
        parts := before + [es];
        if !raised {
          won, landed := matched, true;
          return;
        }
        attempt := attempt + 1;
      }
    }

    method Forget(rid: nat, ghost landed: bool)
      requires pc.Failing? && pc.rid == rid
      modifies this`attempts, this`pc, this`exhausted
      ensures View() == MoveOn(old(View()), landed)
    {
      attempts := attempts - {rid};
      exhausted := if landed then exhausted else exhausted[rid := Get(exhausted, rid) + 1];
      pc := Visiting(pc.todo, pc.at);
    }

    /** `_fail`; the watchdog stands at the first execute of the row's terminal write.  It goes on some time after the
        last execute, and nothing outside looks at the count it then forgets. */
    method Fail(rid: nat, cause: Cause) returns (ghost es: seq<Event>)
      requires pc.Failing? && pc.rid == rid && pc.cause == cause && pc.tries == 0 && Fresh()
      modifies this`awaits, this`now, this`rows, this`tasks, this`nextTask, this`inflight, this`started
      modifies this`attempts, this`pc, this`exhausted
      ensures Steps(cfg, old(View()), es, View()) && pc == Visiting(old(pc).todo, old(pc).at)
      ensures FailOwn(Own(es), raises, old(awaits)) && MidSweep(es) && awaits == old(awaits) + |Own(es)| + 1
      ensures Fresh() && old(rows).Keys <= rows.Keys && attempts == old(attempts) - {rid}
    {
      ghost var s := View();
      ghost var landed, parts, rest;
      var won;
      won, landed, parts := CompleteExternalFuture(rid, Failed(cause));
      WholeFail(cfg, s, parts, landed, raises, old(awaits));
      Forget(rid, landed);
      ghost var m := View();
      rest := Await();
      es := WovenTries(parts, landed) + rest;
      OutsidersAfter(cfg, s, WovenTries(parts, landed), m, rest, View());
    }

    /** Reads the stored request; `loaded` says it could be replayed and was still wanted when it was read, which is
        some time before the watchdog goes on. */
    method LoadRequest(rid: nat) returns (loaded: bool, raised: bool, ghost es: seq<Event>)
      requires pc.Loading? && pc.rid == rid && pc.read.Unread? && Fresh() && rid in rows
      modifies this`awaits, this`now, this`rows, this`tasks, this`nextTask, this`inflight, this`started, this`pc
      ensures raised == raises(old(awaits)) && awaits == old(awaits) + if raised then 1 else 2
      ensures Steps(cfg, old(View()), es, View()) && MidSweep(es) && Own(es) == if raised then [] else [LoadRead]
      ensures pc == if raised then old(pc) else old(pc).(read := if loaded then Loadable else Gone)
      ensures raised ==> !loaded
      ensures Fresh() && old(rows).Keys <= rows.Keys
    {
      ghost var s := View();
      raised, loaded := raises(awaits), false;
      es := Await();
      OutsidersOwnNothing(es);
      if !raised {
        ghost var m, rest := View(), [];
        loaded := Replayable(rows, rid);
        pc := pc.(read := if loaded then Loadable else Gone);
        StepsAnd(cfg, s, es, m, LoadRead);
        ghost var read := View();
        rest := Await();
        OutsidersAfter(cfg, s, es + [LoadRead], read, rest, View());
        es := es + [LoadRead] + rest;
      }
    }

    /** `_redispatch` after the load: the attempt is counted and started, or the count forgotten. */
    method Relaunch(rid: nat, seen: nat, loaded: bool) returns (ghost tid: nat)
      requires pc.Loading? && pc.rid == rid && pc.seen == seen && Fresh() && rid in rows
      requires pc.read == if loaded then Loadable else Gone
      modifies this`tasks, this`nextTask, this`inflight, this`started, this`attempts, this`pc, this`redispatches
      ensures tid == old(nextTask) && View() == LoadStep(old(View()), tid) && Fresh()
      ensures redispatches == Redispatches(old(redispatches), rid, loaded)
      ensures attempts == Counted(old(attempts), rid, seen, loaded)
    {
      tid := nextTask;
      pc := Visiting(pc.todo, pc.at);
      if loaded {
        attempts := attempts[rid := seen + 1];
        redispatches := redispatches[rid := Get(redispatches, rid) + 1];
        var task := Dispatch(rid);
      } else {
        attempts := attempts - {rid};
      }
    }

    /** A database error ends the sweep. */
    ghost method Abort()
      modifies this`pc
      ensures View() == Apply(cfg, old(View()), SweepAborts)
    {
      pc := Idle;
    }

    /** What follows the load: the sweep ends if it raised, else the row is dealt with. */
    method Resume(rid: nat, seen: nat, loaded: bool, raised: bool) returns (ghost last: Event)
      requires pc.Loading? && pc.rid == rid && pc.seen == seen && Fresh() && rid in rows && (raised ==> !loaded)
      requires !raised ==> pc.read == if loaded then Loadable else Gone
      modifies this`tasks, this`nextTask, this`inflight, this`started, this`attempts, this`pc, this`redispatches
      ensures last == if raised then SweepAborts else LoadDone(old(nextTask))
      ensures Steps(cfg, old(View()), [last], View()) && Fresh()
      ensures pc == if raised then Idle else Visiting(old(pc).todo, old(pc).at)
      ensures redispatches == Redispatches(old(redispatches), rid, loaded)
      ensures attempts == if raised then old(attempts) else Counted(old(attempts), rid, seen, loaded)
    {
      last := if raised then SweepAborts else LoadDone(nextTask);
      OneStep(cfg, View(), last);
      if raised {
        Abort();
      } else {
        ghost var tid := Relaunch(rid, seen, loaded);
      }
    }

    /** `_redispatch` of a row that may be tried again.  If the load raises, so does the whole sweep. */
    method Reload(rid: nat, seen: nat) returns (launched: bool, raised: bool, ghost tid: nat, ghost es: seq<Event>)
      requires pc.Loading? && pc.rid == rid && pc.seen == seen && pc.read.Unread? && Fresh() && rid in rows
      modifies this`awaits, this`now, this`rows, this`tasks, this`nextTask, this`inflight, this`started
      modifies this`attempts, this`pc, this`redispatches
      ensures Steps(cfg, old(View()), es, View()) && RowDone(es, raised) && Fresh() && old(rows).Keys <= rows.Keys
      ensures Own(es) == if raised then [SweepAborts] else [LoadRead, LoadDone(tid)]
      ensures pc == if raised then Idle else Visiting(old(pc).todo, old(pc).at)
      ensures awaits == old(awaits) + |Own(es)| && raised == raises(old(awaits))
      ensures redispatches == Redispatches(old(redispatches), rid, launched) && (raised ==> !launched)
      ensures attempts == if raised then old(attempts) else if launched then old(attempts)[rid := seen + 1]
                          else old(attempts) - {rid}
    {
      ghost var s, last := View(), SweepAborts;
      launched, raised, es := LoadRequest(rid);
      ghost var m := View();
      tid := nextTask;
      last := Resume(rid, seen, launched, raised);
      StepsThen(cfg, s, es, m, [last], View());
      RowEnds(es, raised, last, tid);
      es := es + [last];
    }

    /** `_redispatch`; the watchdog has just decided to act on the row. */
    method Redispatch(rid: nat, age: real, report: SweepReport)
      returns (launched: bool, raised: bool, report': SweepReport, ghost es: seq<Event>)
      requires (pc.Failing? ==> pc.tries == 0) && (pc.Failing? || pc.Loading?) && rid in rows && Fresh()
      requires pc == ExternalDispatch.Redispatch(cfg, Get(attempts, rid), rid, age, pc.todo, pc.at)
      modifies this`awaits, this`now, this`rows, this`tasks, this`nextTask, this`inflight, this`started
      modifies this`attempts, this`pc, this`redispatches, this`exhausted
      ensures Steps(cfg, old(View()), es, View()) && RowDone(es, raised) && Fresh() && old(rows).Keys <= rows.Keys
      ensures pc == if raised then Idle else Visiting(old(pc).todo, old(pc).at)
      ensures awaits == old(awaits) + |Own(es)| + if old(pc).Failing? then 1 else 0
      ensures raised <==> old(pc).Loading? && raises(old(awaits))
      ensures redispatches == Redispatches(old(redispatches), rid, launched)
      ensures launched ==> old(pc).Loading? && !raised
      ensures old(pc).Failing? ==> FailOwn(Own(es), raises, old(awaits))
      ensures old(pc).Loading? ==> if raised then Own(es) == [SweepAborts] else |Own(es)| == 2 && Own(es)[0] == LoadRead
      ensures report' == report.(redispatched := if launched then report.redispatched + [rid] else report.redispatched,
                                 failed := if old(pc).Failing? then report.failed + [rid] else report.failed)
      ensures (cfg.abandon > 0.0 && age > cfg.abandon)
              || (cfg.maxRedispatch > 0 && rid in old(attempts) && old(attempts)[rid] >= cfg.maxRedispatch)
              <==> report'.failed == report.failed + [rid]
      ensures report'.failed == report.failed + [rid] ==> !launched && !raised
      ensures if launched then rid in attempts && attempts[rid] == Get(old(attempts), rid) + 1
              else raised || rid !in attempts
    {
      report', launched, raised := report, false, false;
      var seen := if rid in attempts then attempts[rid] else 0;
      ghost var tid;
      if cfg.abandon > 0.0 && age > cfg.abandon {
        es := Fail(rid, Abandoned);
        report' := report'.(failed := report'.failed + [rid]);
      } else if cfg.maxRedispatch > 0 && seen >= cfg.maxRedispatch {
        es := Fail(rid, Dropped(seen));
        report' := report'.(failed := report'.failed + [rid]);
      } else {
        launched, raised, tid, es := Reload(rid, seen);
        report' := if launched then report'.(redispatched := report'.redispatched + [rid]) else report';
      }
    }

    method CancelAttempt(rid: nat)
      requires rid in inflight && inflight[rid] in tasks && Fresh()
      modifies this`tasks, this`inflight, this`started
      ensures View() == Cancel(old(View()), rid) && Fresh()
    {
      var tid := inflight[rid];
      tasks := tasks[tid := tasks[tid].(phase := Cancelling)];
      inflight := inflight - {rid};
      started := started - {rid};
    }

    /** One iteration of the sweep loop up to its first await: decide, and cancel a wedged attempt. */
    method Inspect(rid: nat, at: real, report: SweepReport) returns (act: bool, report': SweepReport)
      requires Inv(View()) && Enabled(View(), Visit) && pc.todo[0] == rid && pc.at == at && Fresh()
      modifies this`tasks, this`inflight, this`started, this`pc
      ensures View() == VisitRow(cfg, old(View())) && Fresh()
      ensures act <==> !pc.Visiting?
      ensures if act then (pc.Failing? || pc.Loading?) && pc.todo == old(pc).todo[1..] && pc.at == at
              else pc == Visiting(old(pc).todo[1..], at)
      ensures var live := rid in old(inflight) && old(inflight)[rid] in old(tasks)
                          && !old(tasks)[old(inflight)[rid]].phase.Done?;
        && (live ==> rid in old(started))
        && (act <==> if live then cfg.ceiling > 0.0 && at - old(started)[rid] > cfg.ceiling
                     else at - rows[rid].created >= cfg.stale)
        && report' == report.(inflight := report.inflight + if live then 1 else 0,
                              cancelled := if live && act then report.cancelled + [rid] else report.cancelled)
    {
      report', act := report, true;
      ghost var s := View();
      var age := at - rows[rid].created;
      if rid in inflight && inflight[rid] in tasks && !tasks[inflight[rid]].phase.Done? {
        report' := report'.(inflight := report'.inflight + 1);
        var running := at - (if rid in started then started[rid] else at);
        act := cfg.ceiling > 0.0 && running > cfg.ceiling;
        if act {
          CancelAttempt(rid);
          report' := report'.(cancelled := report'.cancelled + [rid]);
        }
      } else {
        act := age >= cfg.stale;
      }
      pc := VisitRow(cfg, s).pc;
    }

    /** One iteration of the sweep loop, for the row the watchdog visits next. */
    method SweepRow(rid: nat, at: real, report: SweepReport)
      returns (raised: bool, report': SweepReport, ghost es: seq<Event>)
      requires Valid() && Enabled(View(), Visit) && pc.todo[0] == rid && pc.at == at
      modifies this`awaits, this`now, this`rows, this`tasks, this`nextTask, this`inflight, this`started
      modifies this`attempts, this`pc, this`redispatches, this`exhausted
      ensures Steps(cfg, old(View()), es, View()) && RowDone(es, raised) && Fresh() && es != [] && es[0] == Visit
      ensures pc == if raised then Idle else Visiting(old(pc).todo[1..], at)
      ensures RowReported(report, report', rid, old(redispatches), redispatches)
    {
      ghost var s := View();
      VisitFrame(cfg, s);
      OneStep(cfg, s, Visit);
      var age := at - rows[rid].created;
      var act, launched;
      act, report' := Inspect(rid, at, report);
      raised, es := false, [Visit];
      if act {
        ghost var v, rest := View(), [];
        launched, raised, report', rest := Redispatch(rid, age, report');
        StepsThen(cfg, s, [Visit], v, rest, View());
        RowDoneAfterVisit(rest, raised);
        es := [Visit] + rest;
      }
    }

    /** The next round of the sweep loop. */
    method SweepNext(ghost s0: State, ghost run: seq<Event>, scan: seq<nat>, i: nat, at: real, report: SweepReport)
      returns (raised: bool, report': SweepReport, ghost run': seq<Event>)
      requires Inv(s0) && Sweeping(cfg, s0, run, View(), scan, i, at) && Fresh() && i < |scan|
      requires ReportRight(report, scan, s0.redispatches, redispatches)
      modifies this`awaits, this`now, this`rows, this`tasks, this`nextTask, this`inflight, this`started
      modifies this`attempts, this`pc, this`redispatches, this`exhausted
      ensures if raised then SweepDone(cfg, s0, run', View(), scan, false)
              else Sweeping(cfg, s0, run', View(), scan, i + 1, at)
      ensures ReportRight(report', scan, s0.redispatches, redispatches) && report'.pending == report.pending && Fresh()
    {
      ghost var s, es := View(), [];
      raised, report', es := SweepRow(scan[i], at, report);
      ReportStaysRight(report, report', scan[i], scan, s0.redispatches, s.redispatches, redispatches);
      SweepContinues(cfg, s0, run, s, scan, i, at, es, View(), raised);
      run' := run + es;
    }

    /** The sweep loop over rows i, i + 1, ... of the query. */
    method SweepRows(ghost s0: State, ghost begun: seq<Event>, scan: seq<nat>, at: real, first: SweepReport)
      returns (completed: bool, report: SweepReport, ghost run: seq<Event>)
      requires Inv(s0) && Sweeping(cfg, s0, begun, View(), scan, 0, at) && Fresh()
      requires ReportRight(first, scan, s0.redispatches, redispatches)
      modifies this`awaits, this`now, this`rows, this`tasks, this`nextTask, this`inflight, this`started
      modifies this`attempts, this`pc, this`redispatches, this`exhausted
      ensures if completed then Sweeping(cfg, s0, run, View(), scan, |scan|, at)
              else SweepDone(cfg, s0, run, View(), scan, false)
      ensures report.pending == first.pending && Fresh() && ReportRight(report, scan, s0.redispatches, redispatches)
    {
      completed, report, run := true, first, begun;
      var i := 0;
      while i < |scan|
        invariant i <= |scan| && Sweeping(cfg, s0, run, View(), scan, i, at)
        invariant Fresh() && report.pending == first.pending
        invariant ReportRight(report, scan, s0.redispatches, redispatches)
      {
        var raised;
        raised, report, run := SweepNext(s0, run, scan, i, at, report);
        if raised {
          completed := false;
          return;
        }
        i := i + 1;
      }
    }

    /** The query's result arrives, with whatever happened meanwhile, and the clock is read. */
    method BeginSweep(scan: seq<nat>) returns (at: real, first: SweepReport, ghost run: seq<Event>)
      requires Valid() && Enabled(View(), Scan(scan))
      modifies this`awaits, this`now, this`rows, this`tasks, this`nextTask, this`inflight, this`started, this`pc
      ensures Sweeping(cfg, old(View()), run, View(), scan, 0, at) && Fresh() && at == now
      ensures first.pending == |scan| && ReportRight(first, scan, old(redispatches), redispatches)
    {
      first := SweepReport(|scan|, 0, [], [], []);
      NothingReported(|scan|, scan, redispatches);
      ghost var s0 := View();
      pc := Scanned(scan);
      ghost var s1 := View();
      ghost var es := Await();
      at := now;
      SweepBegins(cfg, s0, scan, s1, es, View());
      pc := Visiting(scan, at);
      run := [Scan(scan)] + es + [ReadClock];
    }

    /** The pass returns its report. */
    method FinishSweep(ghost s0: State, ghost run: seq<Event>, scan: seq<nat>, at: real, completed: bool)
      returns (ghost run': seq<Event>)
      requires Inv(s0) && if completed then Sweeping(cfg, s0, run, View(), scan, |scan|, at)
                          else SweepDone(cfg, s0, run, View(), scan, false)
      modifies this`pc, this`swept
      ensures SweepDone(cfg, s0, run', View(), scan, completed)
    {
      run' := run;
      if completed {
        SweepEnds(cfg, s0, run, View(), scan, at);
        run', pc, swept := run + [EndSweep], Idle, at;
      }
    }

    /** A begun pass, to its end. */
    method SweepOn(ghost s0: State, ghost begun: seq<Event>, scan: seq<nat>, at: real, first: SweepReport)
      returns (completed: bool, report: SweepReport, ghost run: seq<Event>)
      requires Inv(s0) && Sweeping(cfg, s0, begun, View(), scan, 0, at) && Fresh()
      requires ReportRight(first, scan, s0.redispatches, redispatches)
      modifies this`awaits, this`now, this`rows, this`tasks, this`nextTask, this`inflight, this`started
      modifies this`attempts, this`pc, this`redispatches, this`exhausted, this`swept
      ensures SweepDone(cfg, s0, run, View(), scan, completed) && Fresh() && report.pending == first.pending
      ensures ReportRight(report, scan, s0.redispatches, redispatches)
    {
      completed, report, run := SweepRows(s0, begun, scan, at, first);
      run := FinishSweep(s0, run, scan, at, completed);
    }

    /** One watchdog pass over `scan`, the result of the PENDING query, with anything happening at its awaits. */
    method SweepOnce(scan: seq<nat>) returns (completed: bool, report: SweepReport, ghost run: seq<Event>)
      requires Valid() && pc.Idle? && PendingScan(rows, scan)
      modifies this`awaits, this`now, this`rows, this`tasks, this`nextTask, this`inflight, this`started
      modifies this`attempts, this`pc, this`redispatches, this`exhausted, this`swept
      ensures SweepDone(cfg, old(View()), run, View(), scan, completed) && Fresh() && report.pending == |scan|
      ensures ReportRight(report, scan, old(redispatches), redispatches)
    {
      var at, first;
      at, first, run := BeginSweep(scan);
      completed, report, run := SweepOn(old(View()), run, scan, at, first);
    }

    method CancelTracked()
      requires inflight.Values <= tasks.Keys
      modifies this`tasks
      ensures tasks == CancelAll(old(tasks), inflight.Values) && tasks.Keys == old(tasks).Keys
    {
      var todo := inflight.Values;
      while todo != {}
        invariant todo <= inflight.Values <= tasks.Keys
        invariant tasks == CancelAll(old(tasks), inflight.Values - todo)
        decreases todo
      {
        var tid :| tid in todo;
        if !tasks[tid].phase.Done? {
          tasks := tasks[tid := tasks[tid].(phase := Cancelling)];
        }
        todo := todo - {tid};
      }
    }

    /** A running watchdog is cancelled and awaited: its sweep ends wherever it stands, and anything may happen. */
    method StopWatchdog() returns (ghost es: seq<Event>)
      requires Fresh()
      modifies this`awaits, this`now, this`rows, this`tasks, this`nextTask, this`inflight, this`started, this`pc
      ensures Steps(cfg, old(View()), es, View()) && |es| >= 1 && es[0] == SweepAborts && Outsiders(es[1..]) && Fresh()
    {
      ghost var s, rest := View(), [];
      OneStep(cfg, s, SweepAborts);
      pc := Idle;
      ghost var m := View();
      rest := Await();
      OutsidersAfter(cfg, s, [SweepAborts], m, rest, View());
      es := [SweepAborts] + rest;
    }

    /** Shutdown: the watchdog is stopped, if there is one, and every tracked attempt is asked to stop; its row stays
        as it is. */
    method AClose(watchdog: bool) returns (ghost es: seq<Event>)
      requires Valid()
      modifies this`awaits, this`now, this`rows, this`tasks, this`nextTask, this`inflight, this`started
      modifies this`attempts, this`pc, this`redispatches, this`exhausted
      ensures Valid() && Steps(cfg, old(View()), es + [Event.AClose], View())
      ensures if watchdog then |es| >= 1 && es[0] == SweepAborts && Outsiders(es[1..]) else es == []
      ensures rows == After(cfg, old(View()), es).rows && inflight == map[] && started == map[] && attempts == map[]
      ensures var m := After(cfg, old(View()), es);
        tasks.Keys == m.tasks.Keys && forall t | t in tasks ::
          tasks[t] == if t in m.inflight.Values && !m.tasks[t].phase.Done? then m.tasks[t].(phase := Cancelling)
                      else m.tasks[t]
    {
      ghost var s := View();
      es := [];
      assert Steps(cfg, s, [], s);
      if watchdog {
        es := StopWatchdog();
      }
      ghost var t := View();
      StepsAnd(cfg, s, es, t, Event.AClose);
      InvAfter(cfg, s, es);
      CloseKeeps(cfg, t);
      CancelAndForget();
    }

    method CancelAndForget()
      requires inflight.Values <= tasks.Keys
      modifies this`tasks, this`inflight, this`started, this`attempts, this`pc, this`redispatches, this`exhausted
      ensures View() == Close(old(View())) && tasks.Keys == old(tasks).Keys
    {
      CancelTracked();
      inflight, started, attempts := map[], map[], map[];
      pc, redispatches, exhausted := Idle, map[], map[];
    }
  }
}

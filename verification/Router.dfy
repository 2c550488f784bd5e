/** The summary router's shared state: circuit breaker, weighted round robin, sticky map and failover. */
module Router {
  import opened Collections
  import opened Preferences
  import opened RouterOrder
  import opened Swrr
  import opened SwrrWeights

  // ---------------------------------------------------------------- breaker history

  datatype BreakerEvent = Succeeded(base: Server) | Erred(base: Server) | Disabled(base: Server) | Enabled(base: Server)

  /** Errors of `b` among the first n events since its last success or manual enable there. */
  function RunUpto(log: seq<BreakerEvent>, b: Server, n: nat): nat
    requires n <= |log|
  {
    if n == 0 then 0
    else
      var e := log[n - 1];
      if e.base != b || e.Disabled? then RunUpto(log, b, n - 1)
      else if e.Erred? then RunUpto(log, b, n - 1) + 1
      else 0
  }

  /** Errors of `b` since its last success or manual enable. */
  function ErrorRun(log: seq<BreakerEvent>, b: Server): nat {
    RunUpto(log, b, |log|)
  }

  /** The last event that clears the error run of `b` lies before position i; there is none from there on. */
  predicate ClearedUpto(log: seq<BreakerEvent>, b: Server, i: nat, n: nat)
    requires i <= n <= |log|
  {
    && (i == 0 || log[i - 1] == Succeeded(b) || log[i - 1] == Enabled(b))
    && forall j | i <= j < n :: log[j] != Succeeded(b) && log[j] != Enabled(b)
  }

  lemma {:induction false} RunUptoIs(log: seq<BreakerEvent>, b: Server, n: nat) returns (i: nat)
    requires n <= |log|
    ensures i <= n && ClearedUpto(log, b, i, n) && RunUpto(log, b, n) == multiset(log[i..n])[Erred(b)]
  {
    if n == 0 {
      i := 0;
    } else {
      i := RunUptoIs(log, b, n - 1);
      if log[n - 1] == Succeeded(b) || log[n - 1] == Enabled(b) {
        i := n;
      } else {
        assert log[i..n] == log[i..n - 1] + [log[n - 1]];
      }
    }
  }

  /** The error run is the number of errors since the server's last success or manual enable. */
  lemma ErrorRunIs(log: seq<BreakerEvent>, b: Server)
    ensures exists i: nat ::
      i <= |log| && ClearedUpto(log, b, i, |log|) && ErrorRun(log, b) == multiset(log[i..])[Erred(b)]
  {
    var i := RunUptoIs(log, b, |log|);
    assert log[i..|log|] == log[i..];
  }

  predicate OffUpto(log: seq<BreakerEvent>, b: Server, threshold: int, n: nat)
    requires n <= |log|
  {
    n > 0 && (
      var e := log[n - 1];
      if e.base != b || e.Succeeded? then OffUpto(log, b, threshold, n - 1)
      else if e.Erred? then OffUpto(log, b, threshold, n - 1) || RunUpto(log, b, n) >= threshold
      else e.Disabled?)
  }

  /** Whether the history leaves `b` disabled. */
  predicate Off(log: seq<BreakerEvent>, b: Server, threshold: int) {
    OffUpto(log, b, threshold, |log|)
  }

  lemma {:induction false} SamePrefix(log: seq<BreakerEvent>, e: BreakerEvent, b: Server, threshold: int, n: nat)
    requires n <= |log|
    ensures RunUpto(log + [e], b, n) == RunUpto(log, b, n)
    ensures OffUpto(log + [e], b, threshold, n) == OffUpto(log, b, threshold, n)
  {
    if n == 0 {
    } else {
      SamePrefix(log, e, b, threshold, n - 1);
    }
  }

  /** What one more event does to a server's error run and to whether it is off. */
  lemma OneMore(log: seq<BreakerEvent>, e: BreakerEvent, b: Server, threshold: int)
    ensures ErrorRun(log + [e], b) ==
      if e.base != b || e.Disabled? then ErrorRun(log, b) else if e.Erred? then ErrorRun(log, b) + 1 else 0
    ensures Off(log + [e], b, threshold) <==>
      if e.base != b || e.Succeeded? then Off(log, b, threshold)
      else if e.Erred? then Off(log, b, threshold) || ErrorRun(log, b) + 1 >= threshold
      else e.Disabled?
  {
    SamePrefix(log, e, b, threshold, |log|);
  }

  lemma {:induction false} TrippedUpto(log: seq<BreakerEvent>, b: Server, threshold: int, n: nat)
    requires n <= |log| && threshold >= 1 && RunUpto(log, b, n) >= threshold
    ensures OffUpto(log, b, threshold, n)
  {
    if log[n - 1].base != b || log[n - 1].Disabled? {
      TrippedUpto(log, b, threshold, n - 1);
    }
  }

  /** An error run that reached the threshold has disabled its server. */
  lemma TrippedIsOff(log: seq<BreakerEvent>, b: Server, threshold: int)
    requires threshold >= 1 && ErrorRun(log, b) >= threshold
    ensures Off(log, b, threshold)
  {
    TrippedUpto(log, b, threshold, |log|);
  }

  predicate TripsAt(log: seq<BreakerEvent>, b: Server, threshold: int, i: nat)
    requires i < |log|
  {
    log[i] == Disabled(b) || (log[i] == Erred(b) && RunUpto(log, b, i + 1) >= threshold)
  }

  predicate NoEnable(log: seq<BreakerEvent>, b: Server, from: nat, n: nat)
    requires n <= |log|
  {
    forall j | from <= j < n :: log[j] != Enabled(b)
  }

  lemma {:induction false} OffUptoExactlyWhen(log: seq<BreakerEvent>, b: Server, threshold: int, n: nat)
    requires n <= |log|
    ensures OffUpto(log, b, threshold, n) <==>
            exists i: nat :: i < n && TripsAt(log, b, threshold, i) && NoEnable(log, b, i + 1, n)
  {
    if n == 0 {
    } else {
      OffUptoExactlyWhen(log, b, threshold, n - 1);
      if OffUpto(log, b, threshold, n) {
        if OffUpto(log, b, threshold, n - 1) && log[n - 1] != Enabled(b) {
          var i: nat :| i < n - 1 && TripsAt(log, b, threshold, i) && NoEnable(log, b, i + 1, n - 1);
          assert NoEnable(log, b, i + 1, n);
        } else {
          assert TripsAt(log, b, threshold, n - 1) && NoEnable(log, b, n, n);
        }
      }
      if i: nat :| i < n - 1 && TripsAt(log, b, threshold, i) && NoEnable(log, b, i + 1, n) {
        assert NoEnable(log, b, i + 1, n - 1) && log[n - 1] != Enabled(b);
      }
    }
  }

  /** A server is off exactly when some disable - by hand, or the error that reached the threshold - was
      not followed by an enable: successes alone never bring it back. */
  lemma OffExactlyWhen(log: seq<BreakerEvent>, b: Server, threshold: int)
    ensures Off(log, b, threshold) <==>
            exists i: nat :: i < |log| && TripsAt(log, b, threshold, i) && NoEnable(log, b, i + 1, |log|)
  {
    OffUptoExactlyWhen(log, b, threshold, |log|);
  }

  // ---------------------------------------------------------------- forwarding

  datatype Answer = Served(status: int) | Failure

  /** What asking these servers in order and hearing a failure from each adds to the history. */
  function Errors(asked: seq<Server>): seq<BreakerEvent> {
    seq(|asked|, i requires 0 <= i < |asked| => Erred(asked[i]))
  }

  /** The history when candidate j's turn comes, none before it having served: each of those that was on at its
      turn has been asked, others have recorded what they did meanwhile, and then its error. */
  function LogAt(log: seq<BreakerEvent>, candidates: seq<Server>, others: nat -> seq<BreakerEvent>, threshold: int,
                 j: nat): seq<BreakerEvent>
    requires j <= |candidates|
  {
    if j == 0 then log
    else
      var before, c := LogAt(log, candidates, others, threshold, j - 1), candidates[j - 1];
      if Off(before, c, threshold) then before else before + (others(j - 1) + [Erred(c)])
  }

  predicate OffAtTurn(log: seq<BreakerEvent>, candidates: seq<Server>, others: nat -> seq<BreakerEvent>,
                      threshold: int, j: nat)
    requires j < |candidates|
  {
    Off(LogAt(log, candidates, others, threshold, j), candidates[j], threshold)
  }

  /** The candidates before j that were on at their turn. */
  function Asked(log: seq<BreakerEvent>, candidates: seq<Server>, others: nat -> seq<BreakerEvent>, threshold: int,
                 j: nat): seq<Server>
    requires j <= |candidates|
  {
    if j == 0 then []
    else
      Asked(log, candidates, others, threshold, j - 1)
      + if OffAtTurn(log, candidates, others, threshold, j - 1) then [] else [candidates[j - 1]]
  }

  lemma TurnTaken(log: seq<BreakerEvent>, candidates: seq<Server>, others: nat -> seq<BreakerEvent>,
                  threshold: int, j: nat)
    requires j < |candidates|
    ensures var off := OffAtTurn(log, candidates, others, threshold, j);
      var now := LogAt(log, candidates, others, threshold, j);
      && LogAt(log, candidates, others, threshold, j + 1) ==
         (if off then now else now + (others(j) + [Erred(candidates[j])]))
      && Asked(log, candidates, others, threshold, j + 1) ==
         Asked(log, candidates, others, threshold, j) + (if off then [] else [candidates[j]])
  {
  }

  /** None of the first j candidates has served: each was off at its turn or failed; `log` and `tried` say so. */
  predicate NoneServed(log0: seq<BreakerEvent>, candidates: seq<Server>, answer: nat -> Answer,
                       others: nat -> seq<BreakerEvent>, threshold: int, j: nat,
                       log: seq<BreakerEvent>, tried: seq<Server>)
  {
    && j <= |candidates| && log == LogAt(log0, candidates, others, threshold, j)
    && tried == Asked(log0, candidates, others, threshold, j)
    && forall i: nat | i < j :: OffAtTurn(log0, candidates, others, threshold, i) || answer(i).Failure?
  }

  /** How the loop ends: no candidate served, or the first that was on at its turn and served did, with its success
      recorded last. */
  predicate Forwarded(log0: seq<BreakerEvent>, candidates: seq<Server>, answer: nat -> Answer,
                      others: nat -> seq<BreakerEvent>, threshold: int, served: nat,
                      log: seq<BreakerEvent>, tried: seq<Server>)
  {
    if served >= |candidates| then
      served == |candidates| && NoneServed(log0, candidates, answer, others, threshold, served, log, tried)
    else
      var before := LogAt(log0, candidates, others, threshold, served);
      && NoneServed(log0, candidates, answer, others, threshold, served, before,
                    Asked(log0, candidates, others, threshold, served))
      && !OffAtTurn(log0, candidates, others, threshold, served) && answer(served).Served?
      && log == before + (others(served) + [Succeeded(candidates[served])])
      && tried == Asked(log0, candidates, others, threshold, served) + [candidates[served]]
  }

  /** One round of the loop. */
  lemma TurnDone(log0: seq<BreakerEvent>, candidates: seq<Server>, answer: nat -> Answer,
                 others: nat -> seq<BreakerEvent>, threshold: int, j: nat,
                 log: seq<BreakerEvent>, tried: seq<Server>, served: bool, asked: bool)
    requires j < |candidates| && NoneServed(log0, candidates, answer, others, threshold, j, log, tried)
    requires (asked <==> !Off(log, candidates[j], threshold)) && (served <==> asked && answer(j).Served?)
    ensures var c := candidates[j];
      var log' := if asked then log + (others(j) + [if served then Succeeded(c) else Erred(c)]) else log;
      var tried' := if asked then tried + [c] else tried;
      if served then Forwarded(log0, candidates, answer, others, threshold, j, log', tried')
      else NoneServed(log0, candidates, answer, others, threshold, j + 1, log', tried')
  {
    TurnTaken(log0, candidates, others, threshold, j);
  }

  ghost predicate Quiet(others: nat -> seq<BreakerEvent>) {
    forall j: nat :: others(j) == []
  }

  lemma {:induction false} ForeignErrors(log: seq<BreakerEvent>, asked: seq<Server>, b: Server, threshold: int)
    requires b !in asked
    ensures Off(log + Errors(asked), b, threshold) == Off(log, b, threshold)
    decreases |asked|
  {
    if asked == [] {
      assert log + Errors(asked) == log;
    } else {
      var n := |asked| - 1;
      assert asked == asked[..n] + [asked[n]];
      ErrorsGrow(asked[..n], asked[n]);
      assert log + Errors(asked) == log + Errors(asked[..n]) + [Erred(asked[n])];
      OneMore(log + Errors(asked[..n]), Erred(asked[n]), b, threshold);
      ForeignErrors(log, asked[..n], b, threshold);
    }
  }

  /** When nobody else records anything and the candidates are distinct, the candidates asked are those that were
      not disabled when the request came, and the history grows by one error each. */
  lemma {:induction false} QuietTrial(log: seq<BreakerEvent>, candidates: seq<Server>, others: nat -> seq<BreakerEvent>,
                                      threshold: int, disabled: set<Server>, j: nat)
    requires Quiet(others) && Distinct(candidates) && j <= |candidates|
    requires forall b :: b in disabled <==> Off(log, b, threshold)
    ensures Asked(log, candidates, others, threshold, j) == Without(candidates[..j], disabled)
    ensures LogAt(log, candidates, others, threshold, j) == log + Errors(Without(candidates[..j], disabled))
  {
    if j == 0 {
    } else {
      QuietTrial(log, candidates, others, threshold, disabled, j - 1);
      QuietTurn(log, candidates, others, threshold, disabled, j - 1);
    }
  }

  lemma QuietTurn(log: seq<BreakerEvent>, candidates: seq<Server>, others: nat -> seq<BreakerEvent>,
                  threshold: int, disabled: set<Server>, j: nat)
    requires Quiet(others) && Distinct(candidates) && j < |candidates|
    requires forall b :: b in disabled <==> Off(log, b, threshold)
    requires LogAt(log, candidates, others, threshold, j) == log + Errors(Without(candidates[..j], disabled))
    ensures OffAtTurn(log, candidates, others, threshold, j) <==> candidates[j] in disabled
    ensures var asked := Without(candidates[..j + 1], disabled);
      && asked == Without(candidates[..j], disabled) + (if candidates[j] in disabled then [] else [candidates[j]])
      && LogAt(log, candidates, others, threshold, j + 1) == log + Errors(asked)
  {
    var c, asked := candidates[j], Without(candidates[..j], disabled);
    NotAsked(candidates, j, disabled);
    ForeignErrors(log, asked, c, threshold);
    WithoutGrows(candidates, j, disabled);
    ErrorsGrow(asked, c);
    assert others(j) == [];
    assert log + Errors(asked) + ([] + [Erred(c)]) == log + (Errors(asked) + [Erred(c)]);
  }

  lemma NotAsked(candidates: seq<Server>, j: nat, disabled: set<Server>)
    requires Distinct(candidates) && j < |candidates|
    ensures candidates[j] !in Without(candidates[..j], disabled)
  {
    WithoutMember(candidates[..j], disabled);
  }

  lemma ErrorsGrow(asked: seq<Server>, up: Server)
    ensures Errors(asked + [up]) == Errors(asked) + [Erred(up)]
  {
  }

  datatype Metric = Metric(ok: nat, err: nat, disabled: bool)

  function Failures(failCounts: map<Server, nat>, b: Server): nat {
    if b in failCounts then failCounts[b] else 0
  }

  function MetricOf(metrics: map<Server, Metric>, b: Server): Metric {
    if b in metrics then metrics[b] else Metric(0, 0, false)
  }

  /** The shared breaker state. */
  datatype Breaker = Breaker(failCounts: map<Server, nat>, disabled: set<Server>, metrics: map<Server, Metric>)

  /** What recording one event makes of it. */
  function Recording(s: Breaker, e: BreakerEvent, threshold: int): Breaker {
    var b := e.base;
    var m := MetricOf(s.metrics, b);
    match e
    case Succeeded(_) =>
      s.(failCounts := s.failCounts[b := 0], metrics := s.metrics[b := m.(ok := m.ok + 1, disabled := b in s.disabled)])
    case Erred(_) =>
      var count := Failures(s.failCounts, b) + 1;
      var trips := count >= threshold;
      Breaker(s.failCounts[b := count], if trips then s.disabled + {b} else s.disabled,
              s.metrics[b := m.(err := m.err + 1, disabled := m.disabled || trips)])
    case Disabled(_) =>
      s.(disabled := s.disabled + {b}, metrics := s.metrics[b := m.(disabled := true)])
    case Enabled(_) =>
      Breaker(s.failCounts[b := 0], s.disabled - {b}, s.metrics[b := m.(disabled := false)])
  }

  /** What the fields know of one server is what the history says: its count is its current error run, it is
      disabled exactly if the history leaves it off, and its metrics hold that flag and how often it served and
      erred. */
  predicate RecordedOf(s: Breaker, log: seq<BreakerEvent>, threshold: int, b: Server) {
    var m := MetricOf(s.metrics, b);
    && Failures(s.failCounts, b) == ErrorRun(log, b) && (b in s.disabled <==> Off(log, b, threshold))
    && (m.disabled <==> b in s.disabled)
    && m.ok == multiset(log)[Succeeded(b)] && m.err == multiset(log)[Erred(b)]
  }

  ghost predicate Recorded(s: Breaker, log: seq<BreakerEvent>, threshold: int) {
    threshold >= 1 && forall b: Server :: RecordedOf(s, log, threshold, b)
  }

  lemma NothingRecorded(threshold: int)
    requires threshold >= 1
    ensures Recorded(Breaker(map[], {}, map[]), [], threshold)
  {
    assert forall b :: RecordedOf(Breaker(map[], {}, map[]), [], threshold, b);
  }

  lemma RecordedStep(s: Breaker, log: seq<BreakerEvent>, e: BreakerEvent, threshold: int, b: Server)
    requires RecordedOf(s, log, threshold, b)
    ensures RecordedOf(Recording(s, e, threshold), log + [e], threshold, b)
  {
    OneMore(log, e, b, threshold);
  }

  /** Whatever is recorded, in whatever order, the fields keep saying what the history says. */
  lemma RecordingKeeps(s: Breaker, log: seq<BreakerEvent>, e: BreakerEvent, threshold: int)
    requires Recorded(s, log, threshold)
    ensures Recorded(Recording(s, e, threshold), log + [e], threshold)
  {
    forall b ensures RecordedOf(Recording(s, e, threshold), log + [e], threshold, b) {
      assert RecordedOf(s, log, threshold, b);
      RecordedStep(s, log, e, threshold, b);
    }
  }

  /** An error disables its server exactly when the error run reaches the threshold. */
  lemma ErrorTrips(s: Breaker, log: seq<BreakerEvent>, b: Server, threshold: int)
    requires Recorded(s, log, threshold)
    ensures Recording(s, Erred(b), threshold).disabled ==
            if ErrorRun(log + [Erred(b)], b) >= threshold then s.disabled + {b} else s.disabled
  {
    assert RecordedOf(s, log, threshold, b);
    OneMore(log, Erred(b), b, threshold);
  }

  /** However the calls interleave, a server whose count has reached the threshold is disabled, and its metrics
      say so. */
  lemma CountImpliesDisabled(s: Breaker, log: seq<BreakerEvent>, threshold: int, b: Server)
    requires Recorded(s, log, threshold) && Failures(s.failCounts, b) >= threshold
    ensures b in s.disabled && MetricOf(s.metrics, b).disabled
  {
    assert RecordedOf(s, log, threshold, b);
    TrippedIsOff(log, b, threshold);
  }

  class SummaryRouter {
    const upstreams: seq<Server>
    const standbys: seq<Server>
    const bias: Preference
    const threshold: int
    var disabled: set<Server>
    var failCounts: map<Server, nat>
    var metrics: map<Server, Metric>
    var stickyMap: map<string, Server>
    var weights: map<Server, int>
    var current: map<Server, int>
    var known: set<Server>
    ghost var log: seq<BreakerEvent>
    ghost var gone: set<Server>  // what was disabled at the last rebuild
    ghost var trace: Run  // the picks since then

    function State(): Breaker
      reads this`failCounts, this`disabled, this`metrics
    {
      Breaker(failCounts, disabled, metrics)
    }

    ghost predicate BreakerOk()
      reads this`failCounts, this`disabled, this`metrics, this`log
    {
      Recorded(State(), log, threshold)
    }

    // Breaker methods change no round-robin field and the other way round, so each keeps both predicates.

    /** The round-robin fields are those of a rebuild over some upstreams followed by the picks of the trace, which
        are a run of the wheel: all that is proved of runs holds of them. */
    ghost predicate WheelOk()
      reads this`weights, this`current, this`known, this`gone, this`trace
    {
      Configured(upstreams, standbys) && WheelFor(bias, Without(upstreams, gone), weights, current, known, trace)
    }

    constructor (upstreams: seq<Server>, standbys: seq<Server>, bias: Preference, threshold: int)
      requires Configured(upstreams, standbys) && threshold >= 1
      ensures BreakerOk() && WheelOk() && fresh(this) && disabled == {} && known == {} && log == []
      ensures this.upstreams == upstreams && this.standbys == standbys
    {
      this.upstreams, this.standbys, this.bias := upstreams, standbys, bias;
      this.threshold := threshold;
      disabled, failCounts, metrics, stickyMap := {}, map[], map[], map[];
      weights, current, known, log := map[], map[], {}, [];
      gone, trace := (set p | p in upstreams), Run([], []);
      new;
      NothingRecorded(threshold);
      assert State() == Breaker(map[], {}, map[]);
      WithoutMember(upstreams, gone);
    }

    // -------------------------------------------------------------- breaker

    method MarkOk(base: Server)
      requires BreakerOk()
      modifies this`failCounts, this`metrics, this`log
      ensures BreakerOk() && log == old(log) + [Succeeded(base)]
      ensures State() == Recording(old(State()), Succeeded(base), threshold)
    {
      RecordingKeeps(State(), log, Succeeded(base), threshold);
      failCounts := failCounts[base := 0];
      var m := MetricOf(metrics, base);
      metrics := metrics[base := Metric(m.ok + 1, m.err, base in disabled)];
      log := log + [Succeeded(base)];
    }

    method MarkErr(base: Server)
      requires BreakerOk()
      modifies this`failCounts, this`metrics, this`disabled, this`log
      ensures BreakerOk() && log == old(log) + [Erred(base)]
      ensures State() == Recording(old(State()), Erred(base), threshold)
      ensures disabled == if ErrorRun(log, base) >= threshold then old(disabled) + {base} else old(disabled)
    {
      RecordingKeeps(State(), log, Erred(base), threshold);
      ErrorTrips(State(), log, base, threshold);
      var count := Failures(failCounts, base) + 1;
      var trips := count >= threshold;
      var m := MetricOf(metrics, base);
      failCounts := failCounts[base := count];
      metrics := metrics[base := m.(err := m.err + 1, disabled := m.disabled || trips)];
      disabled := if trips then disabled + {base} else disabled;
      log := log + [Erred(base)];
    }

    method AdminDisable(base: Server)
      requires BreakerOk()
      modifies this`metrics, this`disabled, this`log
      ensures BreakerOk() && log == old(log) + [Disabled(base)]
      ensures State() == Recording(old(State()), Disabled(base), threshold)
    {
      RecordingKeeps(State(), log, Disabled(base), threshold);
      disabled := disabled + {base};
      metrics := metrics[base := MetricOf(metrics, base).(disabled := true)];
      log := log + [Disabled(base)];
    }

    method AdminEnable(base: Server)
      requires BreakerOk()
      modifies this`failCounts, this`metrics, this`disabled, this`log
      ensures BreakerOk() && log == old(log) + [Enabled(base)]
      ensures State() == Recording(old(State()), Enabled(base), threshold)
    {
      RecordingKeeps(State(), log, Enabled(base), threshold);
      disabled := disabled - {base};
      failCounts := failCounts[base := 0];
      metrics := metrics[base := MetricOf(metrics, base).(disabled := false)];
      log := log + [Enabled(base)];
    }

    /** A breaker event of another request or of an administrator. */
    method Record(e: BreakerEvent)
      requires BreakerOk()
      modifies this`failCounts, this`metrics, this`disabled, this`log
      ensures BreakerOk() && log == old(log) + [e]
    {
      match e
      case Succeeded(b) => MarkOk(b);
      case Erred(b) => MarkErr(b);
      case Disabled(b) => AdminDisable(b);
      case Enabled(b) => AdminEnable(b);
    }

    method RecordAll(events: seq<BreakerEvent>)
      requires BreakerOk()
      modifies this`failCounts, this`metrics, this`disabled, this`log
      ensures BreakerOk() && log == old(log) + events
    {
      var i := 0;
      while i < |events|
        invariant i <= |events| && BreakerOk() && log == old(log) + events[..i]
      {
        Record(events[i]);
        i := i + 1;
      }
      assert events[..i] == events;
    }

    /** One candidate of the failover loop: skipped if disabled at its turn, else asked; while it is asked others
        record what they record, then its own answer is. */
    method TryOne(up: Server, answer: Answer, meanwhile: seq<BreakerEvent>) returns (served: bool, asked: bool)
      requires BreakerOk()
      modifies this`failCounts, this`metrics, this`disabled, this`log
      ensures BreakerOk() && (asked <==> !Off(old(log), up, threshold)) && (served <==> asked && answer.Served?)
      ensures log == if asked then old(log) + (meanwhile + [if served then Succeeded(up) else Erred(up)]) else old(log)
    {
      assert RecordedOf(State(), log, threshold, up);
      served, asked := false, up !in disabled;
      if asked {
        RecordAll(meanwhile);
        served := answer.Served?;
        Record(if served then Succeeded(up) else Erred(up));
      }
    }

    /** The failover loop, with `others(i)` recorded by other requests while candidate i is asked.  `served` is the
        number of the candidate that served, or their count if none did; `tried` are the candidates asked. */
    method Forward(candidates: seq<Server>, answer: nat -> Answer, others: nat -> seq<BreakerEvent>)
      returns (served: nat, tried: seq<Server>)
      requires BreakerOk()
      modifies this`failCounts, this`metrics, this`disabled, this`log
      ensures BreakerOk()
      ensures Forwarded(old(log), candidates, answer, others, threshold, served, log, tried)
      ensures served < |candidates| ==>
        && answer(served).Served? && tried != [] && tried[|tried| - 1] == candidates[served]
        && old(log) <= log && log[|log| - 1] == Succeeded(candidates[served])
      ensures forall q | q in tried :: q in candidates
    {
      served, tried := 0, [];
      while served < |candidates|
        invariant served <= |candidates| && BreakerOk() && old(log) <= log
        invariant forall q | q in tried :: q in candidates
        invariant NoneServed(old(log), candidates, answer, others, threshold, served, log, tried)
      {
        var up := candidates[served];
        ghost var before, asked0 := log, tried;
        var ok, asked := TryOne(up, answer(served), others(served));
        TurnDone(old(log), candidates, answer, others, threshold, served, before, asked0, ok, asked);
        tried := if asked then tried + [up] else tried;
        if ok {
          return;
        }
        served := served + 1;
      }
    }

    // -------------------------------------------------------------- candidates

    function ActivePrimaries(): seq<Server>
      reads this`disabled
    {
      Without(upstreams, disabled)
    }

    function ActiveStandbys(): seq<Server>
      reads this`disabled
    {
      Without(standbys, disabled)
    }

    function ActiveSetForSticky(): seq<Server>
      reads this`disabled
    {
      StickyActives(upstreams, standbys, disabled)
    }

    // -------------------------------------------------------------- weighted round robin

    method RebuildSwrr()
      requires Configured(upstreams, standbys)
      modifies this`weights, this`current, this`known, this`gone, this`trace
      ensures WheelOk() && gone == disabled && known == set p | p in ActivePrimaries()
      ensures current == Zero(ActivePrimaries()) && trace == Run([current], [])
    {
      var actives := ActivePrimaries();
      WithoutDistinct(upstreams, disabled);
      known, gone := (set p | p in actives), disabled;
      weights, current, trace := Rebuilt(bias, actives);
    }

    /** Rebuilds if the active set has changed since the last rebuild. */
    method Refresh()
      requires WheelOk()
      modifies this`weights, this`current, this`known, this`gone, this`trace
      ensures WheelOk() && gone == disabled && known == set p | p in ActivePrimaries()
      ensures if old(known) == known then current == old(current) && trace == old(trace)
              else current == Zero(ActivePrimaries()) && trace == Run([current], [])
    {
      var actives := ActivePrimaries();
      if (set p | p in actives) != known {
        RebuildSwrr();
      } else {
        SameMembersSameList(upstreams, gone, disabled);
        gone := disabled;
      }
    }

    /** One pick over the active upstreams of the last rebuild. */
    method PickFresh() returns (pick: Option<Server>)
      requires WheelOk() && gone == disabled
      modifies this`current, this`trace
      ensures WheelOk()
      ensures pick.None? <==> ActivePrimaries() == []
      ensures pick.None? ==> current == old(current) && trace == old(trace)
      ensures pick.Some? ==> pick.value in ActivePrimaries() && trace.picks == old(trace).picks + [pick.value]
    {
      var actives := ActivePrimaries();
      if actives == [] {
        return None;
      }
      WithoutDistinct(upstreams, disabled);
      var best: Server;
      current, best, trace := PickActive(bias, actives, weights, current, trace);
      pick := Some(best);
    }

    /** One pick over the active upstreams, after a rebuild if their set has changed. */
    method SwrrPick() returns (pick: Option<Server>)
      requires WheelOk()
      modifies this`weights, this`current, this`known, this`gone, this`trace
      ensures WheelOk() && known == set p | p in ActivePrimaries()
      ensures pick.None? <==> ActivePrimaries() == []
      ensures pick.Some? ==> pick.value in ActivePrimaries()
      ensures pick.Some? ==> trace.picks == (if old(known) == known then old(trace).picks else []) + [pick.value]
    {
      Refresh();
      pick := PickFresh();
    }

    /** Candidates of a request without a sticky key: the pick, the other primaries, the standbys. */
    method OrderedCandidates() returns (ordered: seq<Server>)
      requires WheelOk()
      modifies this`weights, this`current, this`known, this`gone, this`trace
      ensures WheelOk()
      ensures Distinct(ordered) && |ordered| == |ActivePrimaries()| + |ActiveStandbys()|
      ensures multiset(ordered[..|ActivePrimaries()|]) == multiset(ActivePrimaries())
      ensures ordered[|ActivePrimaries()|..] == ActiveStandbys()
      ensures ActivePrimaries() != [] ==> trace.picks != [] && ordered[0] == trace.picks[|trace.picks| - 1]
      ensures forall q :: q in ordered <==> q !in disabled && (q in upstreams || q in standbys)
      ensures ActivePrimaries() != [] ==> KeepsOrder(upstreams, ordered[1..|ActivePrimaries()|])
      ensures KeepsOrder(standbys, ordered[|ActivePrimaries()|..])
    {
      var pick := SwrrPick();
      OrderBehindPick(upstreams, standbys, disabled, pick);
      PickFirst(upstreams, standbys, disabled, pick);
      ordered := (if pick.Some? then FirstThenRest(pick.value, ActivePrimaries()) else []) + ActiveStandbys();
    }

    /** Candidates of a request with a sticky key.  `plain` and `loaded` are the key's rendezvous scores without
        and with the in-flight load, `p` the random draw. */
    method StickyCandidates(key: string, plain: Server -> real, loaded: Server -> real, p: real)
      returns (candidates: seq<Server>)
      requires Configured(upstreams, standbys)
      modifies this`stickyMap
      ensures multiset(candidates) == multiset(ActiveSetForSticky()) && Distinct(candidates)
      ensures ActiveSetForSticky() == [] ==> candidates == [] && stickyMap == old(stickyMap)
      ensures ActiveSetForSticky() != [] ==>
        var mapped := key in old(stickyMap) && old(stickyMap)[key] in ActiveSetForSticky();
        && key in stickyMap
        && stickyMap == old(stickyMap)[key := if mapped then old(stickyMap)[key] else stickyMap[key]]
        && candidates != [] && candidates[0] == stickyMap[key]
        && RankedBehindFirst(candidates, if mapped then plain else loaded, ActiveSetForSticky())
      ensures forall q :: q in candidates <==>
        q !in disabled && (q in upstreams || (q in standbys && exists u :: u in upstreams && u in disabled))
    {
      var actives := ActiveSetForSticky();
      StickyActivesDistinct(upstreams, standbys, disabled);
      var mapped := key in stickyMap && stickyMap[key] in actives;
      var first := StickyFirst(key, actives, loaded, p);
      StickyActivesMembers(upstreams, standbys, disabled);
      if first.None? {
        return [];
      }
      FailoverOrder(first.value, if mapped then plain else loaded, actives);
      candidates := Failover(first.value, if mapped then plain else loaded, actives);
      FailoverPermutes(first.value, if mapped then plain else loaded, actives);
      assert forall q :: q in candidates <==> q in multiset(candidates);
      assert forall q :: q in actives <==> q in multiset(actives);
    }

    /** The server a sticky key starts with: the mapped one while it is active, else a preferred one by the
        draw, else the best of the unpreferred by load; a new choice is remembered. */
    method StickyFirst(key: string, actives: seq<Server>, loaded: Server -> real, p: real)
      returns (first: Option<Server>)
      modifies this`stickyMap
      ensures first.None? <==> actives == []
      ensures first.Some? ==> first.value in actives && stickyMap == old(stickyMap)[key := first.value]
      ensures first.None? ==> stickyMap == old(stickyMap)
      ensures first.Some? ==> if key in old(stickyMap) && old(stickyMap)[key] in actives
                              then first.value == old(stickyMap)[key]
                              else StickyChoice(bias, actives, loaded, p, first.value)
    {
      if key in stickyMap && stickyMap[key] in actives {
        return Some(stickyMap[key]);
      }
      if bias.target1 in actives && p < bias.ratio1 {
        first := Some(bias.target1);
      } else if bias.target2 in actives && p < bias.ratio1 + bias.ratio2 {
        first := Some(bias.target2);
      } else {
        var others := Unpreferred(bias, actives);
        var pool := if others != [] then others else actives;
        WithoutMember(actives, {bias.target1, bias.target2});
        var ordered := HrwOrder(loaded, pool);
        HrwMembers(loaded, pool);
        if ordered == [] {
          return None;
        }
        BestOfPool(loaded, pool);
        first := Some(ordered[0]);
      }
      stickyMap := stickyMap[key := first.value];
    }
  }

  lemma PickFirst(upstreams: seq<Server>, standbys: seq<Server>, disabled: set<Server>, pick: Option<Server>)
    requires Configured(upstreams, standbys)
    requires var primaries := Without(upstreams, disabled);
      if pick.Some? then pick.value in primaries else primaries == []
    ensures var primaries, behind := Without(upstreams, disabled), Without(standbys, disabled);
      var front := if pick.Some? then FirstThenRest(pick.value, primaries) else [];
      var ordered := front + behind;
      && |front| == |primaries| && multiset(ordered[..|primaries|]) == multiset(primaries)
      && ordered[|primaries|..] == behind && Distinct(ordered)
      && (pick.Some? ==> ordered[0] == pick.value)
  {
    var primaries, behind := Without(upstreams, disabled), Without(standbys, disabled);
    var front := if pick.Some? then FirstThenRest(pick.value, primaries) else [];
    AllActiveDistinct(upstreams, standbys, disabled);
    if pick.Some? {
      FirstThenRestPermutes(pick.value, primaries);
    }
    assert |multiset(front)| == |front| && |multiset(primaries)| == |primaries|;
    assert (front + behind)[..|front|] == front && (front + behind)[|front|..] == behind;
    assert multiset(front + behind) == multiset(primaries + behind);
    DistinctOfMultiset(primaries + behind, front + behind);
  }

  /** Behind the pick primaries and standbys keep the configured order, and all that are on are there. */
  lemma OrderBehindPick(upstreams: seq<Server>, standbys: seq<Server>, disabled: set<Server>, pick: Option<Server>)
    requires Configured(upstreams, standbys)
    requires var primaries := Without(upstreams, disabled);
      if pick.Some? then pick.value in primaries else primaries == []
    ensures var primaries, behind := Without(upstreams, disabled), Without(standbys, disabled);
      var ordered := (if pick.Some? then FirstThenRest(pick.value, primaries) else []) + behind;
      && (forall q :: q in ordered <==> q !in disabled && (q in upstreams || q in standbys))
      && |ordered| == |primaries| + |behind|
      && KeepsOrder(standbys, ordered[|primaries|..])
      && (pick.Some? ==> KeepsOrder(upstreams, ordered[1..|primaries|]))
  {
    var primaries, behind := Without(upstreams, disabled), Without(standbys, disabled);
    PickFirst(upstreams, standbys, disabled, pick);
    WithoutMember(upstreams, disabled);
    WithoutMember(standbys, disabled);
    WithoutKeepsOrder(standbys, disabled);
    if pick.Some? {
      var rest := Without(primaries, {pick.value});
      WithoutMember(primaries, {pick.value});
      WithoutDistinct(upstreams, disabled);
      WithoutKeepsOrder(upstreams, disabled);
      WithoutKeepsOrder(primaries, {pick.value});
      KeepsOrderTwice(upstreams, primaries, rest);
      assert ([pick.value] + rest + behind)[1..|primaries|] == rest;
    }
  }

  /** Where a new key goes: to a preferred active server by the draw, else to the active server of greatest
      load-aware score among those without preference - among all, if only preferred ones are active. */
  predicate StickyChoice(b: Preference, actives: seq<Server>, loaded: Server -> real, p: real, first: Server) {
    if b.target1 in actives && p < b.ratio1 then first == b.target1
    else if b.target2 in actives && p < b.ratio1 + b.ratio2 then first == b.target2
    else
      var pool := if Unpreferred(b, actives) != [] then Unpreferred(b, actives) else actives;
      first in pool && forall q | q in pool :: loaded(q) <= loaded(first)
  }

  lemma BestOfPool(loaded: Server -> real, pool: seq<Server>)
    requires HrwOrder(loaded, pool) != []
    ensures var best := HrwOrder(loaded, pool)[0]; best in pool && forall q | q in pool :: loaded(q) <= loaded(best)
  {
    HrwSorts(loaded, pool);
    HrwMembers(loaded, pool);
    var order := HrwOrder(loaded, pool);
    forall q | q in pool ensures loaded(q) <= loaded(order[0]) {
      assert q in order;
      var i :| 0 <= i < |order| && order[i] == q;
      assert i > 0 ==> loaded(order[0]) >= loaded(order[i]);
    }
  }

  function Failover(first: Server, score: Server -> real, actives: seq<Server>): seq<Server> {
    FirstThenRest(first, HrwOrder(score, actives))
  }

  lemma FailoverPermutes(first: Server, score: Server -> real, actives: seq<Server>)
    requires Distinct(actives) && first in actives
    ensures multiset(Failover(first, score, actives)) == multiset(actives) && Distinct(Failover(first, score, actives))
  {
    var order := HrwOrder(score, actives);
    HrwSorts(score, actives);
    HrwMembers(score, actives);
    DistinctOfMultiset(actives, order);
    FirstThenRestPermutes(first, order);
    DistinctOfMultiset(actives, Failover(first, score, actives));
  }

  /** Behind the first, servers by descending score, those of equal score in the order given. */
  predicate RankedBehindFirst(candidates: seq<Server>, score: Server -> real, actives: seq<Server>) {
    forall i, j | 1 <= i < j < |candidates| :: RankedBefore(candidates[i], candidates[j], score, actives)
  }

  predicate RankedBefore(q: Server, r: Server, score: Server -> real, actives: seq<Server>) {
    && q in actives && r in actives && score(q) >= score(r)
    && (score(q) == score(r) ==> IndexOf(actives, q) < IndexOf(actives, r))
  }

  lemma RankedPair(score: Server -> real, actives: seq<Server>, order: seq<Server>, rest: seq<Server>, i: nat, j: nat)
    requires Descending(score, order) && Stable(score, actives, order) && KeepsOrder(order, rest) && i < j < |rest|
    ensures score(rest[i]) >= score(rest[j])
    ensures score(rest[i]) == score(rest[j]) ==>
      rest[i] in actives && rest[j] in actives && IndexOf(actives, rest[i]) < IndexOf(actives, rest[j])
  {
    var x, y := IndexOf(order, rest[i]), IndexOf(order, rest[j]);
    assert x < y && order[x] == rest[i] && order[y] == rest[j];
  }

  lemma FailoverOrder(first: Server, score: Server -> real, actives: seq<Server>)
    requires Distinct(actives) && first in actives
    ensures var candidates := Failover(first, score, actives);
      candidates[0] == first && RankedBehindFirst(candidates, score, actives)
  {
    var order := HrwOrder(score, actives);
    HrwSorts(score, actives);
    HrwStable(score, actives);
    DistinctOfMultiset(actives, order);
    WithoutKeepsOrder(order, {first});
    RankedRest(score, actives, order, Without(order, {first}), first);
  }

  lemma RankedRest(score: Server -> real, actives: seq<Server>, order: seq<Server>, rest: seq<Server>, first: Server)
    requires multiset(order) == multiset(actives)
    requires Descending(score, order) && Stable(score, actives, order) && KeepsOrder(order, rest)
    ensures RankedBehindFirst([first] + rest, score, actives)
  {
    var candidates := [first] + rest;
    forall i, j | 1 <= i < j < |candidates|
      ensures RankedBefore(candidates[i], candidates[j], score, actives)
    {
      RankedPair(score, actives, order, rest, i - 1, j - 1);
      assert rest[i - 1] in rest && rest[j - 1] in rest;
      assert rest[i - 1] in multiset(order) && rest[j - 1] in multiset(order);
    }
  }

  lemma HrwMembers(score: Server -> real, ps: seq<Server>)
    ensures forall p :: p in HrwOrder(score, ps) <==> p in ps
    ensures HrwOrder(score, ps) == [] <==> ps == []
  {
    var order := HrwOrder(score, ps);
    HrwSorts(score, ps);
    assert forall p :: p in order <==> p in multiset(order);
    assert forall p :: p in ps <==> p in multiset(ps);
    assert |multiset(order)| == |order| && |multiset(ps)| == |ps|;
  }

  /** The round-robin state is that of a rebuild over `ps` followed by the picks of the trace. */
  ghost predicate WheelFor(bias: Preference, ps: seq<Server>, w: map<Server, int>, cur: map<Server, int>,
                           known: set<Server>, trace: Run)
  {
    && known == cur.Keys == (set p | p in ps) && w == Weights(bias, ps)
    && (ps != [] ==> Traced(WheelOver(bias, ps), trace, cur))
  }

  ghost predicate Traced(c: Wheel, trace: Run, cur: map<Server, int>) {
    SwrrValid(c) && IsRun(c, trace) && trace.curs[|trace.picks|] == cur
  }

  lemma RebuiltIsWheel(bias: Preference, ps: seq<Server>)
    requires Distinct(ps)
    ensures WheelFor(bias, ps, Weights(bias, ps), Zero(ps), (set p | p in ps), Run([Zero(ps)], []))
  {
    if ps != [] {
      RebuiltWheel(bias, ps);
    }
  }

  method Rebuilt(bias: Preference, actives: seq<Server>)
    returns (w: map<Server, int>, cur: map<Server, int>, ghost trace: Run)
    requires Distinct(actives)
    ensures WheelFor(bias, actives, w, cur, (set p | p in actives), trace)
    ensures cur == Zero(actives) && trace == Run([cur], [])
  {
    w := RebuiltWeights(bias, actives);
    cur := Zero(actives);
    trace := Run([cur], []);
    RebuiltIsWheel(bias, actives);
  }

  lemma TraceGrows(c: Wheel, trace: Run, from: map<Server, int>, pick: Server, to: map<Server, int>)
    requires Traced(c, trace, from) && PickFrom(c, from, pick, to)
    ensures Traced(c, Run(trace.curs + [to], trace.picks + [pick]), to)
  {
    var more := Run(trace.curs + [to], trace.picks + [pick]);
    forall k: nat | k < |more.picks| ensures PickedAt(c, more, k) {
      assert k < |trace.picks| ==> PickedAt(c, trace, k);
    }
  }

  ghost predicate PickFrom(c: Wheel, from: map<Server, int>, pick: Server, to: map<Server, int>) {
    SwrrValid(c) && Over(c, from) && pick == Chosen(c.ps, c.w, from) && to == Advance(c.ps, c.w, c.T, from)
  }

  method PickOver(c: Wheel, cur: map<Server, int>) returns (next: map<Server, int>, best: Server)
    requires SwrrValid(c) && Over(c, cur)
    ensures PickFrom(c, cur, best, next) && best in c.ps && Over(c, next)
  {
    AdvanceOne(c, cur, c.ps[0]);
    next, best := BumpAll(c.ps, c.w, cur);
    next := next[best := next[best] - c.T];
  }

  method PickActive(ghost bias: Preference, ps: seq<Server>, w: map<Server, int>, cur: map<Server, int>,
                    ghost trace: Run)
    returns (next: map<Server, int>, best: Server, ghost trace': Run)
    requires ps != [] && Distinct(ps) && WheelFor(bias, ps, w, cur, cur.Keys, trace)
    ensures WheelFor(bias, ps, w, next, cur.Keys, trace') && best in ps
    ensures trace'.picks == trace.picks + [best]
  {
    var total := TotalWeight(ps, w);
    ghost var c := WheelOver(bias, ps);
    assert Wheel(ps, w, total) == c;
    next, best := PickOver(Wheel(ps, w, total), cur);
    TraceGrows(c, trace, cur, best, next);
    trace' := Run(trace.curs + [next], trace.picks + [best]);
  }

  lemma WithoutGrows(ps: seq<Server>, i: nat, gone: set<Server>)
    requires i < |ps|
    ensures Without(ps[..i + 1], gone) == Without(ps[..i], gone) + if ps[i] in gone then [] else [ps[i]]
  {
    WithoutAppend(ps[..i], ps[i], gone);
    assert ps[..i + 1] == ps[..i] + [ps[i]];
  }

  /** The active primaries, joined by the active standbys as soon as a primary is disabled. */
  function StickyActives(upstreams: seq<Server>, standbys: seq<Server>, disabled: set<Server>): seq<Server> {
    var primaries := Without(upstreams, disabled);
    primaries + if |primaries| < |upstreams| then Without(standbys, disabled) else []
  }

  lemma StickyActivesDistinct(upstreams: seq<Server>, standbys: seq<Server>, disabled: set<Server>)
    requires Configured(upstreams, standbys)
    ensures Distinct(StickyActives(upstreams, standbys, disabled))
  {
    AllActiveDistinct(upstreams, standbys, disabled);
  }

  lemma {:induction false} WithoutShorter(ps: seq<Server>, gone: set<Server>)
    ensures |Without(ps, gone)| <= |ps|
    ensures |Without(ps, gone)| < |ps| <==> exists p :: p in ps && p in gone
    decreases |ps|
  {
    if ps == [] {
    } else {
      WithoutShorter(ps[1..], gone);
      assert ps == [ps[0]] + ps[1..];
      assert ps[0] in ps;
    }
  }

  /** A server may be asked for a sticky key if it is on and is a primary, or a standby while some primary is off. */
  lemma StickyActivesMembers(upstreams: seq<Server>, standbys: seq<Server>, disabled: set<Server>)
    ensures forall q :: q in StickyActives(upstreams, standbys, disabled) <==>
      q !in disabled && (q in upstreams || (q in standbys && exists u :: u in upstreams && u in disabled))
  {
    WithoutMember(upstreams, disabled);
    WithoutMember(standbys, disabled);
    WithoutShorter(upstreams, disabled);
  }

  predicate Configured(upstreams: seq<Server>, standbys: seq<Server>) {
    upstreams != [] && Distinct(upstreams) && Distinct(standbys) && forall s | s in standbys :: s !in upstreams
  }

  function WheelOver(bias: Preference, ps: seq<Server>): Wheel {
    Wheel(ps, Weights(bias, ps), Sum(ps, Weights(bias, ps)))
  }

  predicate SwrrValid(c: Wheel) {
    Swrr.Valid(c)
  }

  method TotalWeight(ps: seq<Server>, w: map<Server, int>) returns (total: int)
    requires Covers(w, ps)
    ensures total == Sum(ps, w)
  {
    total := 0;
    var i := 0;
    while i < |ps|
      invariant i <= |ps| && total == Sum(ps[..i], w)
    {
      assert ps[..i + 1][..i] == ps[..i];
      total := total + w[ps[i]];
      i := i + 1;
    }
    assert ps[..i] == ps;
  }

  lemma FirstBestUnique(ps: seq<Server>, v: map<Server, int>, i: nat)
    requires ps != [] && Covers(v, ps) && FirstBest(ps, v, i)
    ensures Best(ps, v) == ps[i]
  {
    var j: nat :| FirstBest(ps, v, j) && Best(ps, v) == ps[j];
    OneFirstBest(ps, v, i, j);
  }

  lemma OneFirstBest(ps: seq<Server>, v: map<Server, int>, i: nat, j: nat)
    requires Covers(v, ps) && FirstBest(ps, v, i) && FirstBest(ps, v, j)
    ensures i == j
  {
    assert v[ps[i]] <= v[ps[j]] <= v[ps[i]];
  }

  lemma FirstBestGrows(ps: seq<Server>, v: map<Server, int>, i: nat, at: nat)
    requires Covers(v, ps) && 0 < i < |ps| && FirstBest(ps[..i], v, at)
    ensures FirstBest(ps[..i + 1], v, if v[ps[i]] > v[ps[at]] then i else at)
  {
    var qs := ps[..i];
    assert forall j | 0 <= j < i :: qs[j] == ps[j];
  }

  predicate BumpedTo(ps: seq<Server>, w: map<Server, int>, cur: map<Server, int>, i: nat, m: map<Server, int>)
    requires Covers(w, ps) && Covers(cur, ps)
  {
    && m.Keys == cur.Keys
    && forall j | 0 <= j < |ps| :: m[ps[j]] == if j < i then Bumped(ps, w, cur)[ps[j]] else cur[ps[j]]
  }

  lemma BumpStep(ps: seq<Server>, w: map<Server, int>, cur: map<Server, int>, i: nat, m: map<Server, int>)
    requires Distinct(ps) && Covers(w, ps) && Covers(cur, ps) && i < |ps| && BumpedTo(ps, w, cur, i, m)
    ensures m[ps[i]] + w[ps[i]] == Bumped(ps, w, cur)[ps[i]]
    ensures BumpedTo(ps, w, cur, i + 1, m[ps[i] := m[ps[i]] + w[ps[i]]])
  {
  }

  lemma BumpEnd(ps: seq<Server>, w: map<Server, int>, cur: map<Server, int>, m: map<Server, int>)
    requires Covers(w, ps) && cur.Keys == (set p | p in ps) && BumpedTo(ps, w, cur, |ps|, m)
    ensures m == Bumped(ps, w, cur)
  {
  }

  /** The loop of one pick: every current grows by its weight, and the first of the greatest is the best. */
  method BumpAll(ps: seq<Server>, w: map<Server, int>, cur: map<Server, int>)
    returns (bumped: map<Server, int>, best: Server)
    requires ps != [] && Distinct(ps) && Covers(w, ps) && cur.Keys == set p | p in ps
    ensures bumped == Bumped(ps, w, cur) && best == Best(ps, bumped)
  {
    bumped := cur;
    ghost var v := Bumped(ps, w, cur);
    var at, i := 0, 0;
    while i < |ps|
      invariant i <= |ps| && BumpedTo(ps, w, cur, i, bumped)
      invariant i > 0 ==> FirstBest(ps[..i], v, at)
    {
      BumpStep(ps, w, cur, i, bumped);
      bumped := bumped[ps[i] := bumped[ps[i]] + w[ps[i]]];
      if i > 0 {
        FirstBestGrows(ps, v, i, at);
      }
      if i == 0 || bumped[ps[i]] > bumped[ps[at]] {
        at := i;
      }
      i := i + 1;
    }
    assert ps[..i] == ps;
    BumpEnd(ps, w, cur, bumped);
    FirstBestUnique(ps, v, at);
    best := ps[at];
  }

  method SplitEvenly(others: seq<Server>, rest: nat) returns (w: map<Server, int>)
    requires Distinct(others)
    ensures w.Keys == set p | p in others
    ensures forall i | 0 <= i < |others| :: w[others[i]] == Share(rest, |others|, i)
  {
    w := map[];
    if others != [] {
      var base := rest / |others|;
      var extra := rest - base * |others|;
      var i := 0;
      while i < |others|
        invariant i <= |others| && w.Keys == set j | 0 <= j < i :: others[j]
        invariant forall j | 0 <= j < i :: w[others[j]] == Share(rest, |others|, j)
      {
        w := w[others[i] := base + if i < extra then 1 else 0];
        i := i + 1;
      }
    }
  }

  /** The weights of a rebuild: an even split of the rest over the others, then the preferred servers. */
  method RebuiltWeights(bias: Preference, actives: seq<Server>) returns (w: map<Server, int>)
    requires Distinct(actives)
    ensures w == Weights(bias, actives)
  {
    var others := Unpreferred(bias, actives);
    w := SplitEvenly(others, Rest(bias, actives));
    ghost var split := w;
    if bias.target1 in actives {
      w := w[bias.target1 := Max(1, Percent(bias.ratio1))];
    }
    if bias.target2 in actives {
      w := w[bias.target2 := Max(1, Percent(bias.ratio2))];
    }
    forall p | p in actives ensures p in w && w[p] == WeightOf(bias, actives, p) {
      if IsOther(bias, p) {
        WeightOfOther(bias, actives, IndexOf(others, p));
      }
    }
    WeightsAre(bias, actives, w);
  }

  lemma WeightsAre(bias: Preference, actives: seq<Server>, w: map<Server, int>)
    requires w.Keys == (set p | p in actives) && forall p | p in actives :: w[p] == WeightOf(bias, actives, p)
    ensures w == Weights(bias, actives)
  {
  }

  /** A selection from a list is determined by its members. */
  lemma SameMembersSameList(ps: seq<Server>, g: set<Server>, h: set<Server>)
    requires (set p | p in Without(ps, g)) == (set p | p in Without(ps, h))
    ensures Without(ps, g) == Without(ps, h)
  {
    WithoutMember(ps, g);
    WithoutMember(ps, h);
    var left, right := (set p | p in Without(ps, g)), (set p | p in Without(ps, h));
    assert forall p | p in ps :: p in g <==> p !in left;
    assert forall p | p in ps :: p in h <==> p !in right;
    WithoutAgree(ps, g, h);
  }

  lemma {:induction false} WithoutAgree(ps: seq<Server>, g: set<Server>, h: set<Server>)
    requires forall p | p in ps :: p in g <==> p in h
    ensures Without(ps, g) == Without(ps, h)
    decreases |ps|
  {
    if ps == [] {
    } else {
      WithoutAgree(ps[1..], g, h);
    }
  }

  lemma AllActiveDistinct(upstreams: seq<Server>, standbys: seq<Server>, disabled: set<Server>)
    requires Configured(upstreams, standbys)
    ensures Distinct(Without(upstreams, disabled))
      && Distinct(Without(upstreams, disabled) + Without(standbys, disabled))
  {
    WithoutDistinct(upstreams, disabled);
    WithoutDistinct(standbys, disabled);
    WithoutMember(upstreams, disabled);
    WithoutMember(standbys, disabled);
    var a, b := Without(upstreams, disabled), Without(standbys, disabled);
    forall i, j | 0 <= i < j < |a + b| ensures (a + b)[i] != (a + b)[j] {
      if i < |a| <= j {
        assert a[i] in a && b[j - |a|] in b;
      }
    }
  }
}

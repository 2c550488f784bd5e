/** The acknowledging side of one process, as code: the error exchange and how a call ends. */
module RpcCalls {
  import opened Rpc
  import opened RpcLockstep

  /** `errors` is what the first `upto` slots report: the flagged processes, each with its payload. */
  ghost predicate Reported(slots: seq<Bytes>, upto: nat, errors: map<nat, Bytes>) {
    && upto <= |slots|
    && (forall p: nat :: p in errors <==> p < upto && Flagged(slots[p]))
    && (forall p: nat | p in errors :: errors[p] == slots[p][1..])
  }

  predicate Ascending(ps: seq<nat>) {
    forall i, j | 0 <= i < j < |ps| :: ps[i] < ps[j]
  }

  datatype Ending = Gives | RaisesOwn(trace: Trace) | RaisesCombined(failing: seq<nat>)

  class Endpoint {
    const id: nat
    const n: nat
    var sequence: nat

    constructor (id: nat, n: nat)
      requires id < n
      ensures this.id == id && this.n == n && sequence == 0
    {
      this.id, this.n, sequence := id, n, 0;
    }

    /** One acknowledgement.  `slots` is what the store holds under this call's sequence number once the barrier
        has been passed; a process alone in its world exchanges nothing and keeps its trace whole. */
    method Synchronize(local: Outcome, slots: seq<Bytes>) returns (errors: map<nat, Bytes>)
      requires id < n && (n > 1 ==> |slots| == n)
      modifies this`sequence
      ensures sequence == old(sequence) + if n > 1 then 1 else 0
      ensures n == 1 ==> errors == if local.Failed? then map[id := local.trace] else map[]
      ensures n > 1 && id != 0 ==> errors == map[]
      ensures n > 1 && id == 0 ==> Reported(slots, n, errors)
      ensures n > 1 && id == 0 ==> forall p: nat :: p in errors <==> p < n && |slots[p]| > 0 && slots[p][0] == 1
    {
      errors := map[];
      if n == 1 {
        if local.Failed? {
          errors := map[id := local.trace];
        }
        return;
      }
      sequence := sequence + 1;
      if id != 0 {
        return;
      }
      var peer := 0;
      while peer < n
        invariant peer <= n && Reported(slots, peer, errors)
      {
        if Flagged(slots[peer]) {
          errors := errors[peer := slots[peer][1..]];
        }
        peer := peer + 1;
      }
    }

    /** A call with its acknowledgement, on any process.  Its own exception goes before the combined one, which
        process 0 alone raises and which names the failing processes in ascending order. */
    method CallWithAck(local: Outcome, slots: seq<Bytes>) returns (ending: Ending)
      requires id < n && (n > 1 ==> |slots| == n && slots[id] == Encode(local))
      modifies this`sequence
      ensures sequence == old(sequence) + if n > 1 then 1 else 0
      ensures ending.RaisesOwn? <==> local.Failed?
      ensures ending.RaisesOwn? ==> ending.trace == local.trace
      ensures ending.Gives? <==> local.Success? && (n > 1 && id == 0 ==> forall p | 0 <= p < n :: !Flagged(slots[p]))
      ensures ending.RaisesCombined? ==>
        n > 1 && id == 0 && Ascending(ending.failing)
        && forall p: nat :: p in ending.failing <==> p < n && Flagged(slots[p])
    {
      FlaggedIsFailed(local);
      var errors := Synchronize(local, slots);
      if local.Failed? {
        return RaisesOwn(local.trace);
      }
      if errors == map[] {
        assert forall p: nat :: p !in errors;
        return Gives;
      }
      var failing := InOrder(errors, n);
      var some :| some in errors;
      assert Flagged(slots[some]);
      ending := RaisesCombined(failing);
    }
  }

  /** The keys below n in ascending order. */
  method InOrder(errors: map<nat, Bytes>, n: nat) returns (failing: seq<nat>)
    ensures Ascending(failing) && forall p: nat :: p in failing <==> p < n && p in errors
  {
    var p: nat := 0;
    failing := [];
    while p < n
      invariant p <= n && Ascending(failing) && forall q: nat :: q in failing <==> q < p && q in errors
    {
      assert forall i | 0 <= i < |failing| :: failing[i] in failing;
      assert forall q: nat :: q in failing + [p] <==> q in failing || q == p;
      failing := if p in errors then failing + [p] else failing;
      p := p + 1;
    }
  }

  /** When process 0 returns from a call of the protocol, the errors its reads collected are what this code
      computes from the slots of that acknowledgement, and it ends the call in the same way. */
  lemma ReadsAreTheLoop(w: World, r: Run, k: nat)
    requires IsRun(w, r) && k < |r.states| && Enabled(w, r.states[k], Return)
    ensures var s := r.states[k]; var pc := s.ps[0].pc;
      (forall p: nat | p < w.n :: (pc.slot, p) in s.store)
      && Reported(seq(w.n, p requires 0 <= p < w.n && (pc.slot, p) in s.store => s.store[(pc.slot, p)]), w.n, pc.errors)
  {
    InvRun(w, r, k);
    var s := r.states[k];
    var pc := s.ps[0].pc;
    assert ErrorsOf(s.ps, pc.slot, w.n, pc.errors);
    forall p: nat | p < w.n
      ensures (pc.slot, p) in s.store && s.store[(pc.slot, p)] == Encode(s.ps[p].did[pc.slot])
    {
      assert ProcessOk(s, p) && ProcessOk(s, 0) && Together(s.ps[0], s.ps[p]);
      FlaggedIsFailed(s.ps[p].did[pc.slot]);
    }
    forall p: nat | p < w.n ensures Flagged(s.store[(pc.slot, p)]) <==> p in pc.errors {
      FlaggedIsFailed(s.ps[p].did[pc.slot]);
    }
    forall p: nat | p in pc.errors ensures pc.errors[p] == s.store[(pc.slot, p)][1..] {
      FlaggedIsFailed(s.ps[p].did[pc.slot]);
    }
  }
}

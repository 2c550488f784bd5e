/** Routing of sampling requests: a bounded table from prompt prefixes to engines, filled round robin. */
module StickyRoute {
  import opened Collections
  import opened Division

  const Capacity: nat := 4096
  const Evicted: nat := 2048

  type Key = nat

  // ---------------------------------------------------------------- the table as a window on its history

  /** Allocations whose entries are gone when `r` prefixes have been allocated in all. */
  function Base(r: nat): (b: nat)
    ensures b <= r && r - b <= Capacity
  {
    if r == 0 then 0
    else if r - 1 - Base(r - 1) >= Capacity then Base(r - 1) + Evicted
    else Base(r - 1)
  }

  /** Evictions come in halves: after `r` allocations all whole blocks of 2048 that did not fit are gone. */
  lemma {:induction false} BaseClosedForm(r: nat)
    ensures Base(r) == if r <= 4096 then 0 else 2048 * ((r - 4097) / 2048 + 1)
  {
    if r == 0 {
    } else {
      BaseClosedForm(r - 1);
      if r - 1 > Capacity {
        var x := r - Capacity - 2;
        assert r - 1 - Base(r - 1) == Capacity - Evicted + 1 + x % Evicted;
      }
    }
  }

  /** The entry of allocation j is still there after r allocations if and only if r <= 4096 + 2048 * (j / 2048). */
  lemma LivesExactly(j: nat, r: nat)
    requires j < r
    ensures Base(r) <= j <==> r <= 4096 + 2048 * (j / 2048)
  {
    BaseClosedForm(r);
  }

  /** So an entry survives at least the 2048 allocations after its own. */
  lemma LivesLong(j: nat, r: nat)
    requires j < r <= j + 1 + 2048
    ensures Base(r) <= j
  {
    LivesExactly(j, r);
  }

  function RoundRobin(engines: nat): nat -> nat
    requires engines > 0
  {
    i => i % engines
  }

  function Members(ks: seq<Key>): set<Key> {
    set k | k in ks
  }

  /** The table after these allocations: the keys of the live window in order, allocation number i going to
      engine `turn(i)`. */
  ghost predicate Holds(history: seq<Key>, order: seq<Key>, engine: map<Key, nat>, turn: nat -> nat) {
    HoldsFrom(Base(|history|), history, order, engine, turn)
  }

  ghost predicate HoldsFrom(b: nat, history: seq<Key>, order: seq<Key>, engine: map<Key, nat>, turn: nat -> nat) {
    && b <= |history| && order == history[b..] && Distinct(order) && engine.Keys == Members(order)
    && forall i | 0 <= i < |order| :: engine[order[i]] == turn(b + i)
  }

  lemma NothingHeld(turn: nat -> nat)
    ensures Holds([], [], map[], turn)
  {
  }

  lemma BaseStep(n: nat)
    ensures Base(n + 1) == if n - Base(n) >= Capacity then Base(n) + Evicted else Base(n)
  {
  }

  /** A live allocation is found, at the engine it was given. */
  lemma LiveLookup(b: nat, history: seq<Key>, order: seq<Key>, engine: map<Key, nat>, turn: nat -> nat, j: nat)
    requires HoldsFrom(b, history, order, engine, turn) && b <= j < |history|
    ensures history[j] in engine && engine[history[j]] == turn(j)
  {
    var i := j - b;
    assert order[i] == history[j];
  }

  /** Between two tables of which the second's history extends the first's: a key allocated last in the first is
      on the same engine in the second as long as no more than 2048 prefixes were allocated since. */
  lemma StaysPut(history: seq<Key>, later: seq<Key>, order: seq<Key>, engine: map<Key, nat>, turn: nat -> nat)
    requires Holds(later, order, engine, turn)
    requires history != [] && history <= later && |later| <= |history| + 2048
    ensures var key := history[|history| - 1]; key in engine && engine[key] == turn(|history| - 1)
  {
    LivesLong(|history| - 1, |later|);
    LiveLookup(Base(|later|), later, order, engine, turn, |history| - 1);
  }

  // ---------------------------------------------------------------- two phases, one key

  function Head(prompt: seq<int>, prefixTokens: int): (h: seq<int>)
    ensures h <= prompt && (|prompt| <= prefixTokens ==> h == prompt)
    ensures 1 <= prefixTokens <= |prompt| ==> |h| == prefixTokens
    ensures prefixTokens < 1 <= |prompt| ==> |h| == 1
  {
    var n := if prefixTokens > 1 then prefixTokens else 1;
    if n <= |prompt| then prompt[..n] else prompt
  }

  /** A prompt and any extension of it have the same head if and only if the prompt is long enough or the
      extension is empty. */
  lemma SameHead(prompt: seq<int>, generated: seq<int>, prefixTokens: int)
    ensures Head(prompt + generated, prefixTokens) == Head(prompt, prefixTokens) <==>
            (|prompt| >= prefixTokens && |prompt| >= 1) || generated == []
  {
    var n := if prefixTokens > 1 then prefixTokens else 1;
    var long := prompt + generated;
    if generated == [] {
      assert long == prompt;
    } else if |prompt| >= n {
      assert long[..n] == prompt[..n];
    } else {
      assert |Head(long, prefixTokens)| > |prompt|;
    }
  }

  /** Both phases of a request reach the same engine: if phase 1's prefix was allocation j and no more than
      4096 + 2048 * (j / 2048) prefixes have been allocated by the time of phase 2, the table then sends any
      extension of the prompt where it sent the prompt. */
  lemma TwoPhasesMeet(prompt: seq<int>, generated: seq<int>, prefixTokens: int, crc: seq<int> -> Key, turn: nat -> nat,
                      j: nat, history: seq<Key>, order: seq<Key>, engine: map<Key, nat>,
                      later: seq<Key>, order': seq<Key>, engine': map<Key, nat>)
    requires |prompt| >= prefixTokens && |prompt| >= 1
    requires Holds(history, order, engine, turn) && Holds(later, order', engine', turn) && history <= later
    requires j < |history| && history[j] == crc(Head(prompt, prefixTokens))
    requires |later| <= 4096 + 2048 * (j / 2048)
    ensures var key, key' := crc(Head(prompt, prefixTokens)), crc(Head(prompt + generated, prefixTokens));
      key in engine && key' in engine' && engine'[key'] == engine[key] == turn(j)
  {
    SameHead(prompt, generated, prefixTokens);
    LivesExactly(j, |history|);
    LivesExactly(j, |later|);
    LiveLookup(Base(|history|), history, order, engine, turn, j);
    LiveLookup(Base(|later|), later, order', engine', turn, j);
  }

  // ---------------------------------------------------------------- balance

  /** How many of the first r allocations went to engine e. */
  function Share(r: nat, engines: nat, e: nat): nat
    requires engines > 0
  {
    if r == 0 then 0 else Share(r - 1, engines, e) + if (r - 1) % engines == e then 1 else 0
  }

  lemma NextRemainder(r: nat, n: nat)
    requires n > 0 && r > 0
    ensures var q, m := (r - 1) / n, (r - 1) % n;
      if m + 1 == n then r / n == q + 1 && r % n == 0 else r / n == q && r % n == m + 1
  {
    var q, m := (r - 1) / n, (r - 1) % n;
    if m + 1 == n {
      QuotientOf(r, q + 1, n, 0);
    } else {
      QuotientOf(r, q, n, m + 1);
    }
  }

  /** Every engine gets its even share, the first ones the remainder: shares differ by at most one. */
  lemma {:induction false} SharesEven(r: nat, engines: nat, e: nat)
    requires e < engines
    ensures Share(r, engines, e) == r / engines + if e < r % engines then 1 else 0
  {
    if r == 0 {
      QuotientOf(0, 0, engines, 0);
    } else {
      SharesEven(r - 1, engines, e);
      NextRemainder(r, engines);
    }
  }

  lemma SharesDiffer(r: nat, engines: nat, e: nat, f: nat)
    requires e < engines && f < engines
    ensures -1 <= Share(r, engines, e) - Share(r, engines, f) <= 1
  {
    SharesEven(r, engines, e);
    SharesEven(r, engines, f);
  }

  // ---------------------------------------------------------------- the client

  class SamplingClient {
    const urls: seq<string>
    const clientSide: bool
    const byPrefix: bool
    const prefixTokens: int
    const crc: seq<int> -> Key
    var order: seq<Key>
    var engine: map<Key, nat>
    var roundRobin: nat
    ghost var history: seq<Key>

    ghost predicate Valid()
      reads this
    {
      urls != [] && roundRobin == |history| && Holds(history, order, engine, RoundRobin(|urls|))
    }

    constructor (urls: seq<string>, clientSide: bool, byPrefix: bool, prefixTokens: int, crc: seq<int> -> Key)
      requires urls != []
      ensures Valid() && history == []
      ensures this.urls == urls && this.clientSide == clientSide && this.byPrefix == byPrefix
      ensures this.prefixTokens == prefixTokens && this.crc == crc
    {
      this.urls, this.clientSide, this.byPrefix, this.prefixTokens, this.crc :=
        urls, clientSide, byPrefix, prefixTokens, crc;
      order, engine, roundRobin, history := [], map[], 0, [];
      new;
      NothingHeld(RoundRobin(|urls|));
    }

    function KeyOf(prompt: seq<int>): Key {
      crc(Head(prompt, prefixTokens))
    }

    /** Drops the oldest half of a full table. */
    method Evict()
      requires |order| == Capacity && Distinct(order) && engine.Keys == Members(order)
      modifies this`order, this`engine
      ensures order == old(order)[Evicted..]
      ensures engine.Keys == Members(order) && forall k | k in engine :: k in old(engine) && engine[k] == old(engine)[k]
    {
      var dead, i := order[..Evicted], 0;
      while i < |dead|
        invariant i <= |dead| && order == old(order)[i..]
        invariant engine.Keys == Members(order)
        invariant forall k | k in engine :: k in old(engine) && engine[k] == old(engine)[k]
      {
        assert order[0] == dead[i] && order == [order[0]] + order[1..];
        engine := engine - {dead[i]};
        order := order[1..];
        i := i + 1;
      }
    }

    /** The engine of a prompt's prefix: the table's if it is there, else the next one in turn, remembered. */
    method Slot(key: Key) returns (slot: nat)
      requires Valid()
      modifies this
      ensures Valid() && slot < |urls| && key in engine && engine[key] == slot
      ensures key in old(engine) ==> slot == old(engine)[key] && history == old(history) && engine == old(engine)
      ensures key !in old(engine) ==> slot == |old(history)| % |urls| && history == old(history) + [key]
      ensures |engine| <= 4096
    {
      ghost var b := Base(|history|);
      if key in engine {
        slot := engine[key];
        var i :| 0 <= i < |order| && order[i] == key;
      } else {
        slot := roundRobin % |urls|;
        roundRobin := roundRobin + 1;
        if |order| >= Capacity {
          Evict();
        }
        order := order + [key];
        engine := engine[key := slot];
        history := history + [key];
        WindowMoves(old(history), old(order), old(engine), key, order, engine, RoundRobin(|urls|));
      }
      DistinctSize(order);
      assert engine.Keys == Members(order);
    }

    /** The URL of request number `index`. */
    method CompletionUrl(index: nat, prompt: seq<int>) returns (url: string)
      requires Valid()
      modifies this
      ensures Valid() && |engine| <= 4096
      ensures !clientSide ==> url == urls[0]
      ensures clientSide && (!byPrefix || prompt == []) ==> url == urls[index % |urls|]
      ensures var key := crc(Head(prompt, prefixTokens));
        if !clientSide || !byPrefix || prompt == [] then engine == old(engine) && history == old(history)
        else
          && key in engine && engine[key] < |urls| && url == urls[engine[key]]
          && (key in old(engine) ==> engine == old(engine) && history == old(history))
          && (key !in old(engine) ==> engine[key] == |old(history)| % |urls| && history == old(history) + [key])
    {
      DistinctSize(order);
      if !clientSide {
        return urls[0];
      }
      if byPrefix && prompt != [] {
        var slot := Slot(KeyOf(prompt));
        return urls[slot];
      }
      url := urls[index % |urls|];
    }
  }

  lemma {:induction false} DistinctSize(ks: seq<Key>)
    requires Distinct(ks)
    ensures |Members(ks)| == |ks|
    decreases |ks|
  {
    if ks == [] {
    } else {
      var n := |ks| - 1;
      DistinctSize(ks[..n]);
      assert ks == ks[..n] + [ks[n]];
      assert Members(ks) == Members(ks[..n]) + {ks[n]};
      assert ks[n] !in Members(ks[..n]);
    }
  }

  lemma WindowMoves(history: seq<Key>, order: seq<Key>, engine: map<Key, nat>, key: Key,
                    order': seq<Key>, engine': map<Key, nat>, turn: nat -> nat)
    requires Holds(history, order, engine, turn) && key !in engine
    requires order' == (if |order| >= Capacity then order[Evicted..] else order) + [key]
    requires engine'.Keys == Members(order') && engine'[key] == turn(|history|)
    requires forall k | k in engine' && k != key :: k in engine && engine'[k] == engine[k]
    ensures Holds(history + [key], order', engine', turn)
  {
    var b, n := Base(|history|), |history|;
    BaseStep(n);
    var c := if n - b >= Capacity then b + Evicted else b;
    EntryAdded(c, history, order[c - b..], engine, key, engine', b, order, turn);
    assert |history + [key]| == n + 1;
  }

  lemma EntryAdded(c: nat, history: seq<Key>, kept: seq<Key>, engine: map<Key, nat>, key: Key, engine': map<Key, nat>,
                   b: nat, order: seq<Key>, turn: nat -> nat)
    requires HoldsFrom(b, history, order, engine, turn) && key !in engine && b <= c <= |history|
    requires kept == order[c - b..]
    requires engine'.Keys == Members(kept + [key]) && engine'[key] == turn(|history|)
    requires forall k | k in engine' && k != key :: k in engine && engine'[k] == engine[k]
    ensures HoldsFrom(c, history + [key], kept + [key], engine', turn)
  {
    var more := kept + [key];
    assert more == (history + [key])[c..];
    forall i | 0 <= i < |kept| ensures kept[i] != key && engine'[kept[i]] == turn(c + i) {
      assert kept[i] == order[i + (c - b)] && kept[i] in Members(order) && kept[i] in Members(more);
    }
  }
}

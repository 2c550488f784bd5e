/** Candidate orders of the summary router: rendezvous order, preferred-first orders, rotations. */
module RouterOrder {
  import opened Collections
  import opened Preferences
  import opened Swrr

  // ---------------------------------------------------------------- rendezvous order

  function Insert(score: Server -> real, x: Server, ps: seq<Server>): seq<Server> {
    if ps == [] || score(x) >= score(ps[0]) then [x] + ps else [ps[0]] + Insert(score, x, ps[1..])
  }

  /** Servers by descending score; equal scores keep their order. */
  function HrwOrder(score: Server -> real, ps: seq<Server>): seq<Server> {
    if ps == [] then [] else Insert(score, ps[0], HrwOrder(score, ps[1..]))
  }

  predicate Descending(score: Server -> real, ps: seq<Server>) {
    forall i, j | 0 <= i < j < |ps| :: score(ps[i]) >= score(ps[j])
  }

  lemma {:induction false} InsertMultiset(score: Server -> real, x: Server, ps: seq<Server>)
    ensures multiset(Insert(score, x, ps)) == multiset{x} + multiset(ps)
    decreases |ps|
  {
    if ps != [] && score(x) < score(ps[0]) {
      InsertMultiset(score, x, ps[1..]);
      assert ps == [ps[0]] + ps[1..];
    }
  }

  lemma {:induction false} InsertDescending(score: Server -> real, x: Server, ps: seq<Server>)
    requires Descending(score, ps)
    ensures Descending(score, Insert(score, x, ps))
    decreases |ps|
  {
    if ps != [] && score(x) < score(ps[0]) {
      InsertDescending(score, x, ps[1..]);
      InsertMultiset(score, x, ps[1..]);
      var r := Insert(score, x, ps[1..]);
      forall j | 0 <= j < |r| ensures score(ps[0]) >= score(r[j]) {
        assert r[j] in multiset(r);
        assert r[j] == x || r[j] in ps[1..];
      }
    }
  }

  /** The rendezvous order is a permutation of its servers, highest score first. */
  lemma {:induction false} HrwSorts(score: Server -> real, ps: seq<Server>)
    ensures multiset(HrwOrder(score, ps)) == multiset(ps)
    ensures Descending(score, HrwOrder(score, ps))
    decreases |ps|
  {
    if ps == [] {
    } else {
      HrwSorts(score, ps[1..]);
      InsertMultiset(score, ps[0], HrwOrder(score, ps[1..]));
      InsertDescending(score, ps[0], HrwOrder(score, ps[1..]));
      assert ps == [ps[0]] + ps[1..];
    }
  }

  /** Where a server is inserted: behind those of greater score, before all others. */
  lemma {:induction false} InsertAt(score: Server -> real, x: Server, ps: seq<Server>) returns (k: nat)
    ensures k <= |ps| && Insert(score, x, ps) == ps[..k] + [x] + ps[k..]
    ensures forall i | 0 <= i < k :: score(ps[i]) > score(x)
    decreases |ps|
  {
    if ps == [] || score(x) >= score(ps[0]) {
      k := 0;
    } else {
      k := InsertAt(score, x, ps[1..]);
      k := k + 1;
      assert ps[..k] == [ps[0]] + ps[1..][..k - 1] && ps[k..] == ps[1..][k - 1..];
      assert forall i | 0 < i < k :: ps[i] == ps[1..][i - 1];
    }
  }

  /** Servers of equal score stand in the order given. */
  predicate Stable(score: Server -> real, ps: seq<Server>, order: seq<Server>) {
    forall i, j | 0 <= i < j < |order| && score(order[i]) == score(order[j]) ::
      order[i] in ps && order[j] in ps && IndexOf(ps, order[i]) < IndexOf(ps, order[j])
  }

  lemma {:induction false} HrwStable(score: Server -> real, ps: seq<Server>)
    requires Distinct(ps)
    ensures Stable(score, ps, HrwOrder(score, ps))
    decreases |ps|
  {
    if ps == [] {
    } else {
      var x, rest := ps[0], HrwOrder(score, ps[1..]);
      assert forall i | 0 <= i < |ps[1..]| :: ps[1..][i] == ps[i + 1];
      HrwStable(score, ps[1..]);
      HrwSorts(score, ps[1..]);
      var k := InsertAt(score, x, rest);
      StableInserted(score, ps, rest, k);
    }
  }

  lemma TailIndex(ps: seq<Server>, q: Server)
    requires ps != [] && Distinct(ps) && q in ps[1..]
    ensures q in ps && q != ps[0] && IndexOf(ps, q) == 1 + IndexOf(ps[1..], q)
  {
    var i :| 0 <= i < |ps[1..]| && ps[1..][i] == q;
    assert ps[i + 1] == q;
  }

  lemma StableInserted(score: Server -> real, ps: seq<Server>, rest: seq<Server>, k: nat)
    requires ps != [] && Distinct(ps) && k <= |rest| && multiset(rest) == multiset(ps[1..])
    requires Stable(score, ps[1..], rest) && forall i | 0 <= i < k :: score(rest[i]) > score(ps[0])
    ensures Stable(score, ps, rest[..k] + [ps[0]] + rest[k..])
  {
    var order := rest[..k] + [ps[0]] + rest[k..];
    forall i, j | 0 <= i < j < |order| && score(order[i]) == score(order[j])
      ensures order[i] in ps && order[j] in ps && IndexOf(ps, order[i]) < IndexOf(ps, order[j])
    {
      if i == k {
        InsertedLater(ps, rest, j - 1);
        assert order[j] == rest[j - 1];
      } else if j != k {
        var x, y := if i < k then i else i - 1, if j < k then j else j - 1;
        assert order[i] == rest[x] && order[j] == rest[y];
        InsertedLater(ps, rest, x);
        InsertedLater(ps, rest, y);
      }
    }
  }

  lemma InsertedLater(ps: seq<Server>, rest: seq<Server>, i: nat)
    requires ps != [] && Distinct(ps) && multiset(rest) == multiset(ps[1..]) && i < |rest|
    ensures rest[i] in ps[1..] && rest[i] in ps && IndexOf(ps, rest[i]) == 1 + IndexOf(ps[1..], rest[i])
  {
    assert rest[i] in multiset(rest);
    TailIndex(ps, rest[i]);
  }

  lemma WithoutCons(x: Server, ps: seq<Server>, gone: set<Server>)
    ensures Without([x] + ps, gone) == (if x in gone then [] else [x]) + Without(ps, gone)
  {
    assert ([x] + ps)[1..] == ps;
  }

  lemma InsertCons(score: Server -> real, x: Server, y: Server, ps: seq<Server>)
    ensures Insert(score, x, [y] + ps) == if score(x) >= score(y) then [x] + ([y] + ps) else [y] + Insert(score, x, ps)
  {
    assert ([y] + ps)[1..] == ps;
  }

  lemma InsertFront(score: Server -> real, x: Server, ps: seq<Server>, gone: set<Server>)
    requires forall y | y in ps :: score(x) >= score(y)
    ensures Insert(score, x, Without(ps, gone)) == [x] + Without(ps, gone)
  {
    var rest := Without(ps, gone);
    WithoutMember(ps, gone);
    if rest != [] {
      assert rest[0] in rest;
    }
  }

  lemma InsertWithoutStep(score: Server -> real, x: Server, y: Server, rest: seq<Server>, gone: set<Server>)
    requires score(x) < score(y)
    requires Without(Insert(score, x, rest), gone) ==
      if x in gone then Without(rest, gone) else Insert(score, x, Without(rest, gone))
    ensures Without(Insert(score, x, [y] + rest), gone) ==
      if x in gone then Without([y] + rest, gone) else Insert(score, x, Without([y] + rest, gone))
  {
    InsertCons(score, x, y, rest);
    WithoutCons(y, rest, gone);
    WithoutCons(y, Insert(score, x, rest), gone);
    if y in gone {
      assert forall s: seq<Server> :: [] + s == s;
    } else {
      InsertCons(score, x, y, Without(rest, gone));
    }
  }

  lemma {:induction false} InsertWithout(score: Server -> real, x: Server, ps: seq<Server>, gone: set<Server>)
    requires Descending(score, ps)
    ensures Without(Insert(score, x, ps), gone) ==
      if x in gone then Without(ps, gone) else Insert(score, x, Without(ps, gone))
    decreases |ps|
  {
    if ps == [] || score(x) >= score(ps[0]) {
      WithoutCons(x, ps, gone);
      assert [] + Without(ps, gone) == Without(ps, gone);
      InsertFront(score, x, ps, gone);
    } else {
      InsertWithout(score, x, ps[1..], gone);
      InsertWithoutStep(score, x, ps[0], ps[1..], gone);
      assert [ps[0]] + ps[1..] == ps;
    }
  }

  lemma HrwCons(score: Server -> real, x: Server, ps: seq<Server>)
    ensures HrwOrder(score, [x] + ps) == Insert(score, x, HrwOrder(score, ps))
  {
    assert ([x] + ps)[1..] == ps;
  }

  /** Taking servers out of the set takes them out of the order and moves nothing else. */
  lemma {:induction false} HrwCommutesWithRemoval(score: Server -> real, ps: seq<Server>, gone: set<Server>)
    ensures HrwOrder(score, Without(ps, gone)) == Without(HrwOrder(score, ps), gone)
    decreases |ps|
  {
    if ps == [] {
    } else {
      var x, rest := ps[0], ps[1..];
      HrwCommutesWithRemoval(score, rest, gone);
      assert Descending(score, HrwOrder(score, rest)) by {
        HrwSorts(score, rest);
      }
      InsertWithout(score, x, HrwOrder(score, rest), gone);
      HrwRemoveFirst(score, x, rest, gone);
      assert [x] + rest == ps;
    }
  }

  lemma HrwRemoveFirst(score: Server -> real, x: Server, rest: seq<Server>, gone: set<Server>)
    ensures HrwOrder(score, Without([x] + rest, gone)) ==
      if x in gone then HrwOrder(score, Without(rest, gone)) else Insert(score, x, HrwOrder(score, Without(rest, gone)))
    ensures HrwOrder(score, [x] + rest) == Insert(score, x, HrwOrder(score, rest))
  {
    WithoutCons(x, rest, gone);
    HrwCons(score, x, rest);
    if x in gone {
      assert [] + Without(rest, gone) == Without(rest, gone);
    } else {
      HrwCons(score, x, Without(rest, gone));
    }
  }

  /** So a key keeps its server as long as that server itself stays. */
  lemma WinnerStays(score: Server -> real, ps: seq<Server>, gone: set<Server>)
    requires ps != [] && HrwOrder(score, ps) != [] && HrwOrder(score, ps)[0] !in gone
    ensures var left := HrwOrder(score, Without(ps, gone)); left != [] && left[0] == HrwOrder(score, ps)[0]
  {
    HrwCommutesWithRemoval(score, ps, gone);
  }

  // ---------------------------------------------------------------- orders built around one server

  function FirstThenRest(first: Server, ps: seq<Server>): seq<Server> {
    [first] + Without(ps, {first})
  }

  lemma {:induction false} WithoutCount(ps: seq<Server>, gone: set<Server>, p: Server)
    ensures multiset(Without(ps, gone))[p] == if p in gone then 0 else multiset(ps)[p]
    decreases |ps|
  {
    if ps == [] {
    } else {
      WithoutCount(ps[1..], gone, p);
      assert ps == [ps[0]] + ps[1..];
    }
  }

  lemma FirstThenRestPermutes(first: Server, ps: seq<Server>)
    requires Distinct(ps) && first in ps
    ensures multiset(FirstThenRest(first, ps)) == multiset(ps)
  {
    var rest := Without(ps, {first});
    forall p ensures multiset([first] + rest)[p] == multiset(ps)[p] {
      WithoutCount(ps, {first}, p);
      OnceInMultiset(ps, p);
      assert first in multiset(ps);
    }
  }

  lemma DistinctOfMultiset(ps: seq<Server>, qs: seq<Server>)
    requires Distinct(ps) && multiset(ps) == multiset(qs)
    ensures Distinct(qs)
  {
    forall i, j | 0 <= i < j < |qs| ensures qs[i] != qs[j] {
      if qs[i] == qs[j] {
        TwiceInMultiset(qs, i, j);
        OnceInMultiset(ps, qs[i]);
      }
    }
  }

  lemma TwiceInMultiset(qs: seq<Server>, i: nat, j: nat)
    requires i < j < |qs| && qs[i] == qs[j]
    ensures multiset(qs)[qs[i]] >= 2
  {
    assert qs == qs[..j] + [qs[j]] + qs[j + 1..];
    assert qs[..j][i] == qs[i];
    assert qs[i] in multiset(qs[..j]);
  }

  lemma {:induction false} OnceInMultiset(ps: seq<Server>, x: Server)
    requires Distinct(ps)
    ensures multiset(ps)[x] <= 1
    decreases |ps|
  {
    if ps == [] {
    } else {
      var n := |ps| - 1;
      OnceInMultiset(ps[..n], x);
      assert ps == ps[..n] + [ps[n]];
      if x == ps[n] {
        assert x !in ps[..n];
      }
    }
  }

  // ---------------------------------------------------------------- the order without weighted round robin

  function AddIfMissing(ps: seq<Server>, active: seq<Server>, p: Server): seq<Server> {
    if p in active && p !in ps then ps + [p] else ps
  }

  /** The unpreferred servers, from the rotation's start if that is one of them. */
  function Rotated(others: seq<Server>, start: Option<Server>): seq<Server> {
    if start.Some? && start.value in others
    then others[IndexOf(others, start.value)..] + others[..IndexOf(others, start.value)]
    else others
  }

  /** The preferred servers come last. */
  function RotationOrder(b: Preference, active: seq<Server>, start: Option<Server>): seq<Server> {
    var others := Unpreferred(b, active);
    var base := if others != [] then Rotated(others, start) else active;
    AddIfMissing(AddIfMissing(base, active, b.target1), active, b.target2)
  }

  /** `p` is the random draw and `start` the next active server of the rotation, if any. */
  function RandomOrder(b: Preference, active: seq<Server>, p: real, start: Option<Server>): seq<Server> {
    if b.target1 in active && p < b.ratio1 then FirstThenRest(b.target1, active)
    else if b.target2 in active && p < b.ratio1 + b.ratio2 then FirstThenRest(b.target2, active)
    else RotationOrder(b, active, start)
  }

  lemma UnpreferredMultiset(b: Preference, ps: seq<Server>)
    requires Distinct(ps)
    ensures multiset(Unpreferred(b, ps)) == multiset(ps) - multiset{b.target1} - multiset{b.target2}
  {
    forall p ensures multiset(Unpreferred(b, ps))[p] == (multiset(ps) - multiset{b.target1} - multiset{b.target2})[p] {
      WithoutCount(ps, {b.target1, b.target2}, p);
      OnceInMultiset(ps, p);
    }
  }

  lemma RotationPermutes(ps: seq<Server>, i: nat)
    requires i <= |ps|
    ensures multiset(ps[i..] + ps[..i]) == multiset(ps)
  {
    assert ps == ps[..i] + ps[i..];
  }

  lemma AddBack(ps: seq<Server>, active: seq<Server>, x: Server, y: Server)
    requires multiset(ps) == multiset(active) - multiset{x} - multiset{y}
    requires multiset(active)[x] <= 1 && multiset(active)[y] <= 1
    ensures multiset(AddIfMissing(AddIfMissing(ps, active, x), active, y)) == multiset(active)
  {
    var one := AddIfMissing(ps, active, x);
    forall p ensures multiset(AddIfMissing(one, active, y))[p] == multiset(active)[p] {
      AddOne(ps, active, x, p);
      AddOne(one, active, y, p);
      AddOne(ps, active, x, y);
    }
  }

  lemma AddOne(ps: seq<Server>, active: seq<Server>, x: Server, p: Server)
    ensures multiset(AddIfMissing(ps, active, x))[p] ==
            multiset(ps)[p] + if p == x && multiset(active)[x] > 0 && multiset(ps)[x] == 0 then 1 else 0
  {
    assert x in active <==> x in multiset(active);
    assert x in ps <==> x in multiset(ps);
  }

  lemma RotatedOrderPermutes(b: Preference, active: seq<Server>, start: Option<Server>)
    requires Distinct(active)
    ensures var base := Rotated(Unpreferred(b, active), start);
      multiset(AddIfMissing(AddIfMissing(base, active, b.target1), active, b.target2)) == multiset(active)
  {
    var others := Unpreferred(b, active);
    var base := Rotated(others, start);
    if start.Some? && start.value in others {
      RotationPermutes(others, IndexOf(others, start.value));
    }
    UnpreferredMultiset(b, active);
    OnceInMultiset(active, b.target1);
    OnceInMultiset(active, b.target2);
    AddBack(base, active, b.target1, b.target2);
  }

  lemma RotationOrderPermutes(b: Preference, active: seq<Server>, start: Option<Server>)
    requires Distinct(active)
    ensures multiset(RotationOrder(b, active, start)) == multiset(active)
  {
    if Unpreferred(b, active) != [] {
      RotatedOrderPermutes(b, active, start);
    } else {
      assert AddIfMissing(AddIfMissing(active, active, b.target1), active, b.target2) == active;
    }
  }

  /** Whatever the draw and the rotation, the order contains every active server exactly once. */
  lemma RandomOrderPermutes(b: Preference, active: seq<Server>, p: real, start: Option<Server>)
    requires Distinct(active)
    ensures multiset(RandomOrder(b, active, p, start)) == multiset(active)
  {
    if b.target1 in active && p < b.ratio1 {
      FirstThenRestPermutes(b.target1, active);
    } else if b.target2 in active && p < b.ratio1 + b.ratio2 {
      FirstThenRestPermutes(b.target2, active);
    } else {
      RotationOrderPermutes(b, active, start);
    }
  }

  /** A drawn preferred server is first and the others follow in the order given; otherwise the rotation is used. */
  lemma RandomOrderShape(b: Preference, active: seq<Server>, p: real, start: Option<Server>)
    requires Distinct(active) && active != []
    ensures var order := RandomOrder(b, active, p, start);
      && order != []
      && (b.target1 in active && p < b.ratio1 ==> order[0] == b.target1 && KeepsOrder(active, order[1..]))
      && (!(b.target1 in active && p < b.ratio1) && b.target2 in active && p < b.ratio1 + b.ratio2 ==>
            order[0] == b.target2 && KeepsOrder(active, order[1..]))
      && ((b.target1 in active ==> p >= b.ratio1) && (b.target2 in active ==> p >= b.ratio1 + b.ratio2) ==>
            order == RotationOrder(b, active, start))
  {
    RandomOrderPermutes(b, active, p, start);
    assert |multiset(RandomOrder(b, active, p, start))| == |multiset(active)| == |active|;
    WithoutKeepsOrder(active, {b.target1});
    WithoutKeepsOrder(active, {b.target2});
  }

  /** The rotation: the servers without preference in their order, from the next one on and around, and after them the
      preferred servers that are on; with none of the former, the servers as they are. */
  lemma RotationShape(b: Preference, active: seq<Server>, start: Option<Server>)
    requires Distinct(active)
    ensures var order, others := RotationOrder(b, active, start), Unpreferred(b, active);
      && (others == [] ==> order == active)
      && (others != [] ==>
            var k := if start.Some? && start.value in others then IndexOf(others, start.value) else 0;
            order == others[k..] + others[..k] + (if b.target1 in active then [b.target1] else [])
                     + (if b.target2 in active && b.target2 != b.target1 then [b.target2] else []))
  {
    var others := Unpreferred(b, active);
    if others != [] {
      var base := Rotated(others, start);
      var k := if start.Some? && start.value in others then IndexOf(others, start.value) else 0;
      assert base == others[k..] + others[..k];
      forall q | q in base ensures IsOther(b, q) {
        assert q in others;
      }
      assert b.target1 !in base && b.target2 !in base;
    }
  }
}

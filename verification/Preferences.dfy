/** The servers a configuration prefers, and a server list without some of its servers. */
module Preferences {
  import opened Collections
  import opened Swrr

  function Without(ps: seq<Server>, gone: set<Server>): seq<Server> {
    if ps == [] then []
    else (if ps[0] in gone then [] else [ps[0]]) + Without(ps[1..], gone)
  }

  lemma {:induction false} WithoutMember(ps: seq<Server>, gone: set<Server>)
    ensures forall p :: p in Without(ps, gone) <==> p in ps && p !in gone
    decreases |ps|
  {
    if ps == [] {
    } else {
      WithoutMember(ps[1..], gone);
      assert ps == [ps[0]] + ps[1..];
    }
  }

  lemma {:induction false} WithoutDistinct(ps: seq<Server>, gone: set<Server>)
    requires Distinct(ps)
    ensures Distinct(Without(ps, gone))
    decreases |ps|
  {
    if ps == [] {
    } else {
      assert forall i | 0 <= i < |ps[1..]| :: ps[1..][i] == ps[i + 1];
      WithoutDistinct(ps[1..], gone);
      WithoutMember(ps[1..], gone);
    }
  }

  /** All of `qs` are in `ps`, in the same order. */
  predicate KeepsOrder(ps: seq<Server>, qs: seq<Server>) {
    && (forall q | q in qs :: q in ps)
    && forall i, j | 0 <= i < j < |qs| :: qs[i] in ps && qs[j] in ps && IndexOf(ps, qs[i]) < IndexOf(ps, qs[j])
  }

  lemma {:induction false} WithoutKeepsOrder(ps: seq<Server>, gone: set<Server>)
    requires Distinct(ps)
    ensures KeepsOrder(ps, Without(ps, gone))
    decreases |ps|
  {
    WithoutMember(ps, gone);
    if ps == [] {
    } else {
      var rest, qs := Without(ps[1..], gone), Without(ps, gone);
      assert forall i | 0 <= i < |ps[1..]| :: ps[1..][i] == ps[i + 1];
      WithoutKeepsOrder(ps[1..], gone);
      WithoutMember(ps[1..], gone);
      forall q | q in rest ensures q in ps[1..] && q != ps[0] && IndexOf(ps, q) == 1 + IndexOf(ps[1..], q) {
      }
      var d := |qs| - |rest|;
      forall i, j | 0 <= i < j < |qs| ensures qs[i] in ps && qs[j] in ps && IndexOf(ps, qs[i]) < IndexOf(ps, qs[j]) {
        assert qs[i] in qs && qs[j] in qs && qs[j] == rest[j - d] && rest[j - d] in rest;
        if i >= d {
          assert qs[i] == rest[i - d] && rest[i - d] in rest;
        }
      }
    }
  }

  lemma KeepsOrderTwice(ps: seq<Server>, qs: seq<Server>, rs: seq<Server>)
    requires KeepsOrder(ps, qs) && KeepsOrder(qs, rs)
    ensures KeepsOrder(ps, rs)
  {
    forall i, j | 0 <= i < j < |rs| ensures rs[i] in ps && rs[j] in ps && IndexOf(ps, rs[i]) < IndexOf(ps, rs[j]) {
      var x, y := IndexOf(qs, rs[i]), IndexOf(qs, rs[j]);
      assert qs[x] == rs[i] && qs[y] == rs[j] && x < y;
    }
  }

  lemma {:induction false} WithoutAppend(ps: seq<Server>, p: Server, gone: set<Server>)
    ensures Without(ps + [p], gone) == Without(ps, gone) + if p in gone then [] else [p]
    decreases |ps|
  {
    if ps == [] {
    } else {
      WithoutAppend(ps[1..], p, gone);
      assert (ps + [p])[1..] == ps[1..] + [p];
    }
  }

  /** Up to two preferred servers and the shares of traffic they are to get. */
  datatype Preference = Preference(target1: Server, ratio1: real, target2: Server, ratio2: real)

  predicate IsOther(b: Preference, p: Server) {
    p != b.target1 && p != b.target2
  }

  function Unpreferred(b: Preference, ps: seq<Server>): (os: seq<Server>)
    ensures forall p :: p in os <==> p in ps && IsOther(b, p)
    ensures Distinct(ps) ==> Distinct(os)
  {
    WithoutMember(ps, {b.target1, b.target2});
    if Distinct(ps) then
      WithoutDistinct(ps, {b.target1, b.target2});
      Without(ps, {b.target1, b.target2})
    else Without(ps, {b.target1, b.target2})
  }
}

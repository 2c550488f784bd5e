/** Registered models and their adapter slots; slot 0 is reserved. */
module Slots {

  datatype Metadata = Metadata(slot: nat, rank: int)

  datatype Created = Slot(slot: nat) | WrongRole | Full | BadRank

  function Used(models: map<string, Metadata>): set<nat> {
    set id | id in models :: models[id].slot
  }

  predicate Injective(models: map<string, Metadata>) {
    forall x, y | x in models && y in models && x != y :: models[x].slot != models[y].slot
  }

  predicate Reserved0(models: map<string, Metadata>, max: nat) {
    forall id | id in models :: 1 <= models[id].slot < max
  }

  function Upto(n: nat): (r: set<nat>)
    ensures forall k: nat :: k in r <==> 1 <= k < n
  {
    if n <= 1 then {} else Upto(n - 1) + {n - 1}
  }

  lemma {:induction false} UptoSize(n: nat)
    requires n >= 1
    ensures |Upto(n)| == n - 1
  {
    if n == 1 {
      assert Upto(n) == {};
    } else {
      UptoSize(n - 1);
      assert Upto(n) == Upto(n - 1) + {n - 1};
    }
  }

  lemma {:induction false} UsedSize(models: map<string, Metadata>)
    requires Injective(models)
    ensures |Used(models)| == |models|
    decreases |models|
  {
    if models == map[] {
      assert Used(models) == {};
    } else {
      var id :| id in models;
      var rest := models - {id};
      UsedSize(rest);
      forall s | s in Used(models) ensures s in Used(rest) + {models[id].slot} {
        var k :| k in models && models[k].slot == s;
        assert k == id || k in rest;
      }
      assert Used(rest) <= Used(models) && models[id].slot in Used(models) by {
        forall s | s in Used(rest) ensures s in Used(models) {
          var k :| k in rest && rest[k].slot == s;
          assert k in models;
        }
      }
      assert models[id].slot !in Used(rest);
      assert Used(models) == Used(rest) + {models[id].slot};
      assert models.Keys == rest.Keys + {id};
      assert |models| == |models.Keys| && |rest| == |rest.Keys|;
    }
  }

  lemma {:induction false} SubsetFills(xs: set<nat>, ys: set<nat>)
    requires xs <= ys && |xs| >= |ys|
    ensures xs == ys
  {
    if y :| y in ys && y !in xs {
      SubsetSize(xs, ys - {y});
      assert false;
    }
  }

  lemma {:induction false} SubsetSize(xs: set<nat>, ys: set<nat>)
    requires xs <= ys
    ensures |xs| <= |ys|
    decreases |xs|
  {
    if xs == {} {
    } else {
      var x :| x in xs;
      SubsetSize(xs - {x}, ys - {x});
    }
  }

  /** All slots but the reserved one are taken exactly when there are as many models as such slots. */
  lemma FullExactlyWhen(models: map<string, Metadata>, max: nat)
    requires max >= 1 && Injective(models) && Reserved0(models, max)
    ensures Upto(max) - Used(models) == {} <==> |models| == max - 1
    ensures |models| <= max - 1
  {
    UptoSize(max);
    UsedSize(models);
    SubsetSize(Used(models), Upto(max));
    if |models| == max - 1 {
      SubsetFills(Used(models), Upto(max));
    }
    if Upto(max) - Used(models) == {} {
      forall k | k in Upto(max) ensures k in Used(models) {
        assert k !in Upto(max) - Used(models);
      }
      assert Upto(max) == Used(models);
    }
  }

  predicate LeastFree(used: set<nat>, max: nat, k: nat) {
    1 <= k < max && k !in used && forall j: nat | 1 <= j < k :: j in used
  }

  lemma {:induction false} LeastFreeExists(used: set<nat>, max: nat, k: nat)
    requires 1 <= k < max && k !in used
    ensures exists j: nat :: LeastFree(used, max, j)
  {
    if j: nat :| 1 <= j < k && j !in used {
      LeastFreeExists(used, max, j);
    } else {
      assert LeastFree(used, max, k);
    }
  }

  method FreeSlot(models: map<string, Metadata>, max: nat) returns (r: Created)
    requires max >= 1 && Injective(models) && Reserved0(models, max)
    ensures r.Full? || r.Slot?
    ensures |models| <= max - 1
    ensures r.Full? <==> |models| == max - 1
    ensures r.Slot? ==> LeastFree(Used(models), max, r.slot)
  {
    var free := Upto(max) - Used(models);
    FullExactlyWhen(models, max);
    if free == {} {
      return Full;
    }
    ghost var some :| some in free;
    LeastFreeExists(Used(models), max, some);
    var slot: nat :| slot < max && LeastFree(Used(models), max, slot);
    r := Slot(slot);
  }

  lemma NewSlot(models: map<string, Metadata>, max: nat, id: string, meta: Metadata)
    requires Injective(models) && Reserved0(models, max) && LeastFree(Used(models), max, meta.slot)
    ensures Injective(models[id := meta]) && Reserved0(models[id := meta], max)
  {
  }

  // ---------------------------------------------------------------- creating and deleting a model

  /** The least unused slot from k on, or max. */
  function FirstFree(used: set<nat>, max: nat, k: nat): nat
    decreases max - k
  {
    if k >= max || k !in used then k else FirstFree(used, max, k + 1)
  }

  lemma {:induction false} FirstFreeIsLeast(used: set<nat>, max: nat, k: nat, j: nat)
    requires 1 <= k && (forall i: nat | 1 <= i < k :: i in used) && LeastFree(used, max, j)
    ensures FirstFree(used, max, k) == j
    decreases max - k
  {
    if k == j {
    } else {
      FirstFreeIsLeast(used, max, k + 1, j);
    }
  }

  /** What creating a model gives: role, room and rank are checked in this order. */
  function CreateResult(models: map<string, Metadata>, max: nat, maxRank: int, role: string, rank: int): Created {
    if role != "policy" then WrongRole
    else if |models| + 1 >= max then Full
    else if !(0 < rank <= maxRank) then BadRank
    else Slot(FirstFree(Used(models), max, 1))
  }

  function AfterCreate(models: map<string, Metadata>, id: string, rank: int, r: Created): map<string, Metadata> {
    if r.Slot? then models[id := Metadata(r.slot, rank)] else models
  }

  /** With room for another model, its slot is the least free one. */
  lemma CreatesLeastFree(models: map<string, Metadata>, max: nat)
    requires max >= 1 && Injective(models) && Reserved0(models, max) && |models| < max - 1
    ensures LeastFree(Used(models), max, FirstFree(Used(models), max, 1))
  {
    FullExactlyWhen(models, max);
    var free := Upto(max) - Used(models);
    var some :| some in free;
    LeastFreeExists(Used(models), max, some);
    var j: nat :| LeastFree(Used(models), max, j);
    FirstFreeIsLeast(Used(models), max, 1, j);
  }

  lemma SlotsKept(models: map<string, Metadata>, max: nat, maxRank: int, id: string, role: string, rank: int)
    requires max >= 1 && Injective(models) && Reserved0(models, max)
    ensures var after := AfterCreate(models, id, rank, CreateResult(models, max, maxRank, role, rank));
      Injective(after) && Reserved0(after, max)
    ensures Injective(models - {id}) && Reserved0(models - {id}, max)
  {
    var r := CreateResult(models, max, maxRank, role, rank);
    FullExactlyWhen(models, max);
    if r.Slot? {
      CreatesLeastFree(models, max);
      NewSlot(models, max, id, Metadata(r.slot, rank));
    }
  }

  /** One model less frees exactly its slot. */
  lemma UsedWithout(models: map<string, Metadata>, id: string)
    requires Injective(models) && id in models
    ensures Used(models - {id}) == Used(models) - {models[id].slot}
    ensures |models - {id}| == |models| - 1
  {
    var rest := models - {id};
    forall s ensures s in Used(rest) <==> s in Used(models) && s != models[id].slot {
      if s in Used(models) && s != models[id].slot {
        var k :| k in models && models[k].slot == s;
        assert k in rest;
      }
      if s in Used(rest) {
        var k :| k in rest && rest[k].slot == s;
        assert k in models;
      }
    }
    assert models.Keys == rest.Keys + {id};
    assert |models| == |models.Keys| && |rest| == |rest.Keys|;
  }

  /** Where two processes of which one has deleted a model put the next one: in different slots exactly when the
      deleted slot lies below the other's choice. */
  lemma SlotsDifferExactlyWhen(models: map<string, Metadata>, max: nat, id: string, without: nat, with: nat)
    requires Injective(models) && id in models && 1 <= models[id].slot
    requires LeastFree(Used(models - {id}), max, without) && LeastFree(Used(models), max, with)
    ensures without != with <==> models[id].slot < with
    ensures without != with ==> without == models[id].slot
  {
    UsedWithout(models, id);
    var gone, rest := models[id].slot, Used(models - {id});
    assert gone in Used(models);
    if gone < with {
      assert LeastFree(rest, max, gone);
      OneLeastFree(rest, max, without, gone);
    } else {
      assert LeastFree(rest, max, with);
      OneLeastFree(rest, max, without, with);
    }
  }

  lemma OneLeastFree(used: set<nat>, max: nat, i: nat, j: nat)
    requires LeastFree(used, max, i) && LeastFree(used, max, j)
    ensures i == j
  {
  }
}

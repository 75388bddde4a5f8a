/** The disk quota of stored worlds: the oldest inactive worlds go first. */
module Quota {
  import opened Model

  /** The age order of `prune`: unreadable files, then the oldest update, then the smaller id. */
  predicate Older(disk: map<Id, File>, a: Id, b: Id)
    requires a in disk && b in disk
  {
    var x, y := disk[a].world, disk[b].world;
    if x.None? then y.Some? || a < b
    else y.Some? && (x.value.updated < y.value.updated || (x.value.updated == y.value.updated && a < b))
  }

  ghost predicate Oldest(disk: map<Id, File>, active: set<Id>, a: Id) {
    a in disk && a !in active && forall b :: b in disk && b !in active && b != a ==> Older(disk, a, b)
  }

  lemma {:induction false} OldestAmong(disk: map<Id, File>, among: set<Id>) returns (a: Id)
    requires among != {} && among <= disk.Keys
    ensures a in among && forall b :: b in among && b != a ==> Older(disk, a, b)
  {
    var x :| x in among;
    var rest := among - {x};
    if rest == {} {
      a := x;
      assert forall b :: b in among && b != x ==> b in rest;
    } else {
      var y := OldestAmong(disk, rest);
      a := if Older(disk, x, y) then x else y;
      assert forall b :: b in among && b != x ==> b in rest;
    }
  }

  lemma OldestExists(disk: map<Id, File>, active: set<Id>)
    requires Candidates(disk, active) != {}
    ensures exists a :: Oldest(disk, active, a)
  {
    var a := OldestAmong(disk, Candidates(disk, active));
    assert Oldest(disk, active, a);
  }

  /** The bytes of all room files. */
  ghost function Total(disk: map<Id, File>): nat {
    if disk == map[] then 0
    else
      var id :| id in disk;
      disk[id].size + Total(disk - {id})
  }

  lemma {:induction false} TotalWithout(disk: map<Id, File>, id: Id)
    requires id in disk
    ensures Total(disk) == disk[id].size + Total(disk - {id})
  {
    var x :| x in disk && Total(disk) == disk[x].size + Total(disk - {x});
    if x != id {
      TotalWithout(disk - {x}, id);
      TotalWithout(disk - {id}, x);
      assert disk - {x} - {id} == disk - {id} - {x};
    }
  }

  ghost function Candidates(disk: map<Id, File>, active: set<Id>): set<Id> {
    disk.Keys - active
  }

  /** The worlds that `prune` removes, in order; `removals` bounds how many removals succeed. */
  ghost function Evicted(disk: map<Id, File>, active: set<Id>, quota: nat, removals: nat): (gone: seq<Id>)
    ensures forall id :: id in gone ==> id in disk && id !in active
    decreases disk.Keys
  {
    if removals == 0 || Total(disk) <= quota || Candidates(disk, active) == {} then []
    else
      OldestExists(disk, active);
      var a :| Oldest(disk, active, a);
      [a] + Evicted(disk - {a}, active, quota, removals - 1)
  }
}

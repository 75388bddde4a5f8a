/** `Store::prune` as the store runs it, and exactly what it removes. */
module Pruning {
  import opened Model
  import opened Quota

  /** `order` lists the ids `among`, each once, by age. */
  ghost predicate ByAge(disk: map<Id, File>, among: set<Id>, order: seq<Id>) {
    && among <= disk.Keys
    && (forall id :: id in order <==> id in among)
    && forall i, j :: 0 <= i < j < |order| ==> order[i] != order[j] && Older(disk, order[i], order[j])
  }

  function Elements(order: seq<Id>): set<Id> {
    set id | id in order
  }

  /** The disk without the first `k` files of `order`. */
  function Rest(disk: map<Id, File>, order: seq<Id>, k: nat): map<Id, File>
    requires k <= |order|
  {
    disk - Elements(order[..k])
  }

  /** Removing `n` files stops the pruning for good, and removing fewer does not. */
  ghost predicate Stops(disk: map<Id, File>, order: seq<Id>, quota: nat, removals: nat, n: nat) {
    && n <= |order| && n <= removals
    && (n == |order| || n == removals || Total(Rest(disk, order, n)) <= quota)
    && forall k :: 0 <= k < n ==> Total(Rest(disk, order, k)) > quota
  }

  lemma OlderIsOrder(disk: map<Id, File>, a: Id, b: Id, c: Id)
    requires a in disk && b in disk && c in disk
    ensures Older(disk, a, b) && Older(disk, b, c) ==> Older(disk, a, c)
    ensures a != b ==> Older(disk, a, b) != Older(disk, b, a)
  {
  }

  /** The head of the list is the file that pruning takes first. */
  lemma HeadIsOldest(disk: map<Id, File>, active: set<Id>, order: seq<Id>, a: Id)
    requires ByAge(disk, Candidates(disk, active), order) && Oldest(disk, active, a)
    ensures order != [] && order[0] == a
  {
    assert a in order;
    var i :| 0 <= i < |order| && order[i] == a;
    if i > 0 {
      assert order[0] in order;
      OlderIsOrder(disk, order[0], a, a);
    }
  }

  lemma TailByAge(disk: map<Id, File>, active: set<Id>, order: seq<Id>)
    requires ByAge(disk, Candidates(disk, active), order) && order != []
    ensures ByAge(disk - {order[0]}, Candidates(disk - {order[0]}, active), order[1..])
  {
    var rest := disk - {order[0]};
    assert order[0] in order;
    forall id | id in order[1..] ensures id in Candidates(rest, active) {
      var i :| 0 <= i < |order[1..]| && order[1..][i] == id;
      assert order[i + 1] == id && id in order;
    }
    forall id | id in Candidates(rest, active) ensures id in order[1..] {
      assert id in order && order == [order[0]] + order[1..];
    }
    forall i, j | 0 <= i < j < |order[1..]| ensures order[1..][i] != order[1..][j] && Older(rest, order[1..][i], order[1..][j]) {
      assert order[1..][i] in order[1..] && order[1..][j] in order[1..];
      assert Older(disk, order[i + 1], order[j + 1]);
    }
  }

  lemma RestShift(disk: map<Id, File>, order: seq<Id>, k: nat)
    requires 0 < k <= |order|
    ensures Rest(disk, order, k) == Rest(disk - {order[0]}, order[1..], k - 1)
  {
    assert order[..k] == [order[0]] + order[1..][..k - 1];
    assert Elements(order[..k]) == {order[0]} + Elements(order[1..][..k - 1]);
  }

  /** Pruning removes a prefix of the inactive files by age: the shortest that brings the total within the quota, or all. */
  lemma {:induction false} EvictedIsShortestPrefix(disk: map<Id, File>, active: set<Id>, quota: nat, removals: nat,
          order: seq<Id>)
    requires ByAge(disk, Candidates(disk, active), order)
    ensures var gone := Evicted(disk, active, quota, removals);
      |gone| <= |order| && gone == order[..|gone|] && Stops(disk, order, quota, removals, |gone|)
    decreases |order|
  {
    hide Evicted, Stops, ByAge, Oldest, Total, Candidates;
    RestOfNone(disk, order);
    if removals == 0 || Total(disk) <= quota || Candidates(disk, active) == {} {
      StopsAtOnce(disk, active, quota, removals, order);
    } else {
      var a := EvictedSplits(disk, active, quota, removals);
      HeadIsOldest(disk, active, order, a);
      TailByAge(disk, active, order);
      var more := Evicted(disk - {a}, active, quota, removals - 1);
      EvictedIsShortestPrefix(disk - {a}, active, quota, removals - 1, order[1..]);
      assert [a] + more == order[..1 + |more|];
      StopsAfterFirst(disk, order, quota, removals, |more|);
    }
  }

  /**
   * What pruning removes is inactive and older than any inactive file that it keeps: unreadable files go before readable
   * ones, then those whose world was updated earlier, then those with the smaller identifier.
   */
  lemma OldestGoFirst(disk: map<Id, File>, active: set<Id>, quota: nat, removals: nat, order: seq<Id>, x: Id, y: Id)
    requires ByAge(disk, Candidates(disk, active), order)
    requires x in Evicted(disk, active, quota, removals)
    requires y in disk && y !in active && y !in Evicted(disk, active, quota, removals)
    ensures x in disk && x !in active
    ensures var a, b := disk[x].world, disk[y].world;
      if a.None? || b.None? then a.None? && (b.None? ==> x < y)
      else a.value.updated < b.value.updated || (a.value.updated == b.value.updated && x < y)
  {
    hide Evicted, Stops, Older, Total;
    var gone := Evicted(disk, active, quota, removals);
    EvictedIsShortestPrefix(disk, active, quota, removals, order);
    assert y in order;
    var i :| 0 <= i < |gone| && gone[i] == x;
    var j :| 0 <= j < |order| && order[j] == y;
    PrefixGoes(order, gone);
    assert order[i] == x;
    OlderMeans(disk, x, y);
  }

  lemma PrefixGoes(order: seq<Id>, gone: seq<Id>)
    requires |gone| <= |order| && gone == order[..|gone|]
    ensures forall j :: 0 <= j < |gone| ==> order[j] in gone
  {
    forall j | 0 <= j < |gone| ensures order[j] in gone { assert gone[j] == order[j]; }
  }

  lemma OlderMeans(disk: map<Id, File>, x: Id, y: Id)
    requires x in disk && y in disk && Older(disk, x, y)
    ensures var a, b := disk[x].world, disk[y].world;
      if a.None? || b.None? then a.None? && (b.None? ==> x < y)
      else a.value.updated < b.value.updated || (a.value.updated == b.value.updated && x < y)
  {
  }

  lemma RestOfNone(disk: map<Id, File>, order: seq<Id>)
    ensures Rest(disk, order, 0) == disk
  {
  }

  lemma StopsAtOnce(disk: map<Id, File>, active: set<Id>, quota: nat, removals: nat, order: seq<Id>)
    requires ByAge(disk, Candidates(disk, active), order) && Rest(disk, order, 0) == disk
    requires removals == 0 || Total(disk) <= quota || Candidates(disk, active) == {}
    ensures Evicted(disk, active, quota, removals) == [] && Stops(disk, order, quota, removals, 0)
  {
    if order != [] { assert order[0] in Candidates(disk, active); }
  }

  lemma EvictedSplits(disk: map<Id, File>, active: set<Id>, quota: nat, removals: nat) returns (a: Id)
    requires removals > 0 && Total(disk) > quota && Candidates(disk, active) != {}
    ensures Oldest(disk, active, a)
    ensures Evicted(disk, active, quota, removals) == [a] + Evicted(disk - {a}, active, quota, removals - 1)
  {
    hide Oldest, Total, Candidates;
    OldestExists(disk, active);
    a :| Oldest(disk, active, a) && Evicted(disk, active, quota, removals) == [a] + Evicted(disk - {a}, active, quota, removals - 1);
  }

  lemma StopsAfterFirst(disk: map<Id, File>, order: seq<Id>, quota: nat, removals: nat, n: nat)
    requires removals > 0 && Total(disk) > quota && order != [] && Rest(disk, order, 0) == disk
    requires Stops(disk - {order[0]}, order[1..], quota, removals - 1, n)
    ensures Stops(disk, order, quota, removals, n + 1)
  {
    hide Rest, Total;
    forall k | 0 < k <= |order| ensures Rest(disk, order, k) == Rest(disk - {order[0]}, order[1..], k - 1) {
      RestShift(disk, order, k);
    }
  }

  /** There is only one such prefix. */
  lemma StopsOnce(disk: map<Id, File>, order: seq<Id>, quota: nat, removals: nat, m: nat, n: nat)
    requires Stops(disk, order, quota, removals, m) && Stops(disk, order, quota, removals, n)
    ensures m == n
  {
  }

  /** Inserts `id` into a list sorted by age. */
  method Place(disk: map<Id, File>, order: seq<Id>, id: Id) returns (placed: seq<Id>)
    requires id in disk && id !in order && ByAge(disk, Elements(order), order)
    ensures ByAge(disk, Elements(order) + {id}, placed)
  {
    var i := 0;
    while i < |order| && Older(disk, order[i], id)
      invariant i <= |order| && forall k :: 0 <= k < i ==> Older(disk, order[k], id)
    {
      assert order[i] in Elements(order);
      i := i + 1;
    }
    placed := order[..i] + [id] + order[i..];
    forall k | 0 <= k < |order| ensures order[k] in disk && order[k] != id { assert order[k] in Elements(order); }
    forall k | i <= k < |order| ensures Older(disk, id, order[k]) {
      OlderIsOrder(disk, id, order[i], order[k]);
      OlderIsOrder(disk, order[i], id, id);
    }
    forall x ensures x in placed <==> x in Elements(order) + {id} {
      assert x in order <==> x in order[..i] || x in order[i..] by { assert order == order[..i] + order[i..]; }
    }
    forall k, l | 0 <= k < l < |placed| ensures placed[k] != placed[l] && Older(disk, placed[k], placed[l]) {
      var a, b := if k < i then k else k - 1, if l < i then l else l - 1;
      if k != i && l != i { assert order[a] == placed[k] && order[b] == placed[l]; }
    }
  }

  /** The inactive files by age, and the size of all files. */
  method Survey(disk: map<Id, File>, active: set<Id>) returns (order: seq<Id>, total: nat)
    ensures ByAge(disk, Candidates(disk, active), order)
    ensures total == Total(disk)
  {
    order, total := [], 0;
    var left := disk.Keys;
    assert disk - left == map[];
    while left != {}
      invariant left <= disk.Keys
      invariant ByAge(disk, disk.Keys - left - active, order)
      invariant total == Total(disk - left)
      decreases left
    {
      var id :| id in left;
      var seen := disk - left;
      left := left - {id};
      TotalWithout(disk - left, id);
      assert disk - left - {id} == seen;
      total := total + disk[id].size;
      if id !in active {
        assert Elements(order) == disk.Keys - left - {id} - active;
        order := Place(disk, order, id);
        assert disk.Keys - left - active == disk.Keys - left - {id} - active + {id};
      } else {
        assert disk.Keys - left - active == disk.Keys - left - {id} - active;
      }
    }
    assert disk - left == disk;
    assert disk.Keys - left - active == Candidates(disk, active);
  }
}

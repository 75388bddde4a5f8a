/** The store as an object: room files, accounts and notification jobs, changed in place. */
module Storage {
  import opened Model
  import Rules
  import Sessions
  import Quota
  import Pruning

  class Store {
    const enabled: bool
    const max: nat
    var disk: map<Id, File>
    var accounts: map<Id, Json>
    var jobs: map<Id, seq<Job>>
    ghost var evicted: set<Id>

    constructor (enabled: bool, max: nat, disk: map<Id, File>, accounts: map<Id, Json>, jobs: map<Id, seq<Job>>)
      ensures this.enabled == enabled && this.max == max
      ensures this.disk == disk && this.accounts == accounts && this.jobs == jobs && evicted == {}
    {
      this.enabled, this.max := enabled, max;
      this.disk, this.accounts, this.jobs, evicted := disk, accounts, jobs, {};
    }

    /** `save`; `header` is the header's length, or nothing when writing fails. */
    method Save(id: Id, r: Room, header: Option<nat>) returns (ok: bool)
      modifies this`disk
      ensures ok == header.Some?
      ensures disk == if ok then old(disk)[id := Rules.Saved(r, header.value)] else old(disk)
    {
      if header.Some? {
        disk := disk[id := File(Some(ToWorld(r)), 4 + header.value + |r.state|)];
      }
      ok := header.Some?;
    }

    /** `set_jobs`: the file first, the table after it. */
    method SetJobs(id: Id, list: seq<Job>, written: bool) returns (ok: bool)
      modifies this`jobs
      ensures ok == written
      ensures jobs == if written then Rules.WithJobs(old(jobs), id, list) else old(jobs)
    {
      if written {
        if list == [] { jobs := jobs - {id}; } else { jobs := jobs[id := list]; }
      }
      ok := written;
    }

    /** `prune`; `removals` is the number of removals that succeed before one fails. */
    method Prune(active: set<Id>, removals: nat) returns (removed: seq<Id>)
      modifies this`disk, this`jobs, this`evicted
      ensures removed == if enabled then Quota.Evicted(old(disk), active, max, removals) else []
      ensures disk == old(disk) - Pruning.Elements(removed) && jobs == old(jobs) - Pruning.Elements(removed)
      ensures evicted == old(evicted) + Pruning.Elements(removed)
    {
      hide Quota.Total, Quota.Evicted, Pruning.ByAge, Pruning.Elements;
      removed := [];
      NoElements();
      if !enabled { return; }
      ghost var before := disk;
      var order, total := Pruning.Survey(disk, active);
      Pruning.RestOfNone(before, order);
      while |removed| < |order| && total > max && |removed| < removals
        invariant |removed| <= |order| && |removed| <= removals && removed == order[..|removed|]
        invariant disk == Pruning.Rest(before, order, |removed|)
        invariant jobs == old(jobs) - Pruning.Elements(removed) && evicted == old(evicted) + Pruning.Elements(removed)
        invariant total == Quota.Total(disk)
        invariant forall k :: 0 <= k < |removed| ==> Quota.Total(Pruning.Rest(before, order, k)) > max
        decreases |order| - |removed|
      {
        var id := order[|removed|];
        StillThere(before, active, order, |removed|);
        OneMore(before, order, |removed|);
        Quota.TotalWithout(disk, id);
        total := total - disk[id].size;
        disk := disk - {id};
        jobs := jobs - {id};
        evicted := evicted + {id};
        removed := removed + [id];
      }
      Pruning.EvictedIsShortestPrefix(before, active, max, removals, order);
      assert Pruning.Stops(before, order, max, removals, |removed|);
      Pruning.StopsOnce(before, order, max, removals, |removed|, |Quota.Evicted(before, active, max, removals)|);
    }

    static lemma NoElements()
      ensures Pruning.Elements([]) == {}
    {
    }

    static lemma OneMore(disk: map<Id, File>, order: seq<Id>, n: nat)
      requires n < |order|
      ensures order[..n + 1] == order[..n] + [order[n]]
      ensures Pruning.Elements(order[..n + 1]) == Pruning.Elements(order[..n]) + {order[n]}
      ensures Pruning.Rest(disk, order, n + 1) == Pruning.Rest(disk, order, n) - {order[n]}
    {
      assert order[..n + 1] == order[..n] + [order[n]];
    }

    static lemma StillThere(disk: map<Id, File>, active: set<Id>, order: seq<Id>, n: nat)
      requires Pruning.ByAge(disk, Quota.Candidates(disk, active), order) && n < |order|
      ensures order[n] in Pruning.Rest(disk, order, n) && Pruning.Rest(disk, order, n)[order[n]] == disk[order[n]]
    {
      assert order[n] in order;
    }

    /** The jobs that survive a commit whatever it brings. */
    static method Filter(previous: seq<Job>) returns (kept: seq<Job>)
      ensures kept == Sessions.Unfinished(previous)
    {
      kept := [];
      for i := 0 to |previous|
        invariant kept == Sessions.Unfinished(previous[..i])
      {
        assert previous[..i + 1][..i] == previous[..i];
        if !previous[i].scheduled && previous[i].retryAt != Sessions.FINISHED { kept := kept + [previous[i]]; }
      }
      assert previous[..|previous|] == previous;
    }

    static method Find(previous: seq<Job>, n: Notice, scheduled: bool) returns (job: Job)
      ensures job == Sessions.Renewed(previous, n, scheduled)
    {
      var i := 0;
      while i < |previous|
        invariant i <= |previous|
        invariant Sessions.Renewed(previous, n, scheduled) == Sessions.Renewed(previous[i..], n, scheduled)
      {
        if previous[i].notice.eventId == n.eventId && previous[i].notice.at == n.at { return previous[i]; }
        assert previous[i..][1..] == previous[i + 1..];
        i := i + 1;
      }
      job := Job(n, [], 0, scheduled);
    }

    /** `commit`: the new job list of a room replaces the old one, or nothing changes. */
    method Commit(id: Id, events: seq<nat>, scheduled: Option<Notice>, immediate: Option<Notice>,
            written: bool) returns (ok: bool)
      modifies this`jobs
      ensures ok == written
      ensures jobs == if written
                      then Rules.WithJobs(old(jobs), id, Sessions.Merge(Rules.Jobs(old(jobs), id), events, scheduled, immediate))
                      else old(jobs)
    {
      var previous := if id in jobs then jobs[id] else [];
      var list := Filter(previous);
      var k := 0;
      while k < 2
        invariant k <= 2 && jobs == old(jobs)
        invariant list ==
          if k == 0 then Sessions.Unfinished(previous)
          else if k == 1 then Sessions.AddNotice(Sessions.Unfinished(previous), previous, events, scheduled, true)
          else Sessions.Merge(previous, events, scheduled, immediate)
      {
        var n := if k == 0 then scheduled else immediate;
        if n.Some? && n.value.eventId !in events && !(exists j | j in list :: j.notice.eventId == n.value.eventId) {
          var j := Find(previous, n.value, k == 0);
          list := list + [j];
        }
        k := k + 1;
      }
      ok := SetJobs(id, list, written);
    }
  }
}

/** The delivery pass of push notifications, between whose queries other commands commit. */
module Delivery {
  import opened Model
  import opened Sessions
  import opened Jobs
  import opened Storage
  import Rules

  const RETRY: nat := 30000

  datatype Device = Device(id: Id, foreground: bool)

  /** What one query shows of a target: whether it is online, its room and its devices; nothing when it is unknown. */
  datatype Target = Target(online: bool, room: Option<Id>, devices: seq<Device>)

  datatype Outcome = Sent | Invalid | Failed

  /** What other commands do to the jobs between two queries of the pass. */
  datatype Change =
    | Committed(room: Id, events: seq<nat>, scheduled: Option<Notice>, immediate: Option<Notice>, written: bool)
    | Pruned(room: Id)

  /**
   * The world that a pass meets: the changes before each of its queries; what the query for a target shows, which may
   * differ from job to job; and how each send ends. Targets are given by room, event and position in the job's list.
   */
  datatype World = World(
    changes: nat -> seq<Change>, observe: (Id, nat, nat) -> Option<Target>, send: (Id, nat, nat, Id) -> Outcome)

  /** The rooms `safe` are not pruned while the pass runs. */
  ghost predicate Spares(w: World, safe: set<Id>) {
    forall n: nat, c :: c in w.changes(n) && c.Pruned? ==> c.room !in safe
  }

  // ---- facts about job tables

  ghost predicate AllDistinct(jobs: map<Id, seq<Job>>) {
    forall id :: id in jobs ==> OnePerEvent(jobs[id])
  }

  ghost predicate Holds(jobs: map<Id, seq<Job>>, room: Id, j: Job) {
    room in jobs && j in jobs[room]
  }

  /** Queued jobs of safe rooms stay as they are, but for the one for `n` in `room`. */
  ghost predicate Keeps(before: map<Id, seq<Job>>, after: map<Id, seq<Job>>, safe: set<Id>, room: Id, n: Notice) {
    forall id, j :: id in safe && Holds(before, id, j) && Queued(j) && !(id == room && Same(j, n)) ==> Holds(after, id, j)
  }

  ghost predicate KeepsAll(before: map<Id, seq<Job>>, after: map<Id, seq<Job>>, safe: set<Id>) {
    forall id, j :: id in safe && Holds(before, id, j) && Queued(j) ==> Holds(after, id, j)
  }

  function Applied(jobs: map<Id, seq<Job>>, c: Change): map<Id, seq<Job>> {
    match c
    case Committed(room, events, scheduled, immediate, written) =>
      if written then Rules.WithJobs(jobs, room, Merge(Rules.Jobs(jobs, room), events, scheduled, immediate)) else jobs
    case Pruned(room) => jobs - {room}
  }

  lemma AppliedKeeps(jobs: map<Id, seq<Job>>, c: Change, safe: set<Id>)
    requires AllDistinct(jobs) && (c.Pruned? ==> c.room !in safe)
    ensures AllDistinct(Applied(jobs, c)) && KeepsAll(jobs, Applied(jobs, c), safe)
  {
    hide Merge;
    if c.Committed? && c.written {
      var previous := Rules.Jobs(jobs, c.room);
      MergeKeepsEventsDistinct(previous, c.events, c.scheduled, c.immediate);
      forall j | j in previous && Queued(j) ensures j in Merge(previous, c.events, c.scheduled, c.immediate) {
        MergeKeepsQueued(previous, c.events, c.scheduled, c.immediate, j);
      }
    }
  }

  function Position(jobs: seq<Job>, n: Notice): (k: nat)
    ensures k <= |jobs|
    ensures k < |jobs| ==> Same(jobs[k], n)
    ensures forall i :: 0 <= i < k ==> !Same(jobs[i], n)
  {
    if jobs == [] || Same(jobs[0], n) then 0 else 1 + Position(jobs[1..], n)
  }

  lemma PositionOf(jobs: seq<Job>, j: Job)
    requires OnePerEvent(jobs) && j in jobs
    ensures Position(jobs, j.notice) < |jobs| && jobs[Position(jobs, j.notice)] == j
  {
  }

  // ---- one job

  /** What the query for the `i`-th target of the job shows. */
  function Seen(w: World, room: Id, j: Job, i: nat): Option<Target> {
    w.observe(room, j.notice.eventId, i)
  }

  /** A foreground device needs no push; any other is handled when its send did not fail. */
  predicate Handled(w: World, room: Id, j: Job, i: nat, d: Device)
    requires Seen(w, room, j, i).Some?
  {
    Quiet(w, room, j, i, d) || w.send(room, j.notice.eventId, i, d.id) != Failed
  }

  predicate Quiet(w: World, room: Id, j: Job, i: nat, d: Device)
    requires Seen(w, room, j, i).Some?
  {
    var seen := Seen(w, room, j, i).value;
    seen.online && d.foreground && seen.room == Some(room)
  }

  /** Does the pass owe the device a push or a receipt that it fails to give? */
  predicate Missed(w: World, room: Id, j: Job, i: nat, d: Device)
    requires i < |j.notice.to| && Seen(w, room, j, i).Some?
  {
    (j.notice.to[i], d.id) !in j.done && !Handled(w, room, j, i, d)
  }

  /** Every device that the pass finds for the first `n` targets has an earlier receipt or is handled now. */
  ghost predicate AllHandled(w: World, room: Id, j: Job, n: nat)
    requires n <= |j.notice.to|
  {
    forall i, d :: 0 <= i < n && Seen(w, room, j, i).Some? && d in Seen(w, room, j, i).value.devices ==> !Missed(w, room, j, i, d)
  }

  /** The receipts that the pass adds for the devices of the `i`-th target. */
  function Receipts(w: World, room: Id, j: Job, i: nat, devices: seq<Device>): seq<(Id, Id)>
    requires i < |j.notice.to| && Seen(w, room, j, i).Some?
  {
    if devices == [] then []
    else
      var n := |devices| - 1;
      var key := (j.notice.to[i], devices[n].id);
      Receipts(w, room, j, i, devices[..n]) + if key !in j.done && Handled(w, room, j, i, devices[n]) then [key] else []
  }

  /** The pushes that the pass sends to the devices of the `i`-th target. */
  function Pushes(w: World, room: Id, j: Job, i: nat, devices: seq<Device>): seq<(Id, Id)>
    requires i < |j.notice.to| && Seen(w, room, j, i).Some?
  {
    if devices == [] then []
    else
      var n := |devices| - 1;
      var key := (j.notice.to[i], devices[n].id);
      Pushes(w, room, j, i, devices[..n]) + if key !in j.done && !Quiet(w, room, j, i, devices[n]) then [key] else []
  }

  function AllReceipts(w: World, room: Id, j: Job, n: nat): seq<(Id, Id)>
    requires n <= |j.notice.to|
  {
    if n == 0 then []
    else
      AllReceipts(w, room, j, n - 1)
      + if Seen(w, room, j, n - 1).Some? then Receipts(w, room, j, n - 1, Seen(w, room, j, n - 1).value.devices) else []
  }

  function AllPushes(w: World, room: Id, j: Job, n: nat): seq<(Id, Id)>
    requires n <= |j.notice.to|
  {
    if n == 0 then []
    else
      AllPushes(w, room, j, n - 1)
      + if Seen(w, room, j, n - 1).Some? then Pushes(w, room, j, n - 1, Seen(w, room, j, n - 1).value.devices) else []
  }

  /** How the pass leaves an unscheduled job: gone when all devices were handled, else with new receipts and a later retry. */
  ghost predicate Settled(w: World, room: Id, j: Job, jobs: map<Id, seq<Job>>, now: nat) {
    if AllHandled(w, room, j, |j.notice.to|) then room in jobs ==> forall x :: x in jobs[room] ==> !Same(x, j.notice)
    else Holds(jobs, room, Retried(w, room, j, now))
  }

  lemma {:induction false} ReceiptsAre(w: World, room: Id, j: Job, i: nat, devices: seq<Device>, key: (Id, Id))
    requires i < |j.notice.to| && Seen(w, room, j, i).Some?
    ensures key in Receipts(w, room, j, i, devices) <==>
      key.0 == j.notice.to[i] && key !in j.done && exists d :: d in devices && d.id == key.1 && Handled(w, room, j, i, d)
  {
    if devices != [] {
      ReceiptsAre(w, room, j, i, devices[..|devices| - 1], key);
      assert devices == devices[..|devices| - 1] + [devices[|devices| - 1]];
    }
  }

  lemma {:induction false} PushesAre(w: World, room: Id, j: Job, i: nat, devices: seq<Device>, key: (Id, Id))
    requires i < |j.notice.to| && Seen(w, room, j, i).Some?
    ensures key in Pushes(w, room, j, i, devices) <==>
      key.0 == j.notice.to[i] && key !in j.done && exists d :: d in devices && d.id == key.1 && !Quiet(w, room, j, i, d)
  {
    if devices != [] {
      PushesAre(w, room, j, i, devices[..|devices| - 1], key);
      assert devices == devices[..|devices| - 1] + [devices[|devices| - 1]];
    }
  }

  /** Devices with a receipt are never pushed to: the next pass sends only to those without one. */
  lemma {:induction false} PushesSkipReceipts(w: World, room: Id, j: Job, n: nat, key: (Id, Id))
    requires n <= |j.notice.to| && key in AllPushes(w, room, j, n)
    ensures key !in j.done && key.0 in j.notice.to[..n]
  {
    var m := n - 1;
    assert j.notice.to[..n] == j.notice.to[..m] + [j.notice.to[m]];
    if Seen(w, room, j, m).Some? { PushesAre(w, room, j, m, Seen(w, room, j, m).value.devices, key); }
    if key in AllPushes(w, room, j, m) { PushesSkipReceipts(w, room, j, m, key); }
  }

  /** No key occurs twice. */
  predicate Once(keys: seq<(Id, Id)>) {
    forall i, k :: 0 <= i < k < |keys| ==> keys[i] != keys[k]
  }

  ghost predicate DistinctDevices(devices: seq<Device>) {
    forall i, k :: 0 <= i < k < |devices| ==> devices[i].id != devices[k].id
  }

  lemma {:induction false} PushesOnce(w: World, room: Id, j: Job, i: nat, devices: seq<Device>)
    requires i < |j.notice.to| && Seen(w, room, j, i).Some? && DistinctDevices(devices)
    ensures Once(Pushes(w, room, j, i, devices))
  {
    if devices != [] {
      var front, d := devices[..|devices| - 1], devices[|devices| - 1];
      PushesOnce(w, room, j, i, front);
      PushesAre(w, room, j, i, front, (j.notice.to[i], d.id));
    }
  }

  /** For one job a pass pushes to no device twice, the job's targets being distinct. */
  lemma {:induction false} EachDeviceOnce(w: World, room: Id, j: Job, n: nat)
    requires n <= |j.notice.to| && forall i, k :: 0 <= i < k < n ==> j.notice.to[i] != j.notice.to[k]
    requires forall i :: 0 <= i < n && Seen(w, room, j, i).Some? ==> DistinctDevices(Seen(w, room, j, i).value.devices)
    ensures Once(AllPushes(w, room, j, n))
  {
    if n > 0 {
      var m := n - 1;
      EachDeviceOnce(w, room, j, m);
      var before := AllPushes(w, room, j, m);
      forall i | 0 <= i < |before| ensures before[i].0 != j.notice.to[m] { PushesSkipReceipts(w, room, j, m, before[i]); }
      if Seen(w, room, j, m).Some? {
        var devices := Seen(w, room, j, m).value.devices;
        PushesOnce(w, room, j, m, devices);
        forall key | key in Pushes(w, room, j, m, devices) ensures key.0 == j.notice.to[m] { PushesAre(w, room, j, m, devices, key); }
      }
    }
  }

  predicate Due(j: Job, t: nat) {
    j.notice.at <= t && j.retryAt <= t
  }

  /** The job as a pass leaves it that could not handle all its devices. */
  function Retried(w: World, room: Id, j: Job, now: nat): Job {
    j.(done := j.done + AllReceipts(w, room, j, |j.notice.to|), retryAt := now + RETRY)
  }

  /** `due` lists the jobs that are due at `t`, each once. */
  ghost predicate Lists(due: seq<(Id, Job)>, jobs: map<Id, seq<Job>>, rooms: set<Id>, t: nat) {
    && (forall x :: x in due <==> x.0 in rooms && Holds(jobs, x.0, x.1) && Due(x.1, t))
    && (forall i, k :: 0 <= i < k < |due| ==> !(due[i].0 == due[k].0 && due[i].1.notice.eventId == due[k].1.notice.eventId))
  }

  /** The store's jobs under a delivery pass. */
  class Pass {
    const store: Store
    const w: World
    var query: nat

    constructor (store: Store, w: World)
      ensures this.store == store && this.w == w && query == 0
    {
      this.store, this.w, query := store, w, 0;
    }

    /** What other commands did before the next query. */
    method Interleave(ghost safe: set<Id>)
      requires AllDistinct(store.jobs) && Spares(w, safe)
      modifies this`query, store`jobs
      ensures AllDistinct(store.jobs) && KeepsAll(old(store.jobs), store.jobs, safe)
    {
      var changes := w.changes(query);
      for i := 0 to |changes|
        invariant query == old(query)
        invariant AllDistinct(store.jobs) && KeepsAll(old(store.jobs), store.jobs, safe)
      {
        ghost var before := store.jobs;
        var c := changes[i];
        assert c in w.changes(query);
        AppliedKeeps(store.jobs, c, safe);
        match c {
          case Committed(room, events, scheduled, immediate, written) =>
            var ok := store.Commit(room, events, scheduled, immediate, written);
          case Pruned(room) => store.jobs := store.jobs - {room};
        }
        assert store.jobs == Applied(before, c);
      }
      query := query + 1;
    }

    /** Is the job still there? */
    predicate Current(room: Id, n: Notice)
      reads store
    {
      room in store.jobs && exists j | j in store.jobs[room] :: Same(j, n)
    }

    /** Adds a receipt to the job, if it is still there. */
    method Record(room: Id, n: Notice, key: (Id, Id), ghost safe: set<Id>)
      requires AllDistinct(store.jobs)
      modifies store`jobs
      ensures AllDistinct(store.jobs) && Keeps(old(store.jobs), store.jobs, safe, room, n)
      ensures forall j :: Holds(old(store.jobs), room, j) && Same(j, n) ==> Holds(store.jobs, room, j.(done := j.done + [key]))
    {
      if room !in store.jobs { return; }
      var list := store.jobs[room];
      var k := Position(list, n);
      if k == |list| { return; }
      var after := list[k := list[k].(done := list[k].done + [key])];
      store.jobs := store.jobs[room := after];
      forall j | j in list && Same(j, n) ensures j.(done := j.done + [key]) in after {
        PositionOf(list, j);
        assert after[k] == j.(done := j.done + [key]);
      }
      Replaced(list, after, k);
    }

    static lemma Replaced(list: seq<Job>, after: seq<Job>, k: nat)
      requires OnePerEvent(list) && k < |list| == |after| && forall i :: 0 <= i < |list| && i != k ==> after[i] == list[i]
      requires after[k].notice == list[k].notice
      ensures OnePerEvent(after) && forall j :: j in list && !Same(j, list[k].notice) ==> j in after
    {
    }

    /** The last query for the job: an unscheduled one whose devices were all handled goes, any other waits. */
    method Finish(room: Id, n: Notice, scheduled: bool, failed: bool, now: nat, ghost safe: set<Id>)
      requires AllDistinct(store.jobs)
      modifies store`jobs
      ensures AllDistinct(store.jobs) && Keeps(old(store.jobs), store.jobs, safe, room, n)
      ensures forall j :: Holds(old(store.jobs), room, j) && Same(j, n) ==>
        if !failed && !scheduled then room in store.jobs ==> forall x :: x in store.jobs[room] ==> !Same(x, n)
        else Holds(store.jobs, room, j.(retryAt := if failed then now + RETRY else FINISHED))
    {
      if room !in store.jobs { return; }
      var list := store.jobs[room];
      var k := Position(list, n);
      if k == |list| { return; }
      ghost var found := list[k];
      assert forall j :: j in list && Same(j, n) ==> j == found;
      if !failed && !scheduled {
        var after := list[..k] + list[k + 1..];
        Removed(list, after, k);
        var ok := store.SetJobs(room, after, true);
        assert after == [] ==> room !in store.jobs;
      } else {
        var after := list[k := list[k].(retryAt := if failed then now + RETRY else FINISHED)];
        Replaced(list, after, k);
        assert after[k] in after;
        var ok := store.SetJobs(room, after, true);
      }
    }

    static lemma Removed(list: seq<Job>, after: seq<Job>, k: nat)
      requires OnePerEvent(list) && k < |list| && after == list[..k] + list[k + 1..]
      ensures OnePerEvent(after)
      ensures forall j :: j in list && !Same(j, list[k].notice) ==> j in after
      ensures forall j :: j in after ==> j in list && !Same(j, list[k].notice)
    {
      assert list == list[..k] + [list[k]] + list[k + 1..];
    }

    /** The live form of the unscheduled job `j` once `receipts` were added. */
    ghost predicate Live(room: Id, j: Job, receipts: seq<(Id, Id)>)
      reads store
    {
      !j.scheduled ==> Queued(j) && Holds(store.jobs, room, j.(done := j.done + receipts))
    }

    static lemma KeptOn(a: map<Id, seq<Job>>, b: map<Id, seq<Job>>, c: map<Id, seq<Job>>, safe: set<Id>, room: Id,
            n: Notice)
      requires Keeps(a, b, safe, room, n) && (KeepsAll(b, c, safe) || Keeps(b, c, safe, room, n))
      ensures Keeps(a, c, safe, room, n)
    {
    }

    static lemma NothingChanged(jobs: map<Id, seq<Job>>, safe: set<Id>, room: Id, n: Notice)
      ensures Keeps(jobs, jobs, safe, room, n)
    {
    }

    /** One device: checked, pushed to if need be, and given its receipt. */
    method DeliverDevice(room: Id, j: Job, i: nat, d: Device, ghost safe: set<Id>, ghost before: seq<(Id, Id)>)
      returns (stop: bool, failed: bool, pushed: bool, ghost receipts: seq<(Id, Id)>)
      requires AllDistinct(store.jobs) && Spares(w, safe) && room in safe && Live(room, j, before)
      requires i < |j.notice.to| && Seen(w, room, j, i).Some? && (j.notice.to[i], d.id) !in j.done
      modifies this`query, store`jobs
      ensures AllDistinct(store.jobs) && Keeps(old(store.jobs), store.jobs, safe, room, j.notice)
      ensures Live(room, j, before + receipts)
      ensures !j.scheduled ==> !stop && failed == Missed(w, room, j, i, d) && pushed == !Quiet(w, room, j, i, d)
      ensures !j.scheduled ==> receipts == if Handled(w, room, j, i, d) then [(j.notice.to[i], d.id)] else []
    {
      stop, failed, pushed, receipts := false, false, false, [];
      assert before + [] == before;
      Interleave(safe);
      if !Current(room, j.notice) { return true, false, false, []; }
      var result := Sent;
      var seen := w.observe(room, j.notice.eventId, i).value;
      if !(seen.online && d.foreground && seen.room == Some(room)) {
        result := w.send(room, j.notice.eventId, i, d.id);
        pushed := true;
      }
      if result == Failed { return false, true, pushed, []; }
      Interleave(safe);
      ghost var mid := store.jobs;
      var key := (j.notice.to[i], d.id);
      Record(room, j.notice, key, safe);
      KeptOn(old(store.jobs), mid, store.jobs, safe, room, j.notice);
      receipts := [key];
      assert j.done + (before + receipts) == (j.done + before) + receipts;
    }

    /** The devices of the `i`-th target, in order. */
    method DeliverTarget(room: Id, j: Job, i: nat, ghost safe: set<Id>, ghost before: seq<(Id, Id)>)
      returns (failed: bool, pushes: seq<(Id, Id)>, ghost receipts: seq<(Id, Id)>)
      requires AllDistinct(store.jobs) && Spares(w, safe) && room in safe && Live(room, j, before)
      requires i < |j.notice.to| && Seen(w, room, j, i).Some?
      modifies this`query, store`jobs
      ensures AllDistinct(store.jobs) && Keeps(old(store.jobs), store.jobs, safe, room, j.notice)
      ensures Live(room, j, before + receipts)
      ensures !j.scheduled ==>
        var devices := Seen(w, room, j, i).value.devices;
        && (failed <==> exists d :: d in devices && Missed(w, room, j, i, d))
        && pushes == Pushes(w, room, j, i, devices) && receipts == Receipts(w, room, j, i, devices)
    {
      hide Missed, Handled, Quiet, AllDistinct, Spares, Keeps, KeepsAll, Live;
      NothingChanged(store.jobs, safe, room, j.notice);
      var devices := w.observe(room, j.notice.eventId, i).value.devices;
      failed, pushes, receipts := false, [], [];
      assert before + [] == before;
      for n := 0 to |devices|
        invariant AllDistinct(store.jobs) && Keeps(old(store.jobs), store.jobs, safe, room, j.notice)
        invariant Live(room, j, before + receipts)
        invariant !j.scheduled ==>
          && (failed <==> exists k :: 0 <= k < n && Missed(w, room, j, i, devices[k]))
          && pushes == Pushes(w, room, j, i, devices[..n]) && receipts == Receipts(w, room, j, i, devices[..n])
      {
        assert devices[..n + 1][..n] == devices[..n];
        var d := devices[n];
        if (j.notice.to[i], d.id) in j.done {
          ReceiptNotMissed(w, room, j, i, d);
          continue;
        }
        ghost var was := store.jobs;
        var stop, bad, pushed;
        ghost var more;
        stop, bad, pushed, more := DeliverDevice(room, j, i, d, safe, before + receipts);
        KeptOn(old(store.jobs), was, store.jobs, safe, room, j.notice);
        assert before + (receipts + more) == before + receipts + more;
        receipts := receipts + more;
        if stop { break; }
        if bad { failed := true; }
        if pushed { pushes := pushes + [(j.notice.to[i], d.id)]; }
      }
      assert devices[..|devices|] == devices;
    }

    static lemma ReceiptNotMissed(w: World, room: Id, j: Job, i: nat, d: Device)
      requires i < |j.notice.to| && Seen(w, room, j, i).Some? && (j.notice.to[i], d.id) in j.done
      ensures !Missed(w, room, j, i, d)
    {
    }

    /** One target more. */
    static lemma NextTarget(w: World, room: Id, j: Job, i: nat)
      requires i < |j.notice.to|
      ensures AllHandled(w, room, j, i + 1) <==>
        && AllHandled(w, room, j, i)
        && (Seen(w, room, j, i).Some? ==> !(exists d :: d in Seen(w, room, j, i).value.devices && Missed(w, room, j, i, d)))
    {
      hide Missed;
    }

    /**
     * One due job. An unscheduled one is removed exactly when every device seen for its targets has an earlier receipt
     * or is handled now; otherwise it keeps its receipts, old and new, and is retried half a minute later. The other
     * queued jobs stay as they are.
     */
    method DeliverJob(room: Id, j: Job, now: nat, ghost safe: set<Id>) returns (pushes: seq<(Id, Id)>)
      requires AllDistinct(store.jobs) && Spares(w, safe) && room in safe && Live(room, j, [])
      modifies this`query, store`jobs
      ensures AllDistinct(store.jobs) && Keeps(old(store.jobs), store.jobs, safe, room, j.notice)
      ensures !j.scheduled ==> Settled(w, room, j, store.jobs, now) && pushes == AllPushes(w, room, j, |j.notice.to|)
    {
      hide Missed, AllDistinct, Spares, Keeps, Receipts, Pushes;
      NothingChanged(store.jobs, safe, room, j.notice);
      var failed := false;
      pushes := [];
      ghost var receipts: seq<(Id, Id)> := [];
      assert AllHandled(w, room, j, 0);
      hide AllHandled;
      for i := 0 to |j.notice.to|
        invariant AllDistinct(store.jobs) && Keeps(old(store.jobs), store.jobs, safe, room, j.notice)
        invariant Live(room, j, receipts)
        invariant !j.scheduled ==>
          && (failed <==> !AllHandled(w, room, j, i))
          && pushes == AllPushes(w, room, j, i) && receipts == AllReceipts(w, room, j, i)
      {
        NextTarget(w, room, j, i);
        ghost var was := store.jobs;
        Interleave(safe);
        KeptOn(old(store.jobs), was, store.jobs, safe, room, j.notice);
        if w.observe(room, j.notice.eventId, i).None? { continue; }
        ghost var mid := store.jobs;
        var bad, more;
        ghost var added;
        bad, more, added := DeliverTarget(room, j, i, safe, receipts);
        KeptOn(old(store.jobs), mid, store.jobs, safe, room, j.notice);
        failed := failed || bad;
        pushes := pushes + more;
        receipts := receipts + added;
      }
      ghost var was := store.jobs;
      Interleave(safe);
      KeptOn(old(store.jobs), was, store.jobs, safe, room, j.notice);
      ghost var mid := store.jobs;
      Finish(room, j.notice, j.scheduled, failed, now, safe);
      KeptOn(old(store.jobs), mid, store.jobs, safe, room, j.notice);
    }

    /** The jobs that are due when the pass begins. */
    method Snapshot(t: nat) returns (due: seq<(Id, Job)>)
      requires AllDistinct(store.jobs)
      ensures Lists(due, store.jobs, store.jobs.Keys, t)
    {
      due := [];
      var todo := store.jobs.Keys;
      while todo != {}
        invariant todo <= store.jobs.Keys && Lists(due, store.jobs, store.jobs.Keys - todo, t)
        decreases todo
      {
        var id :| id in todo;
        var list := store.jobs[id];
        ghost var before, rooms := due, store.jobs.Keys - todo;
        for i := 0 to |list|
          invariant forall x :: x in due <==> x in before || (x.0 == id && x.1 in list[..i] && Due(x.1, t))
          invariant forall k, l :: 0 <= k < l < |due| ==>
            !(due[k].0 == due[l].0 && due[k].1.notice.eventId == due[l].1.notice.eventId)
        {
          assert list[..i + 1] == list[..i] + [list[i]];
          assert OnePerEvent(list);
          if Due(list[i], t) {
            forall k | 0 <= k < |due| ensures !(due[k].0 == id && due[k].1.notice.eventId == list[i].notice.eventId) {
              assert due[k] in due;
              if due[k].0 == id { assert due[k] !in before && due[k].1 in list[..i]; }
            }
            due := due + [(id, list[i])];
          }
        }
        assert list[..|list|] == list;
        todo := todo - {id};
        assert store.jobs.Keys - todo == rooms + {id};
      }
      assert store.jobs.Keys - todo == store.jobs.Keys;
    }

    /** The queued jobs after the first `n` due ones were dealt with. */
    ghost predicate Progress(before: map<Id, seq<Job>>, due: seq<(Id, Job)>, n: nat, when: (Id, nat) -> nat,
            safe: set<Id>)
      requires n <= |due|
      reads store
    {
      && (forall id, j :: id in safe && Holds(before, id, j) && Queued(j) && (id, j) !in due[..n] ==> Holds(store.jobs, id, j))
      && (forall id, j :: id in safe && (id, j) in due[..n] && !j.scheduled && !AllHandled(w, id, j, |j.notice.to|) ==>
            Holds(store.jobs, id, Retried(w, id, j, when(id, j.notice.eventId))))
    }

    /**
     * A whole pass, `when` giving the times at which it finishes its jobs. Whatever commits run between its queries,
     * an unscheduled job that was waiting when the pass began is afterwards still there as it was, or, if it was due,
     * there with its new receipts and a later retry; it can only have gone when all its devices were handled. Every due
     * one had exactly the pushes sent that were owed.
     */
    method Deliver(t: nat, when: (Id, nat) -> nat, ghost safe: set<Id>) returns (sent: map<(Id, nat), seq<(Id, Id)>>)
      requires AllDistinct(store.jobs) && Spares(w, safe) && store.jobs.Keys <= safe
      requires t < FINISHED && forall id, e :: when(id, e) + RETRY < FINISHED
      modifies this`query, store`jobs
      ensures AllDistinct(store.jobs)
      ensures forall id: Id, j: Job :: Holds(old(store.jobs), id, j) && Queued(j) ==>
        if j.notice.at > t || j.retryAt > t then Holds(store.jobs, id, j)
        else
          && (id, j.notice.eventId) in sent && sent[(id, j.notice.eventId)] == AllPushes(w, id, j, |j.notice.to|)
          && (!AllHandled(w, id, j, |j.notice.to|) ==> Holds(store.jobs, id, Retried(w, id, j, when(id, j.notice.eventId))))
    {
      hide AllDistinct, Spares, AllHandled, Settled;
      ghost var before := store.jobs;
      var due := Snapshot(t);
      sent := map[];
      for i := 0 to |due|
        invariant AllDistinct(store.jobs) && Progress(before, due, i, when, safe)
        invariant AllSent(due, i, sent)
      {
        var (room, j) := due[i];
        assert due[i] in due;
        NotYet(due, i);
        assert Holds(before, room, j) && Due(j, t);
        assert j.done + [] == j.done && j.(done := j.done + []) == j;
        ghost var was := store.jobs;
        var pushes := DeliverJob(room, j, when(room, j.notice.eventId), safe);
        assert due[..i + 1] == due[..i] + [due[i]];
        SettledMeans(w, room, j, store.jobs, when(room, j.notice.eventId));
        ProgressOn(before, due, i, was, when, safe);
        SentOn(due, i, sent, pushes);
        sent := sent[(room, j.notice.eventId) := pushes];
      }
      assert due[..|due|] == due;
    }

    /** For the first `n` due jobs the pushes sent are those that were owed. */
    ghost predicate AllSent(due: seq<(Id, Job)>, n: nat, sent: map<(Id, nat), seq<(Id, Id)>>)
      requires n <= |due|
    {
      forall x :: x in due[..n] && !x.1.scheduled ==>
        (x.0, x.1.notice.eventId) in sent && sent[(x.0, x.1.notice.eventId)] == AllPushes(w, x.0, x.1, |x.1.notice.to|)
    }

    lemma SentOn(due: seq<(Id, Job)>, i: nat, sent: map<(Id, nat), seq<(Id, Id)>>, pushes: seq<(Id, Id)>)
      requires i < |due| && AllSent(due, i, sent)
      requires forall x :: x in due[..i] ==> !(x.0 == due[i].0 && x.1.notice.eventId == due[i].1.notice.eventId)
      requires !due[i].1.scheduled ==> pushes == AllPushes(w, due[i].0, due[i].1, |due[i].1.notice.to|)
      ensures AllSent(due, i + 1, sent[(due[i].0, due[i].1.notice.eventId) := pushes])
    {
      hide AllPushes;
      assert due[..i + 1] == due[..i] + [due[i]];
    }

    static lemma NotYet(due: seq<(Id, Job)>, i: nat)
      requires i < |due|
      requires forall i, k :: 0 <= i < k < |due| ==> !(due[i].0 == due[k].0 && due[i].1.notice.eventId == due[k].1.notice.eventId)
      ensures due[i] !in due[..i]
      ensures forall x :: x in due[..i] ==> !(x.0 == due[i].0 && x.1.notice.eventId == due[i].1.notice.eventId)
    {
    }

    static lemma SettledMeans(w: World, room: Id, j: Job, jobs: map<Id, seq<Job>>, now: nat)
      ensures Settled(w, room, j, jobs, now) && !AllHandled(w, room, j, |j.notice.to|) ==> Holds(jobs, room, Retried(w, room, j, now))
    {
    }

    lemma ProgressOn(before: map<Id, seq<Job>>, due: seq<(Id, Job)>, i: nat, was: map<Id, seq<Job>>,
            when: (Id, nat) -> nat, safe: set<Id>)
      requires i < |due|
      requires AllDistinct(before) && forall x :: x in due ==> Holds(before, x.0, x.1)
      requires forall x :: x in due[..i] ==> !(x.0 == due[i].0 && x.1.notice.eventId == due[i].1.notice.eventId)
      requires forall id, e :: when(id, e) + RETRY < FINISHED
      requires forall id, j :: id in safe && Holds(before, id, j) && Queued(j) && (id, j) !in due[..i] ==> Holds(was, id, j)
      requires forall id, j :: id in safe && (id, j) in due[..i] && !j.scheduled && !AllHandled(w, id, j, |j.notice.to|) ==>
            Holds(was, id, Retried(w, id, j, when(id, j.notice.eventId)))
      requires Keeps(was, store.jobs, safe, due[i].0, due[i].1.notice)
      requires !due[i].1.scheduled && !AllHandled(w, due[i].0, due[i].1, |due[i].1.notice.to|) ==>
            Holds(store.jobs, due[i].0, Retried(w, due[i].0, due[i].1, when(due[i].0, due[i].1.notice.eventId)))
      ensures Progress(before, due, i + 1, when, safe)
    {
      hide AllHandled;
      assert due[..i + 1] == due[..i] + [due[i]];
      forall id, j | id in safe && Holds(before, id, j) && Queued(j) && (id, j) !in due[..i + 1] ensures Holds(store.jobs, id, j) {
        assert due[i] in due && Holds(before, due[i].0, due[i].1);
        if id == due[i].0 && Same(j, due[i].1.notice) { OneIsSame(before[id], j, due[i].1); }
      }
      forall id, j | id in safe && (id, j) in due[..i] && !j.scheduled && !AllHandled(w, id, j, |j.notice.to|)
        ensures Holds(store.jobs, id, Retried(w, id, j, when(id, j.notice.eventId)))
      {
        assert Queued(Retried(w, id, j, when(id, j.notice.eventId)));
      }
    }
  }
}

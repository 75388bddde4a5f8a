/** What a commit does to the notification jobs of its room. */
module Jobs {
  import opened Model
  import opened Sessions
  import Rules

  /** No two jobs are for the same event. */
  ghost predicate OnePerEvent(jobs: seq<Job>) {
    forall i, j :: 0 <= i < j < |jobs| ==> jobs[i].notice.eventId != jobs[j].notice.eventId
  }

  lemma {:induction false} UnfinishedAre(previous: seq<Job>, j: Job)
    ensures j in Unfinished(previous) <==> j in previous && Queued(j)
  {
    if previous != [] {
      UnfinishedAre(previous[..|previous| - 1], j);
      assert previous == previous[..|previous| - 1] + [previous[|previous| - 1]];
    }
  }

  lemma {:induction false} UnfinishedDistinct(previous: seq<Job>)
    requires OnePerEvent(previous)
    ensures OnePerEvent(Unfinished(previous))
  {
    if previous != [] {
      var front, last := previous[..|previous| - 1], previous[|previous| - 1];
      UnfinishedDistinct(front);
      var rest := Unfinished(front);
      forall i | 0 <= i < |rest| ensures rest[i].notice.eventId != last.notice.eventId {
        UnfinishedAre(front, rest[i]);
        var k :| 0 <= k < |front| && front[k] == rest[i];
      }
    }
  }

  /** The earlier job for the event and time if there is one, else a fresh one. */
  lemma {:induction false} RenewedIs(previous: seq<Job>, n: Notice, scheduled: bool)
    ensures var r := Renewed(previous, n, scheduled);
      && Same(r, n)
      && ((r in previous && Same(r, n)) || (r == Job(n, [], 0, scheduled) && forall j :: j in previous ==> !Same(j, n)))
  {
    if previous != [] { RenewedIs(previous[1..], n, scheduled); }
  }

  lemma OneIsSame(jobs: seq<Job>, a: Job, b: Job)
    requires OnePerEvent(jobs) && a in jobs && b in jobs && a.notice.eventId == b.notice.eventId
    ensures a == b
  {
  }

  lemma AddKeepsDistinct(jobs: seq<Job>, previous: seq<Job>, events: seq<nat>, n: Option<Notice>, scheduled: bool)
    requires OnePerEvent(jobs)
    ensures OnePerEvent(AddNotice(jobs, previous, events, n, scheduled))
    ensures forall j :: j in jobs ==> j in AddNotice(jobs, previous, events, n, scheduled)
  {
    if n.Some? { RenewedIs(previous, n.value, scheduled); }
  }

  /** After a commit the room's jobs are still for different events. */
  lemma MergeKeepsEventsDistinct(previous: seq<Job>, events: seq<nat>, scheduled: Option<Notice>,
          immediate: Option<Notice>)
    requires OnePerEvent(previous)
    ensures OnePerEvent(Merge(previous, events, scheduled, immediate))
  {
    hide AddNotice;
    UnfinishedDistinct(previous);
    AddKeepsDistinct(Unfinished(previous), previous, events, scheduled, true);
    AddKeepsDistinct(AddNotice(Unfinished(previous), previous, events, scheduled, true), previous, events, immediate, false);
  }

  /** Every unfinished unscheduled job survives as it is, receipts and retry time included. */
  lemma MergeKeepsQueued(previous: seq<Job>, events: seq<nat>, scheduled: Option<Notice>, immediate: Option<Notice>,
          j: Job)
    requires j in previous && Queued(j)
    ensures j in Merge(previous, events, scheduled, immediate)
  {
    UnfinishedAre(previous, j);
  }

  /** Is `(eventId, at)` of the job committed again, by a notice that is not crowded out? */
  predicate Recommitted(j: Job, events: seq<nat>, scheduled: Option<Notice>, immediate: Option<Notice>) {
    && j.notice.eventId !in events
    && ( || (scheduled.Some? && Same(j, scheduled.value))
         || (immediate.Some? && Same(j, immediate.value) && (scheduled.Some? ==> scheduled.value.eventId != j.notice.eventId)))
  }

  /**
   * A previous job that is scheduled or finished survives exactly when the same event and time are committed again
   * and the event is not among the remembered ones; then it survives as it is, still marked scheduled even when the
   * notice that renews it is an immediate one.
   */
  lemma MergeKeepsOthersExactly(previous: seq<Job>, events: seq<nat>, scheduled: Option<Notice>,
          immediate: Option<Notice>, j: Job)
    requires OnePerEvent(previous) && j in previous && !Queued(j)
    ensures j in Merge(previous, events, scheduled, immediate) <==> Recommitted(j, events, scheduled, immediate)
  {
    hide Unfinished, OnePerEvent, Renewed;
    var kept := Unfinished(previous);
    UnfinishedAre(previous, j);
    UnfinishedDistinct(previous);
    assert !HasEvent(kept, j.notice.eventId) by {
      if x :| x in kept && x.notice.eventId == j.notice.eventId {
        UnfinishedAre(previous, x);
        OneIsSame(previous, x, j);
      }
    }
    var more := AddNotice(kept, previous, events, scheduled, true);
    if scheduled.Some? { RenewedOne(previous, scheduled.value, true, j); }
    if immediate.Some? { RenewedOne(previous, immediate.value, false, j); }
    assert j in more <==> scheduled.Some? && Same(j, scheduled.value) && j.notice.eventId !in events;
    assert HasEvent(more, j.notice.eventId) <==>
      scheduled.Some? && scheduled.value.eventId == j.notice.eventId && j.notice.eventId !in events;
  }

  lemma RenewedOne(previous: seq<Job>, n: Notice, scheduled: bool, j: Job)
    requires OnePerEvent(previous) && j in previous
    ensures Renewed(previous, n, scheduled) == j <==> Same(j, n)
    ensures Renewed(previous, n, scheduled).notice.eventId == n.eventId
  {
    RenewedIs(previous, n, scheduled);
    var r := Renewed(previous, n, scheduled);
    if Same(j, n) { OneIsSame(previous, r, j); }
  }

  /** Nothing else appears: a job after the commit was there before, or is fresh, for a committed notice. */
  lemma MergeInventsNothing(previous: seq<Job>, events: seq<nat>, scheduled: Option<Notice>,
          immediate: Option<Notice>, j: Job)
    requires j in Merge(previous, events, scheduled, immediate)
    ensures j in previous
      || (scheduled.Some? && j == Job(scheduled.value, [], 0, true))
      || (immediate.Some? && j == Job(immediate.value, [], 0, false))
  {
    hide Unfinished, Renewed;
    UnfinishedAre(previous, j);
    if scheduled.Some? { RenewedIs(previous, scheduled.value, true); }
    if immediate.Some? { RenewedIs(previous, immediate.value, false); }
  }

  // ---- how many scheduled jobs

  function Scheduled(jobs: seq<Job>): nat {
    if jobs == [] then 0 else Scheduled(jobs[..|jobs| - 1]) + if jobs[|jobs| - 1].scheduled then 1 else 0
  }

  lemma {:induction false} NoneScheduled(previous: seq<Job>)
    ensures Scheduled(Unfinished(previous)) == 0
  {
    if previous != [] {
      NoneScheduled(previous[..|previous| - 1]);
      SnocScheduled(Unfinished(previous[..|previous| - 1]), previous[|previous| - 1]);
    }
  }

  lemma SnocScheduled(jobs: seq<Job>, j: Job)
    ensures Scheduled(jobs + [j]) == Scheduled(jobs) + if j.scheduled then 1 else 0
  {
    assert (jobs + [j])[..|jobs|] == jobs;
  }

  /** Does the notice bring a job, and is it one that is marked scheduled? */
  ghost predicate Brings(previous: seq<Job>, events: seq<nat>, n: Notice, scheduled: bool) {
    && n.eventId !in events
    && (forall j :: j in previous && Queued(j) ==> j.notice.eventId != n.eventId)
    && if scheduled then forall j :: j in previous && Same(j, n) ==> j.scheduled
       else exists j :: j in previous && Same(j, n) && j.scheduled
  }

  /** One notice adds a scheduled job exactly when it is not crowded out and brings one. */
  lemma AddedScheduled(previous: seq<Job>, jobs: seq<Job>, events: seq<nat>, n: Option<Notice>, scheduled: bool)
    requires OnePerEvent(previous)
    requires forall j :: j in previous && Queued(j) ==> j in jobs
    requires forall j :: j in jobs ==> (j in previous && Queued(j)) || (n.Some? && j.notice.eventId != n.value.eventId)
    ensures Scheduled(AddNotice(jobs, previous, events, n, scheduled)) ==
      Scheduled(jobs) + if n.Some? && Brings(previous, events, n.value, scheduled) then 1 else 0
  {
    hide OnePerEvent, Renewed, Scheduled;
    if n.Some? {
      var r := Renewed(previous, n.value, scheduled);
      RenewedIs(previous, n.value, scheduled);
      SnocScheduled(jobs, r);
      forall j | j in previous && Same(j, n.value) ensures j == r {
        RenewedOne(previous, n.value, scheduled, j);
      }
    }
  }

  /** Does one of the two notices renew an earlier scheduled job while the other leaves a scheduled one as well? */
  ghost predicate BothScheduled(previous: seq<Job>, events: seq<nat>, scheduled: Option<Notice>,
          immediate: Option<Notice>) {
    && scheduled.Some? && immediate.Some? && scheduled.value.eventId != immediate.value.eventId
    && scheduled.value.eventId !in events && immediate.value.eventId !in events
    && (forall j :: j in previous && Queued(j) ==>
          j.notice.eventId != scheduled.value.eventId && j.notice.eventId != immediate.value.eventId)
    && (exists j :: j in previous && Same(j, immediate.value) && j.scheduled)
    && (forall j :: j in previous && Same(j, scheduled.value) ==> j.scheduled)
  }

  /**
   * A commit leaves two scheduled jobs exactly when it brings a scheduled and an immediate notice for different events,
   * neither remembered nor still queued, the immediate one renews an earlier scheduled job, and the scheduled one does
   * not renew a job that is not scheduled. It never leaves more.
   */
  lemma TwoScheduledExactly(previous: seq<Job>, events: seq<nat>, scheduled: Option<Notice>, immediate: Option<Notice>)
    requires OnePerEvent(previous)
    ensures var n := Scheduled(Merge(previous, events, scheduled, immediate));
      n <= 2 && (n == 2 <==> BothScheduled(previous, events, scheduled, immediate))
  {
    hide OnePerEvent, Unfinished, Renewed, Scheduled, AddNotice;
    var kept := Unfinished(previous);
    NoneScheduled(previous);
    forall j ensures j in kept <==> j in previous && Queued(j) { UnfinishedAre(previous, j); }
    AddedScheduled(previous, kept, events, scheduled, true);
    var more := AddNotice(kept, previous, events, scheduled, true);
    AddedAre(kept, previous, events, scheduled, true);
    if immediate.Some? {
      if scheduled.Some? && scheduled.value.eventId == immediate.value.eventId {
        CrowdedOut(kept, previous, events, scheduled, immediate);
      } else {
        AddedScheduled(previous, more, events, immediate, false);
      }
    } else {
      NothingAdded(more, previous, events);
    }
  }

  /** And it does happen: the immediate notice renews the earlier scheduled job. */
  lemma TwoScheduledJobs() returns (previous: seq<Job>, scheduled: Notice, immediate: Notice)
    ensures OnePerEvent(previous) && |previous| == 1 && previous[0].scheduled
    ensures Scheduled(Merge(previous, [], Some(scheduled), Some(immediate))) == 2
  {
    immediate, scheduled := Notice(1, 5, [], ""), Notice(2, 9, [], "");
    previous := [Job(immediate, [], 0, true)];
    assert previous[0] in previous && Same(previous[0], immediate);
    TwoScheduledExactly(previous, [], Some(scheduled), Some(immediate));
  }

  lemma NothingAdded(jobs: seq<Job>, previous: seq<Job>, events: seq<nat>)
    ensures AddNotice(jobs, previous, events, None, false) == jobs
  {
  }

  /** What one notice adds is for its own event. */
  lemma AddedAre(jobs: seq<Job>, previous: seq<Job>, events: seq<nat>, n: Option<Notice>, scheduled: bool)
    ensures forall j :: j in jobs ==> j in AddNotice(jobs, previous, events, n, scheduled)
    ensures forall j :: j in AddNotice(jobs, previous, events, n, scheduled) ==>
      j in jobs || (n.Some? && j.notice.eventId == n.value.eventId)
  {
    if n.Some? { RenewedIs(previous, n.value, scheduled); }
  }

  /** Of two notices for one event the second adds nothing. */
  lemma CrowdedOut(jobs: seq<Job>, previous: seq<Job>, events: seq<nat>, first: Option<Notice>, second: Option<Notice>)
    requires first.Some? && second.Some? && first.value.eventId == second.value.eventId
    ensures var more := AddNotice(jobs, previous, events, first, true);
      AddNotice(more, previous, events, second, false) == more
  {
    RenewedIs(previous, first.value, true);
    if first.value.eventId !in events && !HasEvent(jobs, first.value.eventId) {
      var more := AddNotice(jobs, previous, events, first, true);
      assert more[|more| - 1] in more && more[|more| - 1].notice.eventId == second.value.eventId;
    }
  }

  /** When the job file cannot be written nothing changes: no job, no state, no revision, no event. */
  lemma FailedCommitChangesNothing(cfg: Config, s: State, p: Id, q: Request, io: Io)
    requires p in s.players && q.CommitSession? && !io.jobs
    ensures Rules.InRoom(cfg, s, p, q, io) == s
  {
    var id := s.players[p].room;
    if id.Some? && id.value in s.rooms { assert s.rooms[id.value := s.rooms[id.value]] == s.rooms; }
  }
}

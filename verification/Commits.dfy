/** What an accepted commit needs and what it leaves behind, in the room and among its notification jobs. */
module Commits {
  import opened Model
  import opened Rules
  import opened Invariants
  import opened Presence
  import Jobs
  import Sessions

  /** Everybody whom the notice addresses is on the roster. */
  predicate OnRoster(r: Room, notice: Option<Notice>) {
    notice.Some? ==> forall k :: 0 <= k < |notice.value.to| ==> notice.value.to[k] in r.players
  }

  /** The owner of a stored game commits an upload of its own that is complete, and the job file can be written. */
  predicate Commits(r: Room, p: Id, q: Request, io: Io)
    requires q.CommitSession?
  {
    && r.persistent && r.owner == p
    && r.upload.Some? && r.upload.value.id == q.request && r.upload.value.offset == |r.upload.value.bytes|
    && OnRoster(r, q.scheduled) && OnRoster(r, q.immediate) && io.jobs
  }

  /** The jobs of a room. */
  function JobsOf(s: State, id: Id): seq<Job> {
    if id in s.jobs then s.jobs[id] else []
  }

  /** The event of the notice was remembered already, or there is a job for it. */
  ghost predicate Provided(r: Room, jobs: seq<Job>, notice: Option<Notice>) {
    notice.Some? ==> notice.value.eventId in r.events || exists j :: j in jobs && j.notice.eventId == notice.value.eventId
  }

  lemma RosterIsAddressed(r: Room, notice: Option<Notice>)
    ensures Sessions.Addressed(r, notice) <==> OnRoster(r, notice)
  {
    if notice.Some? && OnRoster(r, notice) {
      forall q | q in notice.value.to ensures q in r.players {}
    }
  }

  lemma VerdictExactly(r: Room, p: Id, q: Request, io: Io)
    requires RoomOk(r) && q.CommitSession?
    ensures Sessions.CommitVerdict(r, p, q.request, q.scheduled, q.immediate, io.jobs).Revision? <==> Commits(r, p, q, io)
  {
    hide OnRoster, Sessions.Addressed;
    RosterIsAddressed(r, q.scheduled);
    RosterIsAddressed(r, q.immediate);
  }

  /** After a commit each of its notices has its job, unless its event was remembered. */
  lemma MergeProvides(r: Room, previous: seq<Job>, scheduled: Option<Notice>, immediate: Option<Notice>)
    ensures var jobs := Sessions.Merge(previous, r.events, scheduled, immediate);
      Provided(r, jobs, scheduled) && Provided(r, jobs, immediate)
  {
    hide Sessions.Unfinished, Sessions.Renewed;
    var kept := Sessions.Unfinished(previous);
    var more := Sessions.AddNotice(kept, previous, r.events, scheduled, true);
    AddProvides(r, kept, previous, scheduled, true);
    AddProvides(r, more, previous, immediate, false);
    Jobs.AddedAre(more, previous, r.events, immediate, false);
  }

  lemma AddProvides(r: Room, jobs: seq<Job>, previous: seq<Job>, n: Option<Notice>, scheduled: bool)
    ensures Provided(r, Sessions.AddNotice(jobs, previous, r.events, n, scheduled), n)
  {
    if n.Some? {
      var added := Sessions.AddNotice(jobs, previous, r.events, n, scheduled);
      Jobs.RenewedIs(previous, n.value, scheduled);
      if n.value.eventId !in r.events && !Sessions.HasEvent(jobs, n.value.eventId) {
        assert added[|added| - 1] == Sessions.Renewed(previous, n.value, scheduled);
      }
    }
  }

  /**
   * A commit is accepted exactly when the owner of a stored game commits its own upload, complete to the last byte, with
   * notices to players on the roster only, and the jobs can be written. Then the room holds the uploaded bytes in the next
   * revision, stamped with the time of the commit; its notices have their jobs, and every waiting job is still there.
   * Otherwise neither room nor jobs change.
   */
  lemma CommitExactly(cfg: Config, s: State, p: Id, q: Request, io: Io)
    requires Core(s) && p in s.players && s.players[p].room.Some? && q.CommitSession?
    ensures s.players[p].room.value in s.rooms
    ensures var id := s.players[p].room.value;
      var r, t := s.rooms[id], InRoom(cfg, s, p, q, io);
      if Commits(r, p, q, io) then
        && id in t.rooms
        && t.rooms[id] == r.(state := r.upload.value.bytes, upload := None, revision := r.revision + 1, updated := s.now,
                             events := t.rooms[id].events)
        && (forall e :: e in t.rooms[id].events ==> e in r.events || (q.immediate.Some? && e == q.immediate.value.eventId))
        && (q.immediate.Some? ==> q.immediate.value.eventId in t.rooms[id].events)
        && Provided(r, JobsOf(t, id), q.scheduled) && Provided(r, JobsOf(t, id), q.immediate)
        && (forall j :: j in JobsOf(s, id) && !j.scheduled && j.retryAt != Sessions.FINISHED ==> j in JobsOf(t, id))
        && (forall x :: x != id ==> JobsOf(t, x) == JobsOf(s, x) && (x in s.rooms ==> x in t.rooms && t.rooms[x] == s.rooms[x]))
      else t.rooms == s.rooms && t.jobs == s.jobs
  {
    var id := s.players[p].room.value;
    assert id in s.rooms && RoomOk(s.rooms[id]);
    hide Core, Commits, Sessions.CommitVerdict, Sessions.Merge, Provided, RoomOk;
    var r, t := s.rooms[id], InRoom(cfg, s, p, q, io);
    VerdictExactly(r, p, q, io);
    RoomCommits(r, p, q, io, s.now);
    var previous := JobsOf(s, id);
    MergeProvides(r, previous, q.scheduled, q.immediate);
    forall j | j in previous && Sessions.Queued(j) ensures j in Sessions.Merge(previous, r.events, q.scheduled, q.immediate) {
      Jobs.MergeKeepsQueued(previous, r.events, q.scheduled, q.immediate, j);
    }
    assert !Commits(r, p, q, io) ==> s.rooms[id := s.rooms[id]] == s.rooms;
  }

  lemma RoomCommits(r: Room, p: Id, q: Request, io: Io, now: nat)
    requires RoomOk(r) && q.CommitSession?
    ensures var t := Sessions.Commit(r, p, q.request, q.scheduled, q.immediate, io.jobs, now).0;
      if Commits(r, p, q, io) then
        && t == r.(state := r.upload.value.bytes, upload := None, revision := r.revision + 1, updated := now, events := t.events)
        && (forall e :: e in t.events ==> e in r.events || (q.immediate.Some? && e == q.immediate.value.eventId))
        && (q.immediate.Some? ==> q.immediate.value.eventId in t.events)
      else t == r
  {
    hide Sessions.CommitVerdict;
    VerdictExactly(r, p, q, io);
    if q.immediate.Some? { RememberedAre(r.events, q.immediate.value.eventId); }
  }

  lemma RememberedAre(events: seq<nat>, e: nat)
    requires |events| <= Sessions.REMEMBERED
    ensures e in Sessions.Remember(events, e)
    ensures forall x :: x in Sessions.Remember(events, e) ==> x in events || x == e
  {
  }

  /** A description is set exactly by the owner, if it fits. */
  lemma MetaExactly(cfg: Config, s: State, p: Id, q: Request, io: Io)
    requires p in s.players && s.players[p].room.Some? && s.players[p].room.value in s.rooms && q.SetMeta?
    ensures var id := s.players[p].room.value;
      var r, t := s.rooms[id], InRoom(cfg, s, p, q, io);
      t.jobs == s.jobs && t.rooms == if r.owner == p && q.fits then s.rooms[id := r.(info := r.info.(meta := q.meta))] else s.rooms
  {
    var id := s.players[p].room.value;
    assert s.rooms[id := s.rooms[id]] == s.rooms;
  }
}

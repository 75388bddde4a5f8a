/** Stored sessions: the chunked upload of a new state and its compare-and-swap commit, on one room. */
module Sessions {
  import opened Model
  import IndexSet
  import Bytes

  const REMEMBERED: nat := 128
  const FINISHED: nat := 9007199254740991

  datatype Reply = Offset(offset: nat) | Revision(revision: nat) | Error(code: string) | Silent

  /** `beginSession` by `p`. */
  function Begin(cfg: Config, r: Room, p: Id, request: Id, revision: nat, generation: nat, size: nat, now: nat)
    : (Room, Reply)
  {
    if !r.persistent then (r, Error("unavailable"))
    else if r.owner != p then (r, Error("not_room_owner"))
    else if revision != r.revision || generation != r.generation then (r, Error("stale_session"))
    else if size > cfg.maxSession then (r, Error("payload_too_large"))
    else
      var blank := seq(size, _ => 0);
      (r.(upload := Some(Upload(request, p, r.generation, r.revision, blank, 0, now))), Offset(0))
  }

  /** Does the chunk frame `b` of `p` continue the open upload? */
  predicate Continues(r: Room, u: Upload, p: Id, b: seq<byte>)
    requires |b| >= 22
  {
    && Bytes.Value(b[1..17]) == u.id
    && u.owner == p
    && r.owner == p
    && u.generation == r.generation
    && Bytes.Value(b[17..21]) == u.offset
    && u.offset + |b| - 21 <= |u.bytes|
  }

  /** A binary frame that starts with byte 2: a chunk of the open upload. */
  function Chunk(r: Room, p: Id, b: seq<byte>, now: nat): (Room, Reply) {
    if |b| < 22 || r.upload.None? then (r, Silent)
    else
      var u := r.upload.value;
      if !Continues(r, u, p, b) then (r.(upload := None), Error("stale_session"))
      else
        var end := u.offset + |b| - 21;
        (r.(upload := Some(u.(bytes := u.bytes[..u.offset] + b[21..] + u.bytes[end..], offset := end, at := now))),
         Offset(end))
  }

  /** May `p` commit the upload `request` now? */
  predicate Complete(r: Room, p: Id, request: Id) {
    && r.upload.Some?
    && r.upload.value.id == request
    && r.upload.value.owner == p
    && r.upload.value.generation == r.generation
    && r.upload.value.revision == r.revision
    && r.upload.value.offset == |r.upload.value.bytes|
  }

  predicate Addressed(r: Room, notice: Option<Notice>) {
    notice.Some? ==> forall q | q in notice.value.to :: q in r.players
  }

  /** The remembered events after one more; the oldest is dropped past the limit. */
  function Remember(events: seq<nat>, e: nat): (r: seq<nat>)
    ensures |events| <= REMEMBERED ==> |r| <= REMEMBERED
    ensures IndexSet.Distinct(events) ==> IndexSet.Distinct(r)
    ensures e in r || |events| > REMEMBERED
  {
    var more := IndexSet.Insert(events, e);
    if |more| > REMEMBERED then more[1..] else more
  }

  /** The verdict on `commitSession`; `written` says whether the job file was written. */
  function CommitVerdict(r: Room, p: Id, request: Id, scheduled: Option<Notice>, immediate: Option<Notice>,
          written: bool): Reply {
    if !r.persistent then Error("unavailable")
    else if r.owner != p then Error("not_room_owner")
    else if !Complete(r, p, request) then Error("stale_session")
    else if !Addressed(r, scheduled) || !Addressed(r, immediate) then Error("invalid_message")
    else if !written then Error("storage_error")
    else Revision(r.revision + 1)
  }

  /** The room after an accepted commit. */
  function Committed(r: Room, immediate: Option<Notice>, now: nat): Room
    requires r.upload.Some?
  {
    r.(events := if immediate.Some? then Remember(r.events, immediate.value.eventId) else r.events,
       state := r.upload.value.bytes, upload := None, revision := r.revision + 1, updated := now)
  }

  function Commit(r: Room, p: Id, request: Id, scheduled: Option<Notice>, immediate: Option<Notice>, written: bool,
          now: nat)
    : (Room, Reply)
  {
    var verdict := CommitVerdict(r, p, request, scheduled, immediate, written);
    (if verdict.Revision? then Committed(r, immediate, now) else r, verdict)
  }

  // ---- notification jobs of one room

  predicate Same(j: Job, n: Notice) { j.notice.eventId == n.eventId && j.notice.at == n.at }

  predicate Queued(j: Job) { !j.scheduled && j.retryAt != FINISHED }

  function Unfinished(jobs: seq<Job>): seq<Job> {
    if jobs == [] then []
    else
      var rest := Unfinished(jobs[..|jobs| - 1]);
      if Queued(jobs[|jobs| - 1]) then rest + [jobs[|jobs| - 1]] else rest
  }

  predicate HasEvent(jobs: seq<Job>, e: nat) { exists j | j in jobs :: j.notice.eventId == e }

  /** The earlier job for the same event and time, or a new one. */
  function Renewed(previous: seq<Job>, n: Notice, scheduled: bool): Job {
    if previous == [] then Job(n, [], 0, scheduled)
    else if Same(previous[0], n) then previous[0]
    else Renewed(previous[1..], n, scheduled)
  }

  function AddNotice(jobs: seq<Job>, previous: seq<Job>, events: seq<nat>, n: Option<Notice>,
          scheduled: bool): seq<Job> {
    if n.None? || n.value.eventId in events || HasEvent(jobs, n.value.eventId) then jobs
    else jobs + [Renewed(previous, n.value, scheduled)]
  }

  /** `Store::commit`: the job list of a room after a commit. */
  function Merge(previous: seq<Job>, events: seq<nat>, scheduled: Option<Notice>, immediate: Option<Notice>): seq<Job> {
    AddNotice(AddNotice(Unfinished(previous), previous, events, scheduled, true), previous, events, immediate, false)
  }
}

/** Progress of open uploads: who made it and when, and that a sweep drops exactly those without any. */
module Stalls {
  import opened Model
  import opened Rules
  import opened Invariants
  import opened Relay
  import opened Presence
  import opened Handling
  import opened Uploads
  import Absence
  import IndexSet
  import Bytes
  import Keys
  import Losses
  import Opening
  import Preservation
  import Queue
  import QueueBudget
  import QueueRuns
  import Quota
  import Safety
  import Sessions
  import Sockets
  import Udp

  const HALF_A_MINUTE: nat := 30000

  // ---- the sweep

  lemma {:induction false} KeepAllUploads(cfg: Config, s: State, order: seq<(Id, Io)>, id: Id)
    requires id in KeepAll(cfg, s, order).rooms
    ensures id in s.rooms && KeepAll(cfg, s, order).rooms[id] == s.rooms[id]
    decreases |order|
  {
    hide Quota.Evicted;
    if order != [] {
      var (x, io) := order[0];
      var out := if x in s.rooms && s.rooms[x].persistent && s.rooms[x].active == []
                 then Keep(cfg, s.(rooms := s.rooms - {x}), x, s.rooms[x], io) else s;
      KeepAllUploads(cfg, out, order[1..], id);
    }
  }

  /** After a sweep no room in memory holds an upload without progress for more than half a minute. */
  lemma NothingStalls(cfg: Config, s: State, c: Step, id: Id)
    requires c.action.Swept? && id in Next(cfg, s, c).rooms && Next(cfg, s, c).rooms[id].upload.Some?
    ensures c.at <= Next(cfg, s, c).rooms[id].upload.value.at + HALF_A_MINUTE
  {
    hide Drain, KeepAll, Expire;
    var t := At(s, c.at);
    var drained := Drain(cfg, t.(delayed := []), t.delayed);
    var tidy := drained.(rooms := Tidied(drained.rooms, t.now));
    var kept := KeepAll(cfg, tidy, c.action.order);
    ExpireUploads(cfg, kept, id);
    KeepAllUploads(cfg, tidy, c.action.order, id);
  }

  lemma ExpireUploads(cfg: Config, s: State, id: Id)
    requires id in Expire(cfg, s).rooms
    ensures id in s.rooms && Expire(cfg, s).rooms[id].upload == s.rooms[id].upload
  {
  }

  /**
   * A sweep drops an upload that its released frames left open exactly when the upload made no progress for more than
   * half a minute; any other it leaves as it is.
   */
  lemma SweepDropsExactly(cfg: Config, r: Run, i: nat, id: Id)
    requires IsRun(cfg, r) && i < |r.steps| && r.steps[i].action.Swept?
    requires Queue.Due(r.states[i].delayed, r.steps[i].at) <= |r.states[i].delayed|
    requires var mid := Halfway(cfg, r.states[i], r.steps[i], Queue.Due(r.states[i].delayed, r.steps[i].at));
      id in mid.rooms && mid.rooms[id].upload.Some?
    ensures var mid := Halfway(cfg, r.states[i], r.steps[i], Queue.Due(r.states[i].delayed, r.steps[i].at));
      var u, t := mid.rooms[id].upload.value, r.states[i + 1];
      && id in t.rooms
      && t.rooms[id].upload == if r.steps[i].at > u.at + HALF_A_MINUTE then None else Some(u)
  {
    hide Core, Queue.Released, KeepAll, Expire, Rules.Sweep, DrainAdmissible, Queue.Sorted;
    var s, c := r.states[i], r.steps[i];
    var t, n := At(s, c.at), Queue.Due(s.delayed, c.at);
    assert Lawful(cfg, s, c);
    QueueRuns.RunSorted(cfg, r, i);
    Safety.RunHolds(cfg, r, i);
    Losses.StartHolds(s, c.at);
    SweepIs(cfg, t, c.action.order);
    var mid := Halfway(cfg, s, c, n);
    Sockets.ReleasedHolds(cfg, t.(delayed := []), s.delayed, n);
    MemberThere(mid, id);
    var tidy := mid.(delayed := s.delayed[n..], rooms := Tidied(mid.rooms, t.now));
    Queue.ReleasedKeepsQueue(cfg, t.(delayed := []), s.delayed, n);
    KeepAllKeeps(cfg, tidy, c.action.order, id);
    ExpireKeeps(cfg, KeepAll(cfg, tidy, c.action.order), id);
  }

  // ---- who makes progress

  /** In state `w` the frame begins the upload `v` of room `id` or gives it its latest chunk. */
  ghost predicate Makes(cfg: Config, w: State, cid: nat, frame: Frame, id: Id, v: Upload) {
    && Serves(w, cid) && id in w.rooms
    && (var p, r := w.conns[cid].player.value, w.rooms[id];
        && w.players[p].room == Some(id) && r.persistent && r.owner == p
        && ( || (frame.body.RequestBody? && frame.body.request.BeginSession?
                 && (var q := frame.body.request;
                     && q.revision == r.revision && q.generation == r.generation && q.size <= cfg.maxSession
                     && v == Upload(q.request, p, r.generation, r.revision, seq(q.size, _ => 0), 0, w.now)))
             || (frame.body.BinaryBody? && r.upload.Some? && |frame.body.bytes| >= 22 && frame.body.bytes[0] == 2
                 && NextChunk(r.upload.value, p, frame.body.bytes) && v == Filled(r.upload.value, frame.body.bytes, w.now))))
  }

  ghost predicate SameOrMade(cfg: Config, w: State, t: State, cid: nat, frame: Frame, id: Id) {
    id in t.rooms && t.rooms[id].upload.Some? ==>
      || (id in w.rooms && t.rooms[id].upload == w.rooms[id].upload)
      || Makes(cfg, w, cid, frame, id, t.rooms[id].upload.value)
  }

  /** Uploads that are still open are as they were. */
  ghost predicate NoNewUploads(s: State, t: State, id: Id) {
    id in t.rooms && t.rooms[id].upload.Some? ==> id in s.rooms && t.rooms[id].upload == s.rooms[id].upload
  }

  lemma EnterUploads(cfg: Config, s: State, p: Id, x: Id, password: Option<Json>, io: Io, id: Id)
    requires p in s.players
    ensures NoNewUploads(s, Enter(cfg, s, p, x, password, io), id)
  {
    hide Refusal, IndexSet.Insert;
  }

  lemma CreateUploads(cfg: Config, s: State, p: Id, q: Request, io: Io, id: Id)
    requires p in s.players && q.CreateRoom? && q.id !in s.rooms
    ensures NoNewUploads(s, Create(cfg, s, p, q.id, q.info, q.max, q.password, q.fits, io), id)
  {
    hide Enter;
    var begun := s.(rooms := s.rooms[q.id := NewRoom(q.info, p, q.max, q.password, s.now)], issued := s.issued + {q.id});
    EnterUploads(cfg, begun, p, q.id, q.password, io, id);
  }

  lemma LeaveUploads(cfg: Config, s: State, p: Id, disconnected: bool, io: Io, id: Id)
    requires p in s.players
    ensures NoNewUploads(s, Leave(cfg, s, p, disconnected, io), id)
  {
    hide Depart;
    var out := s.(players := s.players[p := Outside(s.players[p])],
                  rooms := if disconnected then s.rooms else Unreserved(s.rooms, {p}));
    if s.players[p].room.Some? && s.players[p].room.value in s.rooms {
      DepartUploads(cfg, out, p, s.players[p].room.value, disconnected, io, id);
    }
  }

  lemma DepartUploads(cfg: Config, s: State, p: Id, x: Id, disconnected: bool, io: Io, id: Id)
    requires x in s.rooms
    ensures NoNewUploads(s, Depart(cfg, s, p, x, disconnected, io), id)
  {
    hide Quota.Evicted, Remaining, Dismissed;
  }

  lemma RequestUploads(cfg: Config, s: State, cid: nat, q: Request, io: Io, id: Id)
    requires Inv(s) && Serves(s, cid)
    ensures SameOrMade(cfg, s, InRoom(cfg, s, s.conns[cid].player.value, q, io), cid, Frame(0, RequestBody(q), io), id)
  {
    hide JobsAfter, Sessions.CommitVerdict, Sessions.Remember, Members, Clocked, WorldsOk, Paired, Seated, RoomOk;
    hide Update, Start, Notified;
    var p := s.conns[cid].player.value;
    UpdateUploads(cfg, q, s.now, p);
  }

  /** Settings, start and notifications leave uploads alone. */
  lemma UpdateUploads(cfg: Config, q: Request, now: nat, p: Id)
    ensures q.UpdateRoom? ==> forall r :: Update(r, p, q).upload == r.upload
    ensures q.StartGame? ==> forall r :: Start(cfg, r, p, q, now).upload == r.upload
    ensures q.Notify? ==> forall r :: Notified(cfg, r, p, q).upload == r.upload
  {
    hide Sessions.Remember;
  }

  lemma MakesAnyway(cfg: Config, w: State, t: State, cid: nat, a: Frame, b: Frame, id: Id)
    requires a.body == b.body && SameOrMade(cfg, w, t, cid, a, id)
    ensures SameOrMade(cfg, w, t, cid, b, id)
  {
  }

  lemma ChunkUploads(cfg: Config, s: State, cid: nat, frame: Frame, id: Id)
    requires Inv(s) && Serves(s, cid) && frame.body.BinaryBody?
    ensures SameOrMade(cfg, s, Binary(s, s.conns[cid].player.value, frame.body.bytes), cid, frame, id)
  {
    hide Bytes.Value, Members, Clocked, WorldsOk, Paired, Seated;
    if id in s.rooms {
      assert RoomOk(s.rooms[id]);
      if s.rooms[id].upload.Some? { BinaryDropsExactly(s, s.conns[cid].player.value, frame.body.bytes, id); }
    }
  }

  lemma DispatchUploads(cfg: Config, s: State, cid: nat, frame: Frame, id: Id)
    requires Inv(s) && Serves(s, cid) && Admissible(s, frame)
    ensures SameOrMade(cfg, s, Dispatch(cfg, s, cid, frame), cid, frame, id)
  {
    hide Create, Enter, Leave, InRoom, Binary, Core, Paired, Seated, Makes;
    var p := s.conns[cid].player.value;
    if frame.body.RequestBody? {
      var q, io := frame.body.request, frame.io;
      if q.CreateRoom? { CreateUploads(cfg, s, p, q, io, id); }
      else if q.EnterRoom? { EnterUploads(cfg, s, p, q.id, q.password, io, id); }
      else if q.LeaveRoom? { LeaveUploads(cfg, s, p, false, io, id); }
      else if !(q.OpenUdp? || q.CloseUdp? || q.Lookup? || q.Pong?) {
        RequestUploads(cfg, s, cid, q, io, id);
        MakesAnyway(cfg, s, InRoom(cfg, s, p, q, io), cid, Frame(0, RequestBody(q), io), frame, id);
      }
    } else if frame.body.BinaryBody? {
      ChunkUploads(cfg, s, cid, frame, id);
    }
  }

  // ---- one command

  lemma {:induction false} ReleasedUploads(cfg: Config, s: State, queue: seq<Delayed>, n: nat, id: Id) returns (m: nat)
    requires Inv(s) && DrainAdmissible(cfg, s, queue) && n <= Queue.Due(queue, s.now) <= |queue|
    requires id in Queue.Released(cfg, s, queue, n).rooms && Queue.Released(cfg, s, queue, n).rooms[id].upload.Some?
    ensures var v := Queue.Released(cfg, s, queue, n).rooms[id].upload;
      || (id in s.rooms && v == s.rooms[id].upload)
      || (m < n && QueueRuns.Runs(Queue.Released(cfg, s, queue, m), queue[m])
          && Makes(cfg, Discharged(Queue.Released(cfg, s, queue, m), queue[m]), queue[m].cid, queue[m].frame, id, v.value))
  {
    hide Inv, Release, Admissible, DrainAdmissible, Makes, QueueRuns.Runs;
    m := 0;
    if n > 0 {
      var t, d := Queue.Released(cfg, s, queue, n - 1), queue[n - 1];
      Sockets.ReleasedHolds(cfg, s, queue, n - 1);
      ReleasedAdmissible(cfg, s, queue, n - 1);
      ReleaseUploads(cfg, t, d, id);
      if id in t.rooms && Release(cfg, t, d).rooms[id].upload == t.rooms[id].upload {
        m := ReleasedUploads(cfg, s, queue, n - 1, id);
      } else {
        m := n - 1;
      }
    }
  }

  lemma ReleaseUploads(cfg: Config, s: State, d: Delayed, id: Id)
    requires Inv(s) && Admissible(s, d.frame) && id in Release(cfg, s, d).rooms && Release(cfg, s, d).rooms[id].upload.Some?
    ensures var v := Release(cfg, s, d).rooms[id].upload;
      || (id in s.rooms && v == s.rooms[id].upload)
      || (QueueRuns.Runs(s, d) && Makes(cfg, Discharged(s, d), d.cid, d.frame, id, v.value))
  {
    hide Core, Dispatch, Release, Admissible, Makes;
    if d.cid in s.conns {
      var w := Discharged(s, d);
      QueueRuns.RunsIsDispatch(cfg, s, d);
      if QueueRuns.Runs(s, d) {
        RunsServes(s, d);
        Preservation.OwnersHold(s, w.conns, s.delayed);
        SameAdmissible(s, w, d.frame);
        DispatchUploads(cfg, w, d.cid, d.frame, id);
      }
    } else {
      Opening.ReleaseNothing(cfg, s, d);
    }
  }

  lemma BindUploads(cfg: Config, s: State, cid: nat, key: Id, io: Io)
    requires cid in s.conns && key in s.players
    ensures Bind(cfg, s, cid, key, io).rooms == s.rooms
  {
  }

  lemma AuthenticateUploads(cfg: Config, s: State, cid: nat, c: Credentials, io: Io, id: Id)
    requires cid in s.conns
    ensures NoNewUploads(s, Authenticate(cfg, s, cid, c, io), id)
  {
    hide Expire, Leave, Bind;
    var known := Expire(cfg, s);
    if id in known.rooms { ExpireUploads(cfg, s, id); }
    ExpireIs(cfg, s);
    match c
    case Login(key, exact, password) =>
      var account := Account(cfg, known, key, exact, io);
      if account.Some? {
        var u := known.(players := known.players[key := account.value]);
        if InFixedGame(u, key) {
          LeaveUploads(cfg, u, key, true, io, id);
          LeaveMoves(cfg, u, key, true, io);
          BindUploads(cfg, Leave(cfg, u, key, true, io), cid, key, io);
        } else {
          BindUploads(cfg, u, cid, key, io);
        }
      }
    case Guest(name, secret) =>
      BindUploads(cfg, known.(players := known.players[name := Player(secret, None, None, None, Some(s.now), 0)]), cid, name, io);
  }

  lemma DisconnectUploads(cfg: Config, s: State, cid: nat, io: Io, id: Id)
    ensures NoNewUploads(s, Disconnect(cfg, s, cid, io), id)
  {
    hide Leave, WithoutFrames;
    if cid in s.conns && s.conns[cid].player.Some? && s.conns[cid].player.value in s.players {
      var p := s.conns[cid].player.value;
      var out := s.(delayed := WithoutFrames(s.delayed, cid), conns := s.conns - {cid});
      LeaveUploads(cfg, out.(players := s.players[p := s.players[p].(connection := None, offline := Some(s.now))]), p, true, io, id);
    }
  }

  /** An upload that is open after a command was open before, or the command handed over the frame that made it. */
  lemma StepUploads(cfg: Config, s: State, c: Step, id: Id) returns (cid: nat, frame: Frame, w: State)
    requires Inv(s) && Lawful(cfg, s, c) && Queue.Sorted(s.delayed)
    requires id in Next(cfg, s, c).rooms && Next(cfg, s, c).rooms[id].upload.Some?
    ensures var v := Next(cfg, s, c).rooms[id].upload;
      || (id in s.rooms && v == s.rooms[id].upload)
      || (Hands(cfg, s, c, cid, frame, w) && w.now == c.at && Makes(cfg, w, cid, frame, id, v.value))
  {
    hide Core, Inv, Rules.Sweep, Receive, Disconnect, Udp.Datagram, Makes, Queue.Sorted, Hands;
    var t := At(s, c.at);
    cid, frame, w := 0, Frame(0, Ping, Io(false, None, 0, false, false)), t;
    match c.action {
      case Connected(x) =>
      case Disconnected(x, io) => DisconnectUploads(cfg, t, x, io, id);
      case Received(x, f) => cid, frame, w := ReceivedUploads(cfg, s, c, id);
      case Arrived(bytes, source, nonce) => Safety.DatagramChangesSessions(cfg, t, bytes, source, nonce);
      case Closed(x) =>
      case Swept(order) => cid, frame, w := SweptUploads(cfg, s, c, id);
    }
  }

  lemma ReceivedUploads(cfg: Config, s: State, c: Step, id: Id) returns (cid: nat, frame: Frame, w: State)
    requires Inv(s) && Lawful(cfg, s, c) && c.action.Received?
    requires id in Next(cfg, s, c).rooms && Next(cfg, s, c).rooms[id].upload.Some?
    ensures var v := Next(cfg, s, c).rooms[id].upload;
      || (id in s.rooms && v == s.rooms[id].upload)
      || (Hands(cfg, s, c, cid, frame, w) && w.now == c.at && Makes(cfg, w, cid, frame, id, v.value))
  {
    hide Core, Receive, Dispatch, Authenticate, AtOnce, Introduces, Admissible, Makes, Counted;
    var t := At(s, c.at);
    cid, frame, w := c.action.cid, c.action.frame, t;
    ReceiveCases(cfg, t, cid, frame);
    if AtOnce(cfg, t, cid, frame) {
      QueueBudget.InvAt(s, c.at);
      CountedHolds(cfg, t, cid, frame);
      w := CountedState(t, cid);
      SameAdmissible(s, w, frame);
      DispatchUploads(cfg, w, cid, frame, id);
    } else if Introduces(cfg, t, cid, frame) {
      Opening.IntroducesHeard(cfg, t, cid, frame);
      AuthenticateUploads(cfg, CountedState(t, cid), cid, frame.body.credentials, frame.io, id);
    }
  }

  lemma SweptUploads(cfg: Config, s: State, c: Step, id: Id) returns (cid: nat, frame: Frame, w: State)
    requires Inv(s) && Lawful(cfg, s, c) && Queue.Sorted(s.delayed) && c.action.Swept?
    requires id in Next(cfg, s, c).rooms && Next(cfg, s, c).rooms[id].upload.Some?
    ensures var v := Next(cfg, s, c).rooms[id].upload;
      || (id in s.rooms && v == s.rooms[id].upload)
      || (Hands(cfg, s, c, cid, frame, w) && w.now == c.at && Makes(cfg, w, cid, frame, id, v.value))
  {
    hide Core, Queue.Released, KeepAll, Expire, Rules.Sweep, QueueRuns.Runs, Makes, DrainAdmissible, Queue.Sorted, Hands;
    var t := At(s, c.at);
    var start, n := t.(delayed := []), Queue.Due(s.delayed, c.at);
    cid, frame, w := 0, Frame(0, Ping, Io(false, None, 0, false, false)), t;
    SweepIs(cfg, t, c.action.order);
    var mid := Queue.Released(cfg, start, s.delayed, n);
    var tidy := mid.(delayed := s.delayed[n..], rooms := Tidied(mid.rooms, t.now));
    ExpireUploads(cfg, KeepAll(cfg, tidy, c.action.order), id);
    KeepAllUploads(cfg, tidy, c.action.order, id);
    Losses.StartHolds(s, c.at);
    var m := ReleasedUploads(cfg, start, s.delayed, n, id);
    if m < n && QueueRuns.Runs(Halfway(cfg, s, c, m), s.delayed[m]) {
      HandsReleased(cfg, s, c, m);
      cid, frame, w := s.delayed[m].cid, s.delayed[m].frame, Discharged(Halfway(cfg, s, c, m), s.delayed[m]);
      Queue.ReleasedKeepsQueue(cfg, start, s.delayed, m);
    }
  }

  // ---- runs

  /**
   * In every run an open upload goes back to the command that began it or gave it its latest chunk, and it is stamped with
   * the time of that command; it has been in the room as it is ever since.
   */
  lemma {:induction false} ProgressOrigin(cfg: Config, r: Run, j: nat, id: Id)
    returns (i: nat, cid: nat, frame: Frame, w: State)
    requires IsRun(cfg, r) && j < |r.states| && id in r.states[j].rooms && r.states[j].rooms[id].upload.Some?
    ensures var v := r.states[j].rooms[id].upload.value;
      && i < j && Hands(cfg, r.states[i], r.steps[i], cid, frame, w) && Makes(cfg, w, cid, frame, id, v)
      && v.at == r.steps[i].at
      && forall x :: i < x <= j ==> id in r.states[x].rooms && r.states[x].rooms[id].upload == Some(v)
  {
    hide Next, Lawful, Inv, Hands, Queue.Sorted, Makes;
    var s, c := r.states[j - 1], r.steps[j - 1];
    assert Lawful(cfg, s, c);
    Safety.RunHolds(cfg, r, j - 1);
    QueueRuns.RunSorted(cfg, r, j - 1);
    cid, frame, w := StepUploads(cfg, s, c, id);
    if id in s.rooms && r.states[j].rooms[id].upload == s.rooms[id].upload {
      i, cid, frame, w := ProgressOrigin(cfg, r, j - 1, id);
    } else {
      i := j - 1;
      MadeNow(cfg, w, cid, frame, id, r.states[j].rooms[id].upload.value);
    }
  }

  lemma MadeNow(cfg: Config, w: State, cid: nat, frame: Frame, id: Id, v: Upload)
    requires Makes(cfg, w, cid, frame, id, v)
    ensures v.at == w.now
  {
    hide NextChunk;
  }
}

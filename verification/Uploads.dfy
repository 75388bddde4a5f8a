/** What ends an open upload: exactly for each request, and over runs. */
module Uploads {
  import opened Model
  import opened Rules
  import opened Invariants
  import opened Relay
  import opened Presence
  import opened Handling
  import Sessions
  import Bytes
  import IndexSet
  import Quota
  import Queue
  import QueueRuns
  import QueueBudget
  import Safety
  import Preservation
  import History
  import Opening
  import Sockets
  import Udp

  /** Room `id` carries on the upload `u`: the same one, with what it had received and perhaps more. */
  predicate Carries(r: Room, u: Upload) {
    && r.upload.Some?
    && (var v := r.upload.value;
        && v.id == u.id && v.owner == u.owner && v.generation == u.generation && v.revision == u.revision
        && |v.bytes| == |u.bytes| && u.offset <= v.offset <= |v.bytes| && v.bytes[..u.offset] == u.bytes[..u.offset])
  }

  predicate Open(s: State, id: Id, u: Upload) {
    id in s.rooms && Carries(s.rooms[id], u)
  }

  lemma CarriesOn(a: Room, b: Room, u: Upload)
    requires a.upload.Some? && Carries(a, u) && Carries(b, a.upload.value)
    ensures Carries(b, u)
  {
    var v, w := a.upload.value, b.upload.value;
    assert w.bytes[..u.offset] == w.bytes[..v.offset][..u.offset] && v.bytes[..u.offset] == v.bytes[..v.offset][..u.offset];
  }

  lemma CarriesSame(a: Room, b: Room, u: Upload)
    requires Carries(a, u) && b.upload == a.upload
    ensures Carries(b, u)
  {
  }

  // ---- chunk frames

  /** Is the frame the owner's next chunk: its upload's identifier, the next offset, and within the size? */
  predicate NextChunk(u: Upload, p: Id, b: seq<byte>)
    requires |b| >= 22
  {
    p == u.owner && Bytes.Value(b[1..17]) == u.id && Bytes.Value(b[17..21]) == u.offset && u.offset + |b| - 21 <= |u.bytes|
  }

  /** A long enough chunk frame that is not the owner's next chunk. */
  predicate Stray(u: Upload, p: Id, b: seq<byte>) {
    |b| >= 22 && b[0] == 2 && !NextChunk(u, p, b)
  }

  /** The upload with the chunk in place. */
  function Filled(u: Upload, b: seq<byte>, now: nat): Upload
    requires |b| >= 22 && u.offset + |b| - 21 <= |u.bytes|
  {
    var end := u.offset + |b| - 21;
    u.(bytes := u.bytes[..u.offset] + b[21..] + u.bytes[end..], offset := end, at := now)
  }

  /**
   * A binary frame discards the open upload of a room exactly when its sender is in the room and it is a long enough
   * chunk frame but not the owner's next chunk; the owner's next chunk is put in place, and any other frame changes
   * nothing in the room. What was committed is never touched.
   */
  lemma BinaryDropsExactly(s: State, p: Id, b: seq<byte>, id: Id)
    requires Inv(s) && p in s.players && id in s.rooms && s.rooms[id].upload.Some?
    ensures var r, t, u := s.rooms[id], Binary(s, p, b), s.rooms[id].upload.value;
      && id in t.rooms
      && t.rooms[id] ==
           if s.players[p].room != Some(id) then r
           else if Stray(u, p, b) then r.(upload := None)
           else if |b| >= 22 && b[0] == 2 then r.(upload := Some(Filled(u, b, s.now)))
           else r
  {
    hide Bytes.Value, Members, Clocked, WorldsOk;
    assert RoomOk(s.rooms[id]);
  }

  lemma FilledCarries(r: Room, u: Upload, b: seq<byte>, now: nat)
    requires |b| >= 22 && u.offset + |b| - 21 <= |u.bytes|
    ensures Carries(r.(upload := Some(Filled(u, b, now))), u)
  {
    assert Filled(u, b, now).bytes[..u.offset] == u.bytes[..u.offset];
  }

  // ---- requests

  /** Does the request begin another upload, or the same one again after it received something? */
  predicate BeginsOver(cfg: Config, r: Room, u: Upload, p: Id, q: Request) {
    && q.BeginSession? && p == r.owner && q.revision == r.revision && q.generation == r.generation && q.size <= cfg.maxSession
    && !(q.request == u.id && q.size == |u.bytes| && u.offset == 0)
  }

  /** Does the frame of `p`, a member of room `id`, end the upload that is open there? */
  predicate Ends(cfg: Config, s: State, p: Id, frame: Frame, id: Id)
    requires id in s.rooms && s.rooms[id].upload.Some? && p in s.players
  {
    var r, u := s.rooms[id], s.rooms[id].upload.value;
    && s.players[p].room == Some(id)
    && ( || (frame.body.BinaryBody? && Stray(u, p, frame.body.bytes))
         || (frame.body.RequestBody? &&
               var q := frame.body.request;
               || (q.LeaveRoom? && p == u.owner)
               || BeginsOver(cfg, r, u, p, q)
               || (q.CommitSession? && Sessions.CommitVerdict(r, p, q.request, q.scheduled, q.immediate, frame.io.jobs).Revision?)))
  }

  lemma CarriesItself(r: Room)
    requires RoomOk(r) && r.upload.Some?
    ensures Carries(r, r.upload.value)
  {
  }

  /** A request inside the room. */
  lemma RequestEnds(cfg: Config, r: Room, p: Id, q: Request, io: Io, now: nat)
    requires RoomOk(r) && r.upload.Some?
    ensures var u := r.upload.value;
      Carries(RoomRequest(cfg, r, p, q, io, now), u) <==>
        !BeginsOver(cfg, r, u, p, q)
        && !(q.CommitSession? && Sessions.CommitVerdict(r, p, q.request, q.scheduled, q.immediate, io.jobs).Revision?)
  {
    hide Sessions.Complete, Sessions.Addressed, Sessions.Remember, IndexSet.Distinct;
    CarriesItself(r);
  }

  /** Others may come while an upload is open. */
  lemma EnterKeeps(cfg: Config, s: State, p: Id, x: Id, password: Option<Json>, io: Io, id: Id)
    requires p in s.players && id in s.rooms && s.rooms[id].active != []
    ensures var t := Enter(cfg, s, p, x, password, io); id in t.rooms && t.rooms[id].upload == s.rooms[id].upload
  {
    hide Refusal, Load;
  }

  lemma CreateKeeps(cfg: Config, s: State, p: Id, q: Request, io: Io, id: Id)
    requires p in s.players && q.CreateRoom? && q.id !in s.rooms && id in s.rooms && s.rooms[id].active != []
    ensures var t := Create(cfg, s, p, q.id, q.info, q.max, q.password, q.fits, io);
      id in t.rooms && t.rooms[id].upload == s.rooms[id].upload
  {
    hide Enter;
    var begun := s.(rooms := s.rooms[q.id := NewRoom(q.info, p, q.max, q.password, s.now)], issued := s.issued + {q.id});
    EnterKeeps(cfg, begun, p, q.id, q.password, io, id);
  }

  lemma KeepOthers(cfg: Config, s: State, x: Id, r: Room, io: Io, id: Id)
    requires id in s.rooms && id != x
    ensures var t := Keep(cfg, s, x, r, io); id in t.rooms && t.rooms[id] == s.rooms[id]
  {
  }

  lemma DepartOthers(cfg: Config, s: State, p: Id, x: Id, disconnected: bool, io: Io, id: Id)
    requires x in s.rooms && id in s.rooms && id != x
    ensures var t := Depart(cfg, s, p, x, disconnected, io); id in t.rooms && t.rooms[id] == s.rooms[id]
  {
    hide Keep, Without, Succeeded, Dismissed;
    var left := Without(s.rooms[x], p, disconnected);
    KeepOthers(cfg, Vacate(s, x, Dismissed(s.rooms[x], p)), x, left, io, id);
  }

  /** A departure ends the upload of the room exactly when its owner goes. */
  lemma DepartEnds(cfg: Config, s: State, p: Id, id: Id, disconnected: bool, io: Io)
    requires id in s.rooms && RoomOk(s.rooms[id]) && s.rooms[id].upload.Some? && p in s.rooms[id].active
    ensures var t := Depart(cfg, s, p, id, disconnected, io);
      if p == s.rooms[id].upload.value.owner then id !in t.rooms || t.rooms[id].upload.None?
      else id in t.rooms && t.rooms[id].upload == s.rooms[id].upload
  {
    hide Quota.Evicted, IndexSet.Remove, IndexSet.Distinct;
    var r := s.rooms[id];
    if p != r.upload.value.owner { assert r.upload.value.owner in Remaining(r, p); }
  }

  lemma LeaveEnds(cfg: Config, s: State, p: Id, disconnected: bool, io: Io, id: Id)
    requires Core(s) && p in s.players && id in s.rooms && s.rooms[id].upload.Some?
    ensures var t := Leave(cfg, s, p, disconnected, io);
      var u := s.rooms[id].upload.value;
      if s.players[p].room == Some(id) && p == u.owner then !Open(t, id, u)
      else id in t.rooms && t.rooms[id].upload == s.rooms[id].upload
  {
    hide Depart, Clocked;
    var out := s.(players := s.players[p := Outside(s.players[p])],
                  rooms := if disconnected then s.rooms else Unreserved(s.rooms, {p}));
    var home := s.players[p].room;
    if home.Some? {
      if home == Some(id) {
        StillOk(s.rooms[id], p);
        DepartEnds(cfg, out, p, id, disconnected, io);
      } else {
        DepartOthers(cfg, out, p, home.value, disconnected, io, id);
      }
    }
  }

  lemma StillOk(r: Room, p: Id)
    requires RoomOk(r)
    ensures RoomOk(r.(reservations := r.reservations - {p}))
  {
  }

  lemma MemberThere(s: State, id: Id)
    requires Core(s) && id in s.rooms && s.rooms[id].upload.Some?
    ensures RoomOk(s.rooms[id]) && s.rooms[id].active != []
  {
  }

  /**
   * A frame that is handed to the handlers ends the open upload of a room exactly when its sender is in the room and it
   * is a stray chunk, the owner's leaving, a new beginning by the owner, or an accepted commit.
   */
  lemma DispatchEndsExactly(cfg: Config, s: State, cid: nat, frame: Frame, id: Id)
    requires Inv(s) && Serves(s, cid) && Admissible(s, frame) && id in s.rooms && s.rooms[id].upload.Some?
    ensures Open(Dispatch(cfg, s, cid, frame), id, s.rooms[id].upload.value)
            <==> !Ends(cfg, s, s.conns[cid].player.value, frame, id)
  {
    hide Create, Enter, Leave, RoomRequest, Binary, Stray, RoomOk, Members, Clocked, WorldsOk, BeginsOver, Filled;
    hide Sessions.CommitVerdict, Carries, Paired, Seated;
    var p, r := s.conns[cid].player.value, s.rooms[id];
    MemberThere(s, id);
    CarriesItself(r);
    if frame.body.RequestBody? {
      var q, io := frame.body.request, frame.io;
      if q.CreateRoom? { CreateKeeps(cfg, s, p, q, io, id); }
      else if q.EnterRoom? { EnterKeeps(cfg, s, p, q.id, q.password, io, id); }
      else if q.LeaveRoom? { LeaveEnds(cfg, s, p, false, io, id); }
      HandledEnds(cfg, s, cid, p, q, io, id);
    } else if frame.body.BinaryBody? {
      BinaryDropsExactly(s, p, frame.body.bytes, id);
      BinaryEnds(s, p, frame.body.bytes, id);
    }
  }

  lemma BinaryEnds(s: State, p: Id, b: seq<byte>, id: Id)
    requires Inv(s) && p in s.players && id in s.rooms && s.rooms[id].upload.Some?
    ensures var u := s.rooms[id].upload.value;
      Open(Binary(s, p, b), id, u) <==> !(s.players[p].room == Some(id) && Stray(u, p, b))
  {
    hide Binary, Bytes.Value, Members, Clocked, WorldsOk;
    var r, u := s.rooms[id], s.rooms[id].upload.value;
    MemberThere(s, id);
    CarriesItself(r);
    BinaryDropsExactly(s, p, b, id);
    if |b| >= 22 && b[0] == 2 && !Stray(u, p, b) { FilledCarries(r, u, b, s.now); }
  }

  lemma HandledEnds(cfg: Config, s: State, cid: nat, p: Id, q: Request, io: Io, id: Id)
    requires Inv(s) && p in s.players && cid in s.conns && id in s.rooms && s.rooms[id].upload.Some?
    requires Carries(s.rooms[id], s.rooms[id].upload.value)
    requires (q.CreateRoom? || q.EnterRoom?) ==>
      var t := Handle(cfg, s, cid, p, q, io); id in t.rooms && t.rooms[id].upload == s.rooms[id].upload
    requires q.LeaveRoom? ==>
      var t := Handle(cfg, s, cid, p, q, io);
      if s.players[p].room == Some(id) && p == s.rooms[id].upload.value.owner then !Open(t, id, s.rooms[id].upload.value)
      else id in t.rooms && t.rooms[id].upload == s.rooms[id].upload
    ensures var u := s.rooms[id].upload.value;
      Open(Handle(cfg, s, cid, p, q, io), id, u) <==>
        !(s.players[p].room == Some(id)
          && ( || (q.LeaveRoom? && p == u.owner)
               || BeginsOver(cfg, s.rooms[id], u, p, q)
               || (q.CommitSession? && Sessions.CommitVerdict(s.rooms[id], p, q.request, q.scheduled, q.immediate, io.jobs).Revision?)))
  {
    hide Create, Enter, Leave, RoomRequest, RoomOk, Members, Clocked, WorldsOk, Sessions.CommitVerdict, JobsAfter;
    hide Paired, Seated;
    var t := Handle(cfg, s, cid, p, q, io);
    MemberThere(s, id);
    RequestEnds(cfg, s.rooms[id], p, q, io, s.now);
    if id in t.rooms && t.rooms[id].upload == s.rooms[id].upload {
      CarriesSame(s.rooms[id], t.rooms[id], s.rooms[id].upload.value);
    }
  }

  // ---- one command

  /** In state `w`, reached by handing frames over, the frame ends the upload `u`, which was carried on so far. */
  ghost predicate EndedBy(cfg: Config, w: State, cid: nat, frame: Frame, id: Id, u: Upload) {
    Serves(w, cid) && Open(w, id, u) && Ends(cfg, w, w.conns[cid].player.value, frame, id)
  }

  ghost predicate EndedByFrame(cfg: Config, s: State, c: Step, id: Id, u: Upload) {
    exists cid, frame, w :: Hands(cfg, s, c, cid, frame, w) && EndedBy(cfg, w, cid, frame, id, u)
  }

  /** When the sweep `c` had released its frames, the upload had not moved for half a minute. */
  ghost predicate Stalled(cfg: Config, s: State, c: Step, id: Id, u: Upload) {
    && Queue.Due(s.delayed, c.at) <= |s.delayed|
    && (var mid := Halfway(cfg, s, c, Queue.Due(s.delayed, c.at));
        Open(mid, id, u) && Minus(c.at, mid.rooms[id].upload.value.at) > STALLED)
  }

  /** Is it a login, with the right secret and in its own spelling, of the account `p`? */
  predicate MovesAccount(s: State, c: Credentials, p: Id) {
    c.Login? && c.exact && c.key == p && p in s.players && s.players[p].secret == c.password
  }

  /** The owner of the upload loses its socket, or moves to another one. */
  ghost predicate OwnerGoes(cfg: Config, s: State, c: Step, u: Upload) {
    || (c.action.Disconnected? && Serves(s, c.action.cid) && s.conns[c.action.cid].player == Some(u.owner))
    || (c.action.Received? && Introduces(cfg, At(s, c.at), c.action.cid, c.action.frame)
        && MovesAccount(s, c.action.frame.body.credentials, u.owner))
  }

  /** What can end the upload `u` of room `id`. */
  ghost predicate Ended(cfg: Config, s: State, c: Step, id: Id, u: Upload) {
    match c.action
    case Received(_, _) => EndedByFrame(cfg, s, c, id, u) || OwnerGoes(cfg, s, c, u)
    case Disconnected(_, _) => OwnerGoes(cfg, s, c, u)
    case Swept(_) => EndedByFrame(cfg, s, c, id, u) || Stalled(cfg, s, c, id, u)
    case _ => false
  }

  lemma OpenOn(s: State, t: State, id: Id, u: Upload)
    requires Open(s, id, u) && id in t.rooms && t.rooms[id].upload == s.rooms[id].upload
    ensures Open(t, id, u)
  {
    CarriesSame(s.rooms[id], t.rooms[id], u);
  }

  lemma DispatchKeeps(cfg: Config, w: State, cid: nat, frame: Frame, id: Id, u: Upload)
    requires Inv(w) && Serves(w, cid) && Admissible(w, frame) && Open(w, id, u)
    requires !EndedBy(cfg, w, cid, frame, id, u)
    ensures Open(Dispatch(cfg, w, cid, frame), id, u)
  {
    hide Inv, Dispatch, Admissible, Ends, Carries;
    assert w.rooms[id].upload.Some? by { CarriesSome(w.rooms[id], u); }
    DispatchEndsExactly(cfg, w, cid, frame, id);
    CarriesOn(w.rooms[id], Dispatch(cfg, w, cid, frame).rooms[id], u);
  }

  lemma CarriesSome(r: Room, u: Upload)
    requires Carries(r, u)
    ensures r.upload.Some? && r.upload.value.owner == u.owner
  {
  }

  lemma ExpireKeeps(cfg: Config, s: State, id: Id)
    requires id in s.rooms
    ensures id in Expire(cfg, s).rooms && Expire(cfg, s).rooms[id].upload == s.rooms[id].upload
    ensures Expire(cfg, s).rooms[id].active == s.rooms[id].active
    ensures forall p :: p in Expire(cfg, s).players ==> p in s.players && Expire(cfg, s).players[p] == s.players[p]
  {
  }

  /** Logging in on a new socket takes a player out of a fixed game, and so ends its upload; other logins end none. */
  lemma AuthenticateKeeps(cfg: Config, s: State, cid: nat, c: Credentials, io: Io, id: Id, u: Upload)
    requires Inv(s) && cid in s.conns && s.conns[cid].player.None? && !Displaces(cfg, s, c, io) && Open(s, id, u)
    requires !MovesAccount(s, c, u.owner)
    ensures Open(Authenticate(cfg, s, cid, c, io), id, u)
  {
    hide Inv, Expire, Leave, Carries, Displaces, Bind, TakeOver, LogIn;
    var known := Expire(cfg, s);
    ExpireKeeps(cfg, s, id);
    OpenOn(s, known, id, u);
    Preservation.ExpireHolds(cfg, s);
    ExpireIs(cfg, s);
    DisplacesLater(cfg, s, c, io);
    match c
    case Login(key, exact, password) => LogInKeeps(cfg, known, cid, key, exact, password, io, id, u);
    case Guest(name, secret) =>
      var t := known.(players := known.players[name := Player(secret, None, None, None, Some(s.now), 0)]);
      Preservation.BindIs(cfg, t, cid, name, io);
      var after := Authenticate(cfg, s, cid, c, io);
      assert after.rooms == known.rooms;
      OpenOn(known, after, id, u);
  }

  lemma DisplacesLater(cfg: Config, s: State, c: Credentials, io: Io)
    requires !Displaces(cfg, s, c, io)
    ensures !Displaces(cfg, Expire(cfg, s), c, io)
  {
  }

  lemma LogInKeeps(cfg: Config, s: State, cid: nat, key: Id, exact: bool, password: Json, io: Io, id: Id, u: Upload)
    requires Inv(s) && cid in s.conns && !Displaces(cfg, s, Credentials.Login(key, exact, password), io) && Open(s, id, u)
    requires !MovesAccount(s, Credentials.Login(key, exact, password), u.owner)
    ensures Open(LogIn(cfg, s, cid, key, exact, password, io), id, u)
  {
    hide Leave, Carries, Bind, Clocked, WorldsOk, RoomOk;
    var t := LogIn(cfg, s, cid, key, exact, password, io);
    var account := Account(cfg, s, key, exact, io);
    if account.Some? && account.value.secret == password {
      var known := s.(players := s.players[key := account.value]);
      if InFixedGame(known, key) {
        var left := Leave(cfg, known, key, true, io);
        assert known == s;
        assert s.rooms[id].upload.Some? by { CarriesSome(s.rooms[id], u); }
        assert key != s.rooms[id].upload.value.owner by { CarriesSome(s.rooms[id], u); }
        LeaveEnds(cfg, s, key, true, io, id);
        LeaveMoves(cfg, known, key, true, io);
        Preservation.BindIs(cfg, left, cid, key, io);
      } else {
        Preservation.BindIs(cfg, known, cid, key, io);
      }
    }
    OpenOn(s, t, id, u);
  }

  lemma DisconnectKeeps(cfg: Config, s: State, cid: nat, io: Io, id: Id, u: Upload)
    requires Inv(s) && Open(s, id, u) && !(Serves(s, cid) && s.conns[cid].player == Some(u.owner))
    ensures Open(Disconnect(cfg, s, cid, io), id, u)
  {
    hide Leave, Carries, Clocked, WorldsOk, RoomOk, WithoutFrames;
    var t := Disconnect(cfg, s, cid, io);
    if Serves(s, cid) {
      var p := s.conns[cid].player.value;
      var gone := s.(delayed := WithoutFrames(s.delayed, cid), conns := s.conns - {cid},
                     players := s.players[p := s.players[p].(connection := None, offline := Some(s.now))]);
      assert s.rooms[id].upload.Some? && p != s.rooms[id].upload.value.owner by { CarriesSome(s.rooms[id], u); }
      History.UnpluggedCore(s, gone, p, gone.players[p]);
      LeaveEnds(cfg, gone, p, true, io, id);
    }
    OpenOn(s, t, id, u);
  }

  /** While frames are released one after the other, the upload is carried on until one of them ends it. */
  lemma {:induction false} ReleasedKeeps(cfg: Config, s: State, queue: seq<Delayed>, n: nat, id: Id, u: Upload)
    returns (m: nat)
    requires Inv(s) && DrainAdmissible(cfg, s, queue) && n <= Queue.Due(queue, s.now) <= |queue| && Open(s, id, u)
    ensures Open(Queue.Released(cfg, s, queue, n), id, u)
            || (m < n && QueueRuns.Runs(Queue.Released(cfg, s, queue, m), queue[m])
                && EndedBy(cfg, Discharged(Queue.Released(cfg, s, queue, m), queue[m]), queue[m].cid, queue[m].frame, id, u))
  {
    hide Inv, Release, Dispatch, Admissible, DrainAdmissible, EndedBy, Open, QueueRuns.Runs;
    m := 0;
    if n > 0 {
      var t, d := Queue.Released(cfg, s, queue, n - 1), queue[n - 1];
      m := ReleasedKeeps(cfg, s, queue, n - 1, id, u);
      if Open(t, id, u) {
        m := n - 1;
        Sockets.ReleasedHolds(cfg, s, queue, n - 1);
        ReleasedAdmissible(cfg, s, queue, n - 1);
        ReleaseKeeps(cfg, t, d, id, u);
      }
    }
  }

  lemma ReleaseKeeps(cfg: Config, s: State, d: Delayed, id: Id, u: Upload)
    requires Inv(s) && Admissible(s, d.frame) && Open(s, id, u)
    ensures Open(Release(cfg, s, d), id, u)
            || (QueueRuns.Runs(s, d) && EndedBy(cfg, Discharged(s, d), d.cid, d.frame, id, u))
  {
    hide Core, Dispatch, Release, Admissible, EndedBy, Carries;
    if d.cid in s.conns {
      var w := Discharged(s, d);
      QueueRuns.RunsIsDispatch(cfg, s, d);
      OpenOn(s, w, id, u);
      if QueueRuns.Runs(s, d) && !EndedBy(cfg, w, d.cid, d.frame, id, u) {
        RunsServes(s, d);
        Preservation.OwnersHold(s, w.conns, s.delayed);
        SameAdmissible(s, w, d.frame);
        DispatchKeeps(cfg, w, d.cid, d.frame, id, u);
      }
    } else {
      Opening.ReleaseNothing(cfg, s, d);
    }
  }

  lemma {:induction false} KeepAllKeeps(cfg: Config, s: State, order: seq<(Id, Io)>, id: Id)
    requires id in s.rooms && s.rooms[id].active != []
    ensures var t := KeepAll(cfg, s, order); id in t.rooms && t.rooms[id] == s.rooms[id]
    decreases |order|
  {
    hide Keep;
    if order != [] {
      var (x, io) := order[0];
      if x in s.rooms && s.rooms[x].persistent && s.rooms[x].active == [] {
        KeepOthers(cfg, s.(rooms := s.rooms - {x}), x, s.rooms[x], io, id);
        KeepAllKeeps(cfg, Keep(cfg, s.(rooms := s.rooms - {x}), x, s.rooms[x], io), order[1..], id);
      } else {
        KeepAllKeeps(cfg, s, order[1..], id);
      }
    }
  }

  /** Keeping house ends only stalled uploads. */
  lemma HouseKeeps(cfg: Config, mid: State, tidy: State, order: seq<(Id, Io)>, now: nat, id: Id, u: Upload)
    requires Inv(mid) && Open(mid, id, u) && tidy == mid.(delayed := tidy.delayed, rooms := Tidied(mid.rooms, now))
    requires Minus(now, mid.rooms[id].upload.value.at) <= STALLED
    ensures Open(Expire(cfg, KeepAll(cfg, tidy, order)), id, u)
  {
    hide KeepAll, Expire, Carries, Members, Clocked, WorldsOk;
    assert mid.rooms[id].upload.Some? by { CarriesSome(mid.rooms[id], u); }
    MemberThere(mid, id);
    assert tidy.rooms[id] == mid.rooms[id];
    KeepAllKeeps(cfg, tidy, order, id);
    ExpireKeeps(cfg, KeepAll(cfg, tidy, order), id);
    OpenOn(mid, Expire(cfg, KeepAll(cfg, tidy, order)), id, u);
  }

  lemma HandsReleased(cfg: Config, s: State, c: Step, m: nat)
    requires c.action.Swept? && m < Queue.Due(s.delayed, c.at) <= |s.delayed|
    requires QueueRuns.Runs(Halfway(cfg, s, c, m), s.delayed[m])
    ensures var d := s.delayed[m];
      d.cid in Halfway(cfg, s, c, m).conns && Hands(cfg, s, c, d.cid, d.frame, Discharged(Halfway(cfg, s, c, m), d))
  {
    hide Halfway;
    var d := s.delayed[m];
    RunsServes(Halfway(cfg, s, c, m), d);
    assert HandsQueued(cfg, s, c, m, d.cid, d.frame, Discharged(Halfway(cfg, s, c, m), d));
  }

  lemma SweptKeeps(cfg: Config, s: State, c: Step, id: Id, u: Upload)
    requires Inv(At(s, c.at)) && Lawful(cfg, s, c) && Queue.Sorted(s.delayed) && c.action.Swept? && Open(s, id, u)
    requires !Ended(cfg, s, c, id, u)
    ensures Open(Next(cfg, s, c), id, u)
  {
    hide Core, Queue.Released, KeepAll, Expire, Rules.Sweep, Tidied, QueueRuns.Runs, EndedBy, Carries, DrainAdmissible;
    hide Queue.Sorted;
    var t := At(s, c.at);
    var start, n := t.(delayed := []), Queue.Due(s.delayed, c.at);
    SweepIs(cfg, t, c.action.order);
    var mid := Queue.Released(cfg, start, s.delayed, n);
    Preservation.OwnersHold(t, s.conns, []);
    var m := ReleasedKeeps(cfg, start, s.delayed, n, id, u);
    if m < n && QueueRuns.Runs(Halfway(cfg, s, c, m), s.delayed[m]) { HandsReleased(cfg, s, c, m); }
    Sockets.ReleasedHolds(cfg, start, s.delayed, n);
    HouseKeeps(cfg, mid, mid.(delayed := s.delayed[n..], rooms := Tidied(mid.rooms, t.now)), c.action.order, c.at, id, u);
  }

  lemma ReceivedKeeps(cfg: Config, s: State, c: Step, id: Id, u: Upload)
    requires Inv(At(s, c.at)) && Lawful(cfg, s, c) && c.action.Received? && Open(s, id, u)
    requires !Ended(cfg, s, c, id, u)
    ensures Open(Next(cfg, s, c), id, u)
  {
    hide Core, Rules.Receive, Dispatch, Authenticate, AtOnce, Admissible, EndedBy, Carries, Counted;
    var t, cid, frame := At(s, c.at), c.action.cid, c.action.frame;
    ReceiveCases(cfg, t, cid, frame);
    if AtOnce(cfg, t, cid, frame) {
      CountedHolds(cfg, t, cid, frame);
      var w := CountedState(t, cid);
      SameAdmissible(s, w, frame);
      OpenOn(s, w, id, u);
      assert Hands(cfg, s, c, cid, frame, w);
      DispatchKeeps(cfg, w, cid, frame, id, u);
    } else if Introduces(cfg, t, cid, frame) {
      CountedCalm(t, cid);
      Preservation.OwnersHold(t, CountedState(t, cid).conns, t.delayed);
      OpenOn(s, CountedState(t, cid), id, u);
      Undisplaced(cfg, t, cid, frame);
      AuthenticateKeeps(cfg, CountedState(t, cid), cid, frame.body.credentials, frame.io, id, u);
    } else {
      OpenOn(s, Next(cfg, s, c), id, u);
    }
  }

  lemma Undisplaced(cfg: Config, s: State, cid: nat, frame: Frame)
    requires Introduces(cfg, s, cid, frame) && !Displacing(cfg, s, cid, frame)
    ensures !Displaces(cfg, CountedState(s, cid), frame.body.credentials, frame.io)
  {
  }

  /** A command carries an open upload on unless it ends it. */
  lemma StepKeeps(cfg: Config, s: State, c: Step, id: Id, u: Upload)
    requires Inv(s) && Lawful(cfg, s, c) && Queue.Sorted(s.delayed) && Open(s, id, u) && !Ended(cfg, s, c, id, u)
    ensures Open(Next(cfg, s, c), id, u)
  {
    hide Core, Inv, Rules.Sweep, Rules.Receive, Rules.Disconnect, Udp.Datagram, EndedByFrame, Carries, Queue.Sorted, Stalled;
    var t := At(s, c.at);
    QueueBudget.InvAt(s, c.at);
    OpenOn(s, t, id, u);
    match c.action {
      case Connected(cid) => OpenOn(t, Next(cfg, s, c), id, u);
      case Disconnected(cid, io) => DisconnectKeeps(cfg, t, cid, io, id, u);
      case Received(cid, frame) => ReceivedKeeps(cfg, s, c, id, u);
      case Arrived(bytes, source, nonce) =>
        Safety.DatagramChangesSessions(cfg, t, bytes, source, nonce);
        OpenOn(t, Next(cfg, s, c), id, u);
      case Closed(cid) => OpenOn(t, Next(cfg, s, c), id, u);
      case Swept(order) => SweptKeeps(cfg, s, c, id, u);
    }
  }

  // ---- runs

  /**
   * In every run an upload that is open in one state is still open in any later one - the same upload of the same owner,
   * generation and revision, with every byte it had received - unless a command in between ended it: a frame that ran
   * and was a stray chunk, the owner's leaving, a new beginning by the owner or a commit; the owner's losing its socket
   * or moving to another; or half a minute without progress.
   */
  lemma {:induction false} UploadSurvives(cfg: Config, r: Run, i: nat, j: nat, id: Id, u: Upload)
    requires IsRun(cfg, r) && i <= j < |r.states| && Open(r.states[i], id, u)
    requires forall k :: i <= k < j ==> !Ended(cfg, r.states[k], r.steps[k], id, u)
    ensures Open(r.states[j], id, u)
    decreases j
  {
    hide Next, Lawful, Inv, Open, Ended;
    if i < j {
      UploadSurvives(cfg, r, i, j - 1, id, u);
      Safety.RunHolds(cfg, r, j - 1);
      QueueRuns.RunSorted(cfg, r, j - 1);
      assert Lawful(cfg, r.states[j - 1], r.steps[j - 1]);
      StepKeeps(cfg, r.states[j - 1], r.steps[j - 1], id, u);
    }
  }
}

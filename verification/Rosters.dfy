/** Every run, whether or not saves succeed: files are earlier versions of rooms, and what a start settles stays so. */
module Rosters {
  import opened Model
  import opened Rules
  import opened Invariants
  import opened Relay
  import opened Worlds
  import Sessions
  import Safety
  import Udp
  import History
  import Preservation
  import Presence
  import QueueBudget

  /** What the start settled is as it was. */
  predicate Fixed(a: Room, b: Room) {
    a.started ==>
      && b.started && b.fixed == a.fixed && b.migration == a.migration && b.persistent == a.persistent
      && b.start == a.start && b.max == a.max && b.players == a.players
  }

  /** `b` may be a later version of `a`: as histories go, and with only its metadata and events free once it started. */
  predicate Later(a: Room, b: Room) {
    Evolves(a, b) && (a.started ==> b.info == a.info.(meta := b.info.meta) && b.password == a.password)
  }

  lemma LaterOn(a: Room, b: Room, c: Room)
    requires Later(a, b) && Later(b, c)
    ensures Later(a, c)
  {
  }

  lemma LaterIsFixed(a: Room, b: Room)
    requires Later(a, b)
    ensures Fixed(a, b) && (a.persistent ==> b.persistent)
    ensures a.started ==> Fixed(b, a)
  {
  }

  /** A room in memory is a later version of its file. */
  ghost predicate Agree(s: State) {
    forall id :: id in s.rooms && id in s.disk && s.disk[id].world.Some? ==>
      s.rooms[id].persistent && Later(FromWorld(s.disk[id].world.value), s.rooms[id])
  }

  ghost predicate Orderly(s: State) {
    && s.rooms.Keys <= s.issued && s.disk.Keys <= s.issued
    && Agree(s)
  }

  /** Rooms that are still there kept what was settled, and nothing that was gone came back. */
  ghost predicate Settles(s: State, t: State) {
    && s.issued <= t.issued
    && forall id :: id in s.issued ==>
         && (Look(s, id).None? ==> Look(t, id).None?)
         && (Look(s, id).Some? && Look(t, id).Some? ==> Fixed(Look(s, id).value, Look(t, id).value))
  }

  ghost predicate Goes(s: State, t: State) {
    Settles(s, t) && Orderly(t)
  }

  lemma FixedOn(a: Room, b: Room, c: Room)
    requires Fixed(a, b) && Fixed(b, c)
    ensures Fixed(a, c)
  {
  }

  lemma GoesOn(s: State, t: State, u: State)
    requires Goes(s, t) && Goes(t, u)
    ensures Goes(s, u)
  {
    hide Look, Orderly, Fixed;
    forall id | id in s.issued && Look(s, id).Some? && Look(u, id).Some? ensures Fixed(Look(s, id).value, Look(u, id).value) {
      assert Look(t, id).Some?;
      FixedOn(Look(s, id).value, Look(t, id).value, Look(u, id).value);
    }
  }

  // ---- the moves that commands are made of

  lemma Same(s: State, t: State)
    requires Orderly(s) && t.rooms == s.rooms && t.disk == s.disk && s.issued <= t.issued
    ensures Goes(s, t)
  {
  }

  /** Rooms in memory change in place. */
  lemma InPlace(s: State, t: State)
    requires Orderly(s) && t.rooms.Keys == s.rooms.Keys && t.disk == s.disk && t.issued == s.issued
    requires forall id :: id in s.rooms ==> Later(s.rooms[id], t.rooms[id])
    ensures Goes(s, t)
  {
    hide Later, Fixed, Look;
    forall id | id in t.rooms && id in t.disk && t.disk[id].world.Some?
      ensures t.rooms[id].persistent && Later(FromWorld(t.disk[id].world.value), t.rooms[id])
    {
      assert id in s.rooms;
      LaterIsFixed(s.rooms[id], t.rooms[id]);
      LaterOn(FromWorld(t.disk[id].world.value), s.rooms[id], t.rooms[id]);
    }
    forall id | id in s.issued
      ensures (Look(s, id).None? ==> Look(t, id).None?)
      ensures (Look(s, id).Some? && Look(t, id).Some? ==> Fixed(Look(s, id).value, Look(t, id).value))
    {
      assert id in t.rooms <==> id in s.rooms;
      LooksInPlace(s, t, id);
    }
  }

  lemma LooksInPlace(s: State, t: State, id: Id)
    requires t.rooms.Keys == s.rooms.Keys && t.disk == s.disk && (id in s.rooms ==> Later(s.rooms[id], t.rooms[id]))
    ensures (Look(s, id).None? ==> Look(t, id).None?)
    ensures (Look(s, id).Some? && Look(t, id).Some? ==> Fixed(Look(s, id).value, Look(t, id).value))
  {
    assert id in t.rooms <==> id in s.rooms;
  }

  lemma LaterSelf(r: Room)
    ensures Later(r, r)
  {
  }

  lemma OneInPlace(s: State, t: State, id: Id, r: Room)
    requires Orderly(s) && id in s.rooms && Later(s.rooms[id], r)
    requires t.rooms == s.rooms[id := r] && t.disk == s.disk && t.issued == s.issued
    ensures Goes(s, t)
  {
    hide Later, Goes, Orderly;
    forall x | x in s.rooms ensures Later(s.rooms[x], t.rooms[x]) { LaterSelf(s.rooms[x]); }
    InPlace(s, t);
  }

  /** A room goes from memory; its file, if it has one, shows. */
  lemma Dropped(s: State, t: State, id: Id)
    requires Orderly(s) && id in s.rooms && t.rooms == s.rooms - {id} && t.disk == s.disk && t.issued == s.issued
    ensures Goes(s, t)
  {
    hide Later, Fixed;
    forall x | x in s.issued && x != id ensures Look(t, x) == Look(s, x) {}
    if Look(t, id).Some? { LaterIsFixed(Look(t, id).value, s.rooms[id]); }
    forall x ensures Look(s, x).None? || Fixed(Look(s, x).value, Look(s, x).value) { FixedSelf(Look(s, x)); }
  }

  lemma FixedSelf(r: Option<Room>)
    ensures r.Some? ==> Fixed(r.value, r.value)
  {
  }

  /** A world comes from disk into memory. */
  lemma Loaded(s: State, t: State, id: Id, r: Room)
    requires Orderly(s) && id !in s.rooms && id in s.disk && s.disk[id].world.Some?
    requires Later(FromWorld(s.disk[id].world.value), r)
    requires t.rooms == s.rooms[id := r] && t.disk == s.disk && t.issued == s.issued
    ensures Goes(s, t)
  {
    hide Later, Fixed;
    forall x | x in s.issued && x != id ensures Look(t, x) == Look(s, x) {}
    LaterIsFixed(FromWorld(s.disk[id].world.value), r);
    forall x ensures Look(s, x).None? || Fixed(Look(s, x).value, Look(s, x).value) { FixedSelf(Look(s, x)); }
  }

  lemma New(s: State, t: State, id: Id, r: Room)
    requires Orderly(s) && id !in s.issued && t.rooms == s.rooms[id := r] && t.disk == s.disk
    requires t.issued == s.issued + {id}
    ensures Goes(s, t)
  {
    forall x | x in s.issued ensures Look(t, x) == Look(s, x) {}
  }

  /** A room goes to disk, or stays because saving failed, and the quota takes others from disk. */
  lemma Kept(cfg: Config, s: State, out: State, id: Id, left: Room, io: Io)
    requires Orderly(s) && id in s.rooms && Later(s.rooms[id], left) && s.rooms[id].started && s.rooms[id].fixed
    requires s.rooms[id].migration && left.persistent
    requires s.rooms[id].persistent
    requires out.rooms == s.rooms - {id} && out.disk == s.disk && out.issued == s.issued
    ensures Goes(s, Keep(cfg, out, id, left, io))
  {
    var t := Keep(cfg, out, id, left, io);
    if left.active == [] && io.save.Some? {
      var disk := s.disk[id := Saved(left, io.save.value)];
      var mid := out.(disk := disk);
      assert Fixed(s.rooms[id], FromWorld(ToWorld(left)));
      Stored(s, mid, id, left, io.save.value);
      assert t.disk.Keys <= disk.Keys && forall x :: x in t.disk ==> t.disk[x] == disk[x];
      Evicted(mid, t);
      GoesOn(s, mid, t);
    } else {
      assert t.rooms == s.rooms[id := left];
      OneInPlace(s, t, id, left);
    }
  }

  lemma Stored(s: State, t: State, id: Id, left: Room, header: nat)
    requires Orderly(s) && id in s.rooms && Fixed(s.rooms[id], FromWorld(ToWorld(left)))
    requires t.rooms == s.rooms - {id} && t.disk == s.disk[id := Saved(left, header)] && t.issued == s.issued
    ensures Goes(s, t)
  {
    forall x | x in s.issued && x != id ensures Look(t, x) == Look(s, x) {}
  }

  lemma Evicted(s: State, t: State)
    requires Orderly(s) && t.rooms == s.rooms && t.issued == s.issued
    requires t.disk.Keys <= s.disk.Keys && forall x :: x in t.disk ==> t.disk[x] == s.disk[x]
    ensures Goes(s, t)
  {
    forall x | x in s.issued ensures Look(t, x) == Look(s, x) || Look(t, x).None? {}
  }

  // ---- operations

  lemma JoinedLater(r: Room, p: Id)
    ensures Later(r, Joined(r, p)) && Later(r, r)
  {
  }

  lemma EnterGoes(cfg: Config, s: State, p: Id, id: Id, password: Option<Json>, io: Io)
    requires Orderly(s) && p in s.players
    ensures Goes(s, Enter(cfg, s, p, id, password, io))
  {
    hide Orderly, Refusal, Goes, Later, Joined, Inside;
    var t := Enter(cfg, s, p, id, password, io);
    var loaded := if id in s.rooms then Missing else Load(cfg, s.disk, id, io.readable);
    if s.players[p].room.Some? || (id !in s.rooms && !loaded.Found?) {
      Same(s, t);
    } else {
      var r := if id in s.rooms then s.rooms[id] else loaded.room;
      JoinedLater(r, p);
      if Refusal(r, p, password).None? {
        if id in s.rooms { OneInPlace(s, t, id, Joined(r, p)); } else { Loaded(s, t, id, Joined(r, p)); }
      } else if r.active == [] && r.persistent {
        if id in s.rooms { Dropped(s, t, id); } else { assert t.rooms == s.rooms; Same(s, t); }
      } else {
        assert t.rooms == s.rooms[id := r];
        if id in s.rooms { OneInPlace(s, t, id, r); } else { Loaded(s, t, id, r); }
      }
    }
  }

  lemma LeftLater(r: Room, p: Id, disconnected: bool)
    requires RoomOk(r)
    ensures var left := Without(r, p, disconnected);
      && Later(r, left) && Later(r, Succeeded(left, p))
      && left.persistent == r.persistent
      && (left.persistent ==> r.started && r.fixed && r.migration)
  {
  }

  lemma DepartGoes(cfg: Config, s: State, out: State, p: Id, id: Id, disconnected: bool, io: Io)
    requires Orderly(s) && id in s.rooms && RoomOk(s.rooms[id])
    requires out.rooms == s.rooms && out.disk == s.disk && out.issued == s.issued
    ensures Goes(s, Depart(cfg, out, p, id, disconnected, io))
  {
    var left := Without(s.rooms[id], p, disconnected);
    var gone := Vacate(out, id, Dismissed(s.rooms[id], p));
    var t := Depart(cfg, out, p, id, disconnected, io);
    LeftLater(s.rooms[id], p, disconnected);
    hide Orderly, RoomOk, Later, Without, Succeeded, Dismissed, Keep, Goes;
    if left.active != [] {
      assert t.rooms == s.rooms[id := Succeeded(left, p)];
      OneInPlace(s, t, id, Succeeded(left, p));
    } else if left.persistent {
      Kept(cfg, s, gone, id, left, io);
    } else {
      Dropped(s, t, id);
    }
  }

  lemma UnreservedGoes(s: State, gone: set<Id>)
    requires Orderly(s)
    ensures Goes(s, s.(rooms := Unreserved(s.rooms, gone)))
  {
    InPlace(s, s.(rooms := Unreserved(s.rooms, gone)));
  }

  lemma LeaveGoes(cfg: Config, s: State, p: Id, disconnected: bool, io: Io)
    requires Orderly(s) && p in s.players && RoomsOk(s.rooms)
    ensures Goes(s, Leave(cfg, s, p, disconnected, io))
  {
    var u := s.(rooms := if disconnected then s.rooms else Unreserved(s.rooms, {p}));
    if disconnected { Same(s, u); } else { UnreservedGoes(s, {p}); }
    var out := u.(players := s.players[p := Outside(s.players[p])]);
    if s.players[p].room.Some? && s.players[p].room.value in s.rooms {
      var id := s.players[p].room.value;
      assert RoomOk(s.rooms[id]);
      assert RoomOk(u.rooms[id]) by { UnreservedOk(s.rooms[id], {p}); }
      DepartGoes(cfg, u, out, p, id, disconnected, io);
    } else {
      Same(u, out);
    }
    hide Orderly, Goes, RoomOk, Depart;
    GoesOn(s, u, Leave(cfg, s, p, disconnected, io));
  }

  lemma UnreservedOk(r: Room, gone: set<Id>)
    requires RoomOk(r)
    ensures RoomOk(r.(reservations := r.reservations - gone))
  {
  }

  lemma RequestLater(cfg: Config, r: Room, p: Id, q: Request, io: Io, now: nat)
    requires RoomOk(r)
    ensures Later(r, RoomRequest(cfg, r, p, q, io, now))
  {
  }

  lemma InRoomGoes(cfg: Config, s: State, p: Id, q: Request, io: Io)
    requires Orderly(s) && p in s.players && RoomsOk(s.rooms)
    ensures Goes(s, InRoom(cfg, s, p, q, io))
  {
    hide Orderly, Goes, RoomOk, RoomRequest, Later;
    var t := InRoom(cfg, s, p, q, io);
    if s.players[p].room.Some? && s.players[p].room.value in s.rooms {
      var id := s.players[p].room.value;
      RequestLater(cfg, s.rooms[id], p, q, io, s.now);
      OneInPlace(s, t, id, RoomRequest(cfg, s.rooms[id], p, q, io, s.now));
    } else {
      Same(s, t);
    }
  }

  lemma CreateGoes(cfg: Config, s: State, p: Id, q: Request, io: Io)
    requires Orderly(s) && p in s.players && q.CreateRoom? && q.id !in s.issued
    ensures Goes(s, Create(cfg, s, p, q.id, q.info, q.max, q.password, q.fits, io))
  {
    hide Orderly, Goes, Enter;
    var t := Create(cfg, s, p, q.id, q.info, q.max, q.password, q.fits, io);
    if s.players[p].room.Some? || |s.rooms| >= cfg.maxRooms || !q.fits {
      Same(s, t);
    } else {
      var blank := NewRoom(q.info, p, q.max, q.password, s.now);
      var begun := s.(rooms := s.rooms[q.id := blank], issued := s.issued + {q.id});
      New(s, begun, q.id, blank);
      assert Orderly(begun) by { GoesOrderly(s, begun); }
      EnterGoes(cfg, begun, p, q.id, q.password, io);
      GoesOn(s, begun, t);
    }
  }

  lemma GoesOrderly(s: State, t: State)
    requires Goes(s, t)
    ensures Orderly(t)
  {
  }

  lemma HandleGoes(cfg: Config, s: State, cid: nat, p: Id, q: Request, io: Io)
    requires Orderly(s) && p in s.players && cid in s.conns && RoomsOk(s.rooms) && (q.CreateRoom? ==> q.id !in s.issued)
    ensures Goes(s, Handle(cfg, s, cid, p, q, io))
  {
    hide Orderly, Goes, RoomOk, Create, Enter, Leave, InRoom;
    var t := Handle(cfg, s, cid, p, q, io);
    if q.CreateRoom? { CreateGoes(cfg, s, p, q, io); }
    else if q.EnterRoom? { EnterGoes(cfg, s, p, q.id, q.password, io); }
    else if q.LeaveRoom? { LeaveGoes(cfg, s, p, false, io); }
    else if q.OpenUdp? || q.CloseUdp? || q.Lookup? || q.Pong? { Same(s, t); }
    else { InRoomGoes(cfg, s, p, q, io); }
  }

  lemma ChunkLater(r: Room, p: Id, b: seq<byte>, now: nat)
    ensures Later(r, Sessions.Chunk(r, p, b, now).0)
  {
    History.ChunkTouchesUpload(r, p, b, now);
    hide Sessions.Chunk;
  }

  lemma DispatchGoes(cfg: Config, s: State, cid: nat, frame: Frame)
    requires Inv(s) && Orderly(s) && Admissible(s, frame)
    ensures Goes(s, Dispatch(cfg, s, cid, frame))
  {
    hide Orderly, Goes, RoomOk, Handle, Sessions.Chunk, Later;
    var t := Dispatch(cfg, s, cid, frame);
    if cid in s.conns && s.conns[cid].player.Some? && s.conns[cid].player.value in s.players {
      var p := s.conns[cid].player.value;
      if frame.body.RequestBody? {
        HandleGoes(cfg, s, cid, p, frame.body.request, frame.io);
      } else if t.rooms == s.rooms {
        Same(s, t);
      } else {
        var id := s.players[p].room.value;
        ChunkLater(s.rooms[id], p, frame.body.bytes, s.now);
        OneInPlace(s, t, id, Sessions.Chunk(s.rooms[id], p, frame.body.bytes, s.now).0);
      }
    } else {
      Same(s, t);
    }
  }

  lemma ExpireGoes(cfg: Config, s: State)
    requires Orderly(s)
    ensures Goes(s, Expire(cfg, s))
  {
    hide Orderly, Goes;
    var gone := set p | p in s.players && Expired(cfg, s, p);
    var u := s.(rooms := Unreserved(s.rooms, gone));
    UnreservedGoes(s, gone);
    GoesOrderly(s, u);
    Same(u, Expire(cfg, s));
    GoesOn(s, u, Expire(cfg, s));
  }

  lemma TakeOverGoes(cfg: Config, s: State, cid: nat, key: Id, io: Io)
    requires Orderly(s) && RoomsOk(s.rooms) && cid in s.conns && key in s.players
    ensures Goes(s, TakeOver(cfg, s, cid, key, io))
  {
    hide Orderly, Goes, Leave, RoomOk;
    var t := TakeOver(cfg, s, cid, key, io);
    if InFixedGame(s, key) {
      LeaveGoes(cfg, s, key, true, io);
      LeaveMoves(cfg, s, key, true, io);
      var left := Leave(cfg, s, key, true, io);
      GoesOrderly(s, left);
      Preservation.BindIs(cfg, left, cid, key, io);
      Same(left, t);
      GoesOn(s, left, t);
    } else {
      Preservation.BindIs(cfg, s, cid, key, io);
      Same(s, t);
    }
  }

  lemma AuthenticateGoes(cfg: Config, s: State, cid: nat, c: Credentials, io: Io)
    requires Orderly(s) && RoomsOk(s.rooms) && cid in s.conns
    ensures Goes(s, Authenticate(cfg, s, cid, c, io))
  {
    hide Orderly, Goes, TakeOver, Bind, Expire, Account, RoomOk;
    var known, t := Expire(cfg, s), Authenticate(cfg, s, cid, c, io);
    ExpireGoes(cfg, s);
    ExpireRooms(cfg, s);
    GoesOrderly(s, known);
    match c {
      case Login(key, exact, password) =>
        var account := Account(cfg, known, key, exact, io);
        if t == TakeOverAs(cfg, known, cid, key, account, io) && account.Some? {
          var in' := known.(players := known.players[key := account.value]);
          Same(known, in');
          GoesOrderly(known, in');
          TakeOverGoes(cfg, in', cid, key, io);
          GoesOn(known, in', t);
        } else {
          Same(known, t);
        }
      case Guest(id, secret) =>
        var in' := known.(players := known.players[id := Player(secret, None, None, None, Some(s.now), 0)]);
        Preservation.BindIs(cfg, in', cid, id, io);
        Same(known, t);
    }
    GoesOn(s, known, t);
  }

  /** The state after a login that found `account`. */
  ghost function TakeOverAs(cfg: Config, s: State, cid: nat, key: Id, account: Option<Player>, io: Io): State
    requires cid in s.conns
  {
    if account.None? then s else TakeOver(cfg, s.(players := s.players[key := account.value]), cid, key, io)
  }

  lemma ExpireRooms(cfg: Config, s: State)
    requires RoomsOk(s.rooms)
    ensures RoomsOk(Expire(cfg, s).rooms) && Expire(cfg, s).conns == s.conns
  {
    var t := Expire(cfg, s);
    forall id | id in t.rooms ensures RoomOk(t.rooms[id]) {
      UnreservedOk(s.rooms[id], set p | p in s.players && Expired(cfg, s, p));
    }
  }

  lemma DisconnectGoes(cfg: Config, s: State, cid: nat, io: Io)
    requires Orderly(s) && RoomsOk(s.rooms)
    ensures Goes(s, Disconnect(cfg, s, cid, io))
  {
    hide Orderly, Goes, Leave, RoomOk, WithoutFrames;
    var t := Disconnect(cfg, s, cid, io);
    if cid in s.conns && s.conns[cid].player.Some? && s.conns[cid].player.value in s.players
       && s.players[s.conns[cid].player.value].connection == Some(cid) {
      var p := s.conns[cid].player.value;
      var gone := s.(delayed := WithoutFrames(s.delayed, cid), conns := s.conns - {cid},
                     players := s.players[p := s.players[p].(connection := None, offline := Some(s.now))]);
      Same(s, gone);
      GoesOrderly(s, gone);
      LeaveGoes(cfg, gone, p, true, io);
      GoesOn(s, gone, t);
    } else {
      Same(s, t);
    }
  }

  lemma AcceptGoes(cfg: Config, s: State, cid: nat, frame: Frame)
    requires Inv(s) && Orderly(s) && Admissible(s, frame) && cid in s.conns && Current(s, cid)
    ensures Goes(s, Accept(cfg, s, cid, frame))
  {
    hide Orderly, Goes, Dispatch, Inv, Waiting;
    if cfg.delay == 0 || frame.body == RequestBody(Pong) { DispatchGoes(cfg, s, cid, frame); } else { Same(s, Accept(cfg, s, cid, frame)); }
  }

  lemma ProcessGoes(cfg: Config, s: State, cid: nat, frame: Frame)
    requires Inv(s) && Orderly(s) && Admissible(s, frame) && cid in s.conns
    requires (s.conns[cid].player.Some? ==> Current(s, cid))
    ensures Goes(s, Process(cfg, s, cid, frame))
  {
    hide Orderly, Goes, Authenticate, Accept, Inv;
    Same(s, s);
    Same(s, Closing(s, cid));
    CoreRooms(s);
    if s.conns[cid].player.None? {
      if frame.body.AuthBody? { AuthenticateGoes(cfg, s, cid, frame.body.credentials, frame.io); }
    } else {
      AcceptGoes(cfg, s, cid, frame);
    }
  }

  lemma ReceiveGoes(cfg: Config, s: State, cid: nat, frame: Frame)
    requires Inv(s) && Orderly(s) && Admissible(s, frame)
    ensures Goes(s, Receive(cfg, s, cid, frame))
  {
    hide Orderly, Goes, Process, Core;
    Same(s, s);
    if cid in s.conns && (s.conns[cid].player.Some? ==> Current(s, cid)) {
      var out := s.(conns := s.conns[cid := Counted(s.conns[cid], s.now)]);
      Same(s, out);
      GoesOrderly(s, out);
      Same(s, Closing(out, cid));
      Preservation.OwnersHold(s, out.conns, s.delayed);
      ProcessGoes(cfg, out, cid, frame);
      GoesOn(s, out, Process(cfg, out, cid, frame));
    }
  }

  lemma CoreRooms(s: State)
    requires Inv(s)
    ensures RoomsOk(s.rooms)
  {
  }

  lemma ReleaseGoes(cfg: Config, s: State, d: Delayed)
    requires Inv(s) && Orderly(s) && Admissible(s, d.frame)
    ensures Goes(s, Release(cfg, s, d))
  {
    hide Orderly, Goes, Dispatch, Core;
    var t := Release(cfg, s, d);
    if d.cid in s.conns {
      var out := Presence.Discharged(s, d);
      Same(s, out);
      GoesOrderly(s, out);
      Preservation.OwnersHold(s, out.conns, s.delayed);
      DispatchGoes(cfg, out, d.cid, d.frame);
      GoesOn(s, out, Dispatch(cfg, out, d.cid, d.frame));
    } else {
      Same(s, t);
    }
  }

  lemma {:induction false} DrainGoes(cfg: Config, s: State, queue: seq<Delayed>)
    requires Inv(s) && Orderly(s) && DrainAdmissible(cfg, s, queue)
    ensures Goes(s, Drain(cfg, s, queue))
    decreases |queue|
  {
    hide Orderly, Goes, Release, Core;
    if queue == [] {
      Same(s, s);
    } else {
      var u := if queue[0].at > s.now then s.(delayed := s.delayed + [queue[0]]) else Release(cfg, s, queue[0]);
      if queue[0].at > s.now {
        Same(s, u);
        Preservation.OwnersHold(s, s.conns, u.delayed);
      } else {
        ReleaseGoes(cfg, s, queue[0]);
        Safety.ReleaseHolds(cfg, s, queue[0]);
      }
      GoesOrderly(s, u);
      DrainGoes(cfg, u, queue[1..]);
      GoesOn(s, u, Drain(cfg, s, queue));
    }
  }

  lemma {:induction false} KeepAllGoes(cfg: Config, s: State, order: seq<(Id, Io)>)
    requires Inv(s) && Orderly(s)
    ensures Goes(s, KeepAll(cfg, s, order))
    decreases |order|
  {
    hide Orderly, Goes, Keep, Core;
    if order == [] {
      Same(s, s);
    } else {
      var (id, io) := order[0];
      if id in s.rooms && s.rooms[id].persistent && s.rooms[id].active == [] {
        var out := s.(rooms := s.rooms - {id});
        var t := Keep(cfg, out, id, s.rooms[id], io);
        assert RoomOk(s.rooms[id]) by { CoreRooms(s); }
        Kept(cfg, s, out, id, s.rooms[id], io);
        Safety.KeepSeated(cfg, s, id, io);
        GoesOrderly(s, t);
        KeepAllGoes(cfg, t, order[1..]);
        GoesOn(s, t, KeepAll(cfg, s, order));
      } else {
        KeepAllGoes(cfg, s, order[1..]);
      }
    }
  }

  lemma SweepGoes(cfg: Config, s: State, order: seq<(Id, Io)>)
    requires Inv(s) && Orderly(s) && DrainAdmissible(cfg, s.(delayed := []), s.delayed)
    ensures Goes(s, Sweep(cfg, s, order))
  {
    hide Orderly, Goes, Drain, KeepAll, Expire, Core;
    var start := s.(delayed := []);
    var drained := Drain(cfg, start, s.delayed);
    var tidy := drained.(rooms := Tidied(drained.rooms, s.now));
    var kept := KeepAll(cfg, tidy, order);
    Same(s, start);
    GoesOrderly(s, start);
    Preservation.OwnersHold(s, s.conns, []);
    DrainGoes(cfg, start, s.delayed);
    Safety.DrainHolds(cfg, start, s.delayed);
    GoesOrderly(start, drained);
    InPlace(drained, tidy);
    Safety.TidiedHolds(drained, s.now);
    GoesOrderly(drained, tidy);
    KeepAllGoes(cfg, tidy, order);
    GoesOrderly(tidy, kept);
    ExpireGoes(cfg, kept);
    GoesOn(s, start, drained);
    GoesOn(s, drained, tidy);
    GoesOn(s, tidy, kept);
    GoesOn(s, kept, Expire(cfg, kept));
  }

  lemma ConnectGoes(s: State, cid: nat)
    requires Orderly(s)
    ensures Goes(s, Connect(s, cid))
  {
    Same(s, Connect(s, cid));
  }

  lemma ClosingGoes(s: State, cid: nat)
    requires Orderly(s)
    ensures Goes(s, Closing(s, cid))
  {
    Same(s, Closing(s, cid));
  }

  lemma DatagramGoes(cfg: Config, s: State, bytes: seq<byte>, source: Address, nonce: seq<byte>)
    requires Orderly(s)
    ensures Goes(s, Udp.Datagram(cfg, s, bytes, source, nonce).0)
  {
    hide Orderly, Goes, Udp.Datagram;
    Safety.DatagramChangesSessions(cfg, s, bytes, source, nonce);
    Same(s, Udp.Datagram(cfg, s, bytes, source, nonce).0);
  }

  lemma StepGoes(cfg: Config, s: State, c: Step)
    requires Inv(s) && Orderly(s) && Lawful(cfg, s, c)
    ensures Goes(s, Next(cfg, s, c))
  {
    hide Orderly, Goes, Rules.Sweep, Rules.Receive, Rules.Disconnect, Rules.Connect, Rules.Closing, Udp.Datagram, Inv;
    var t, u := At(s, c.at), Next(cfg, s, c);
    QueueBudget.InvAt(s, c.at);
    Same(s, t);
    GoesOrderly(s, t);
    CoreRooms(t);
    match c.action {
      case Connected(cid) => ConnectGoes(t, cid);
      case Disconnected(cid, io) => DisconnectGoes(cfg, t, cid, io);
      case Received(cid, frame) => ReceiveGoes(cfg, t, cid, frame);
      case Arrived(bytes, source, nonce) => DatagramGoes(cfg, t, bytes, source, nonce);
      case Closed(cid) => ClosingGoes(t, cid);
      case Swept(order) => SweepGoes(cfg, t, order);
    }
    GoesOn(s, t, u);
  }

  lemma {:induction false} RunOrderly(cfg: Config, r: Run, i: nat)
    requires IsRun(cfg, r) && i < |r.states|
    ensures Orderly(r.states[i])
  {
    hide Next, Lawful, Goes, Inv;
    if i > 0 {
      RunOrderly(cfg, r, i - 1);
      Safety.RunHolds(cfg, r, i - 1);
      assert Lawful(cfg, r.states[i - 1], r.steps[i - 1]);
      StepGoes(cfg, r.states[i - 1], r.steps[i - 1]);
      GoesOrderly(r.states[i - 1], r.states[i]);
    }
  }

  lemma {:induction false} RunGoes(cfg: Config, r: Run, i: nat, j: nat)
    requires IsRun(cfg, r) && i <= j < |r.states|
    ensures Goes(r.states[i], r.states[j])
    decreases j
  {
    hide Next, Lawful, Goes, Inv, Orderly;
    if i == j {
      RunOrderly(cfg, r, i);
      Same(r.states[i], r.states[i]);
    } else {
      RunGoes(cfg, r, i, j - 1);
      RunOrderly(cfg, r, j - 1);
      Safety.RunHolds(cfg, r, j - 1);
      assert Lawful(cfg, r.states[j - 1], r.steps[j - 1]);
      StepGoes(cfg, r.states[j - 1], r.steps[j - 1]);
      GoesOn(r.states[i], r.states[j - 1], r.states[j]);
    }
  }

  /**
   * In every run, whichever saves fail: once a game has started its roster, flags, capacity and start data never change,
   * in memory or on disk, and while a fixed game is in memory its members are on that roster.
   */
  lemma RosterIsSettled(cfg: Config, r: Run, i: nat, j: nat, id: Id)
    requires IsRun(cfg, r) && i <= j < |r.states| && id in r.states[i].issued
    requires Look(r.states[i], id).Some? && Look(r.states[i], id).value.started && Look(r.states[j], id).Some?
    ensures var a, b := Look(r.states[i], id).value, Look(r.states[j], id).value;
      && b.started && b.players == a.players && b.fixed == a.fixed && b.migration == a.migration
      && b.persistent == a.persistent
      && b.start == a.start && b.max == a.max
      && (id in r.states[j].rooms && a.fixed ==> forall q :: q in b.active ==> q in a.players)
  {
    hide Next, Lawful, Core;
    RunGoes(cfg, r, i, j);
    Safety.RunHolds(cfg, r, j);
    CoreRooms(r.states[j]);
    if id in r.states[j].rooms { assert RoomOk(r.states[j].rooms[id]); }
  }
}

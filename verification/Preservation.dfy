/** Every command keeps the invariants. */
module Preservation {
  import opened Model
  import opened Rules
  import opened Invariants
  import IndexSet
  import Sessions
  import Udp
  import Rates
  import AntiReplay

  // ---- changes that leave membership alone

  /** Only records that decide no membership changed between `players` and `after`. */
  ghost predicate SameSeats(players: map<Id, Player>, after: map<Id, Player>) {
    && after.Keys == players.Keys
    && forall p :: p in players ==> after[p].room == players[p].room && after[p].entered == players[p].entered
  }

  lemma SameSeatsHolds(s: State, players: map<Id, Player>)
    requires Core(s) && SameSeats(s.players, players)
    ensures Core(s.(players := players))
  {
    hide RoomOk;
    SameClock(s.players, players, s.rooms, s.now);
  }

  lemma ChangeRoom(s: State, id: Id, r: Room)
    requires Core(s) && id in s.rooms && RoomOk(r) && r.active == s.rooms[id].active
    ensures Core(s.(rooms := s.rooms[id := r]))
  {
    assert BySeniority(s.players, r.active);
  }

  lemma ChangeRooms(s: State, rooms: map<Id, Room>)
    requires Core(s) && RoomsOk(rooms) && SameActive(s.rooms, rooms)
    ensures Core(s.(rooms := rooms))
  {
    hide RoomOk;
    SameMembers(s.players, s.rooms, rooms, s.now);
  }

  /** A record that is in no room appears, or takes the place of another such record. */
  lemma NewPlayer(s: State, p: Id, pl: Player)
    requires Core(s) && (p in s.players ==> s.players[p].room.None?) && pl.room.None? && pl.entered.None?
    ensures Core(s.(players := s.players[p := pl]))
  {
    hide RoomOk;
    SameClock(s.players, s.players[p := pl], s.rooms, s.now);
  }

  // ---- requests in a room

  lemma RoomRequestHolds(cfg: Config, r: Room, p: Id, q: Request, io: Io, now: nat)
    requires RoomOk(r) && p in r.active
    ensures RoomOk(RoomRequest(cfg, r, p, q, io, now)) && RoomRequest(cfg, r, p, q, io, now).active == r.active
  {
  }

  lemma ChunkHolds(r: Room, p: Id, b: seq<byte>, now: nat)
    requires RoomOk(r)
    ensures RoomOk(Sessions.Chunk(r, p, b, now).0) && Sessions.Chunk(r, p, b, now).0.active == r.active
  {
  }

  lemma CreateHolds(cfg: Config, s: State, p: Id, id: Id, info: Info, max: nat, password: Option<Json>, fits: bool,
          io: Io)
    requires Inv(s) && p in s.players && s.players[p].connection.Some? && max > 0 && id !in s.rooms
    ensures Inv(Create(cfg, s, p, id, info, max, password, fits, io))
  {
    if s.players[p].room.None? && |s.rooms| < cfg.maxRooms && fits {
      var blank := NewRoom(info, p, max, password, s.now);
      var t := s.(issued := s.issued + {id});
      CreateAdmits(cfg, t, p, id, blank, password, io);
      AdmitBlank(t, p, id, blank, password);
    }
  }

  /** The creator of a room is always let in. */
  lemma CreateAdmits(cfg: Config, s: State, p: Id, id: Id, blank: Room, password: Option<Json>, io: Io)
    requires p in s.players && s.players[p].room.None?
    requires blank.active == [] && !blank.started && !blank.closed && blank.password == password && blank.max > 0
    ensures Enter(cfg, s.(rooms := s.rooms[id := blank]), p, id, password, io) == Admit(s, p, id, blank)
    ensures Refusal(blank, p, password).None?
  {
    assert s.rooms[id := blank][id := Joined(blank, p)] == s.rooms[id := Joined(blank, p)];
  }

  lemma AdmitBlank(s: State, p: Id, id: Id, r: Room, password: Option<Json>)
    requires Inv(s) && p in s.players && s.players[p].connection.Some? && s.players[p].room.None?
    requires id !in s.rooms && Blank(r, p) && Refusal(r, p, password).None?
    ensures Inv(Admit(s, p, id, r))
  {
    assert s.rooms - {id} == s.rooms;
    AdmitHolds(s, p, id, r, password);
  }

  /** Entering never seats a player who has no socket. */
  lemma EnterSeated(cfg: Config, s: State, p: Id, id: Id, password: Option<Json>, io: Io)
    requires Inv(s) && p in s.players && s.players[p].connection.Some?
    ensures Inv(Enter(cfg, s, p, id, password, io))
  {
    hide Core, Refusal, Joined, Load;
    EnterHolds(cfg, s, p, id, password, io);
  }

  lemma LeaveSeated(cfg: Config, s: State, p: Id, disconnected: bool, io: Io)
    requires Inv(s) && p in s.players
    ensures Inv(Leave(cfg, s, p, disconnected, io))
  {
    LeaveHolds(cfg, s, p, disconnected, io);
    LeaveMoves(cfg, s, p, disconnected, io);
  }

  /** Replacing the socket table is harmless while every socket keeps its player. */
  ghost predicate SameOwners(conns: map<nat, Connection>, after: map<nat, Connection>) {
    && after.Keys == conns.Keys
    && forall cid :: cid in conns ==> after[cid].player == conns[cid].player
  }

  lemma InRoomSeated(cfg: Config, s: State, p: Id, q: Request, io: Io)
    requires Inv(s) && p in s.players
    ensures Inv(InRoom(cfg, s, p, q, io))
  {
    if s.players[p].room.Some? {
      var id := s.players[p].room.value;
      var r := RoomRequest(cfg, s.rooms[id], p, q, io, s.now);
      RoomRequestHolds(cfg, s.rooms[id], p, q, io, s.now);
      ChangeRoom(s, id, r);
    }
  }

  lemma HandleHolds(cfg: Config, s: State, cid: nat, p: Id, q: Request, io: Io)
    requires Inv(s) && p in s.players && s.players[p].connection == Some(cid) && cid in s.conns
    requires q.CreateRoom? ==> q.max > 0 && q.id !in s.rooms
    ensures Inv(Handle(cfg, s, cid, p, q, io))
  {
    hide Inv, RoomOk, Create, Enter, Leave, InRoom;
    match q
    case CreateRoom(id, info, max, password, fits) => CreateHolds(cfg, s, p, id, info, max, password, fits, io);
    case EnterRoom(id, password) => EnterSeated(cfg, s, p, id, password, io);
    case LeaveRoom => LeaveSeated(cfg, s, p, false, io);
    case OpenUdp(secret) => OwnersHold(s, OpenSession(cfg, s, cid, p, secret).conns, s.delayed);
    case CloseUdp => OwnersHold(s, Handle(cfg, s, cid, p, q, io).conns, s.delayed);
    case Lookup =>
    case Pong =>
    case _ => InRoomSeated(cfg, s, p, q, io);
  }

  lemma BinaryHolds(s: State, p: Id, bytes: seq<byte>)
    requires Inv(s) && p in s.players
    ensures Inv(Binary(s, p, bytes))
  {
    hide Sessions.Chunk;
    if s.players[p].room.Some? {
      var id := s.players[p].room.value;
      ChunkHolds(s.rooms[id], p, bytes, s.now);
      ChangeRoom(s, id, Sessions.Chunk(s.rooms[id], p, bytes, s.now).0);
    }
  }

  lemma DispatchHolds(cfg: Config, s: State, cid: nat, frame: Frame)
    requires Inv(s) && cid in s.conns && Current(s, cid)
    requires frame.body.RequestBody? && frame.body.request.CreateRoom? ==> frame.body.request.max > 0 && frame.body.request.id !in s.rooms
    ensures Inv(Dispatch(cfg, s, cid, frame))
  {
    var p := s.conns[cid].player.value;
    match frame.body
    case RequestBody(q) => HandleHolds(cfg, s, cid, p, q, frame.io);
    case BinaryBody(bytes) => BinaryHolds(s, p, bytes);
    case _ =>
  }

  // ---- accounts and sockets

  lemma OwnersHold(s: State, conns: map<nat, Connection>, delayed: seq<Delayed>)
    requires Inv(s) && SameOwners(s.conns, conns)
    ensures Inv(s.(conns := conns, delayed := delayed))
  {
  }

  /** Forgetting players who are in no room. */
  lemma ForgetHolds(s: State, gone: set<Id>)
    requires Core(s) && forall p :: p in gone && p in s.players ==> s.players[p].room.None?
    ensures Core(s.(players := s.players - gone))
  {
    hide RoomOk;
    SameClock(s.players, s.players - gone, s.rooms, s.now);
  }

  lemma ExpireHolds(cfg: Config, s: State)
    requires Inv(s)
    ensures Inv(Expire(cfg, s))
  {
    var gone := set p | p in s.players && Expired(cfg, s, p);
    var t := s.(players := s.players - gone);
    ForgetHolds(s, gone);
    UnreservedHolds(t, gone);
    assert Expire(cfg, s) == t.(rooms := Unreserved(t.rooms, gone));
  }

  lemma BindHolds(cfg: Config, s: State, cid: nat, id: Id, io: Io)
    requires Core(s) && Paired(s.players, s.conns)
    requires forall p :: p in s.players && p != id && s.players[p].connection.None? ==> s.players[p].room.None?
    requires cid in s.conns && s.conns[cid].player.None? && id in s.players
    ensures Inv(Bind(cfg, s, cid, id, io))
  {
    hide Core, Paired, Bind, SameSeats;
    var t := Bind(cfg, s, cid, id, io);
    BindIs(cfg, s, cid, id, io);
    assert SameSeats(s.players, t.players) by { SeatsOfBound(s, t, cid, id); }
    SameSeatsHolds(s, t.players);
    BindPairs(cfg, s, cid, id, io);
    SameWorlds(s.(players := t.players), t);
  }

  lemma SeatsOfBound(s: State, t: State, cid: nat, id: Id)
    requires id in s.players && t.players == s.players[id := s.players[id].(connection := Some(cid), offline := None)]
    ensures SameSeats(s.players, t.players)
  {
  }

  lemma SameWorlds(s: State, t: State)
    requires Core(s) && t.players == s.players && t.rooms == s.rooms && t.disk == s.disk && t.now == s.now
    ensures Core(t)
  {
  }

  lemma BindIs(cfg: Config, s: State, cid: nat, id: Id, io: Io)
    requires cid in s.conns && id in s.players
    ensures var t := Bind(cfg, s, cid, id, io);
      && t.players == s.players[id := s.players[id].(connection := Some(cid), offline := None)]
      && t.rooms == s.rooms && t.disk == s.disk && t.now == s.now && t.sockets == s.sockets && t.issued == s.issued
      && t.evicted == s.evicted
  {
    hide WithoutFrames;
  }

  lemma BindPairs(cfg: Config, s: State, cid: nat, id: Id, io: Io)
    requires Paired(s.players, s.conns)
    requires cid in s.conns && s.conns[cid].player.None? && id in s.players
    ensures Paired(Bind(cfg, s, cid, id, io).players, Bind(cfg, s, cid, id, io).conns)
  {
    hide WithoutFrames;
    var t := Bind(cfg, s, cid, id, io);
    forall p | p in t.players && t.players[p].connection.Some?
      ensures t.players[p].connection.value in t.conns && t.conns[t.players[p].connection.value].player == Some(p)
    {
      if p != id { assert s.players[p].connection.value in s.conns; }
    }
  }

  lemma TakeOverHolds(cfg: Config, s: State, cid: nat, key: Id, io: Io)
    requires Inv(s) && cid in s.conns && s.conns[cid].player.None? && key in s.players
    ensures Inv(TakeOver(cfg, s, cid, key, io))
  {
    hide Leave, Bind, RoomOk, Clocked, Members;
    if InFixedGame(s, key) {
      LeaveSeated(cfg, s, key, true, io);
      LeaveMoves(cfg, s, key, true, io);
      BindHolds(cfg, Leave(cfg, s, key, true, io), cid, key, io);
    } else {
      BindHolds(cfg, s, cid, key, io);
    }
  }

  lemma LogInHolds(cfg: Config, s: State, cid: nat, key: Id, exact: bool, password: Json, io: Io)
    requires Inv(s) && cid in s.conns && s.conns[cid].player.None?
    requires !Displaces(cfg, s, Credentials.Login(key, exact, password), io)
    ensures Inv(LogIn(cfg, s, cid, key, exact, password, io))
  {
    hide Core, TakeOver;
    var account := Account(cfg, s, key, exact, io);
    if account.Some? && account.value.secret == password {
      var known := s.(players := s.players[key := account.value]);
      if exact && key in s.players { assert known == s; } else { NewPlayer(s, key, account.value); }
      TakeOverHolds(cfg, known, cid, key, io);
    }
    OwnersHold(s, Closing(s, cid).conns, s.delayed);
  }

  lemma AuthenticateHolds(cfg: Config, s: State, cid: nat, c: Credentials, io: Io)
    requires Inv(s) && cid in s.conns && s.conns[cid].player.None?
    requires c.Guest? ==> c.id !in s.players
    requires !Displaces(cfg, s, c, io)
    ensures Inv(Authenticate(cfg, s, cid, c, io))
  {
    ExpireHolds(cfg, s);
    var known := Expire(cfg, s);
    match c
    case Login(key, exact, password) => LogInHolds(cfg, known, cid, key, exact, password, io);
    case Guest(id, secret) =>
      GuestHolds(cfg, known, cid, id, Player(secret, None, None, None, Some(s.now), 0), io);
      OwnersHold(known, Closing(known, cid).conns, known.delayed);
  }

  lemma GuestHolds(cfg: Config, s: State, cid: nat, id: Id, pl: Player, io: Io)
    requires Inv(s) && cid in s.conns && s.conns[cid].player.None?
    requires id !in s.players && pl.room.None? && pl.entered.None? && pl.connection.None?
    ensures Inv(Bind(cfg, s.(players := s.players[id := pl]), cid, id, io))
  {
    NewPlayer(s, id, pl);
    BindHolds(cfg, s.(players := s.players[id := pl]), cid, id, io);
  }

  lemma ConnectHolds(s: State, cid: nat)
    requires Inv(s) && cid !in s.conns
    ensures Inv(Connect(s, cid))
  {
  }

  lemma DisconnectHolds(cfg: Config, s: State, cid: nat, io: Io)
    requires Inv(s)
    ensures Inv(Disconnect(cfg, s, cid, io))
  {
    if cid in s.conns {
      var who := s.conns[cid].player;
      var delayed := WithoutFrames(s.delayed, cid);
      if who.Some? && who.value in s.players && s.players[who.value].connection == Some(cid) {
        UnplugHolds(cfg, s, cid, who.value, delayed, io);
      } else {
        assert Paired(s.players, s.conns - {cid});
      }
    }
  }

  /** The socket of `p` is gone and `p` leaves its room. */
  lemma UnplugHolds(cfg: Config, s: State, cid: nat, p: Id, delayed: seq<Delayed>, io: Io)
    requires Inv(s) && p in s.players && s.players[p].connection == Some(cid)
    ensures var pl := s.players[p].(connection := None, offline := Some(s.now));
      Inv(Leave(cfg, s.(delayed := delayed, conns := s.conns - {cid}, players := s.players[p := pl]), p, true, io))
  {
    hide Leave, RoomOk, RoomsOk, Clocked;
    var pl := s.players[p].(connection := None, offline := Some(s.now));
    var t := s.(delayed := delayed, conns := s.conns - {cid}, players := s.players[p := pl]);
    SameSeatsHolds(s, t.players);
    LeaveHolds(cfg, t, p, true, io);
    LeaveMoves(cfg, t, p, true, io);
    assert Paired(t.players, t.conns);
  }
}

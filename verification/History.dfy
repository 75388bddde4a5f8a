/** Committed history over whole runs: owners by generation, state by revision, and settled rosters. */
module History {
  import opened Model
  import opened Rules
  import opened Invariants
  import opened Preservation
  import opened Relay
  import opened Worlds
  import opened Reach
  import Safety
  import Sessions
  import Udp
  import IndexSet
  import QueueRuns

  /** Invariant, identifiers known, and nothing waiting in memory for a save. */
  ghost predicate Sound(s: State) {
    Inv(s) && Known(s) && NoneWaits(s)
  }

  /** The same, with rooms that may wait for a save. */
  ghost predicate Firm(s: State) {
    Inv(s) && Known(s)
  }

  // ---- requests

  lemma RoomRequestEvolves(cfg: Config, r: Room, p: Id, q: Request, io: Io, now: nat)
    requires RoomOk(r)
    ensures Evolves(r, RoomRequest(cfg, r, p, q, io, now))
  {
  }

  lemma ChunkEvolves(r: Room, p: Id, b: seq<byte>, now: nat)
    ensures Evolves(r, Sessions.Chunk(r, p, b, now).0)
  {
    hide Sessions.Continues;
    var after := Sessions.Chunk(r, p, b, now).0;
    assert after == r.(upload := after.upload) by { ChunkTouchesUpload(r, p, b, now); }
  }

  lemma ChunkTouchesUpload(r: Room, p: Id, b: seq<byte>, now: nat)
    ensures var after := Sessions.Chunk(r, p, b, now).0; after == r.(upload := after.upload)
  {
    hide Sessions.Continues;
  }

  /** One room in memory moves on to `r`. */
  lemma RoomEvolves(s: State, t: State, id: Id, r: Room)
    requires Known(s) && id in s.rooms && Evolves(s.rooms[id], r) && r.active == s.rooms[id].active
    requires t.rooms == s.rooms[id := r] && t.disk == s.disk && t.issued == s.issued && t.evicted == s.evicted
    ensures AllEvolve(s, t) && Known(t) && (NoneWaits(s) ==> NoneWaits(t))
  {
    forall x | x in s.issued && x != id ensures Look(t, x) == Look(s, x) {}
  }

  lemma SameRoomsEvolve(s: State, t: State)
    requires t.rooms == s.rooms && t.disk == s.disk && t.issued == s.issued && t.evicted == s.evicted
    requires Known(s)
    ensures AllEvolve(s, t) && Known(t) && (NoneWaits(s) ==> NoneWaits(t))
  {
    SameRoomsRest(s, t);
    RestIsEvolving(s, t);
  }

  lemma CreateEvolves(cfg: Config, s: State, p: Id, id: Id, info: Info, max: nat, password: Option<Json>, fits: bool,
          io: Io)
    requires Firm(s) && p in s.players && max > 0 && id !in s.issued
    ensures var t := Create(cfg, s, p, id, info, max, password, fits, io);
      AllEvolve(s, t) && Known(t) && (NoneWaits(s) ==> NoneWaits(t))
  {
    hide Enter, Inv;
    var t := Create(cfg, s, p, id, info, max, password, fits, io);
    if s.players[p].room.Some? || |s.rooms| >= cfg.maxRooms || !fits {
      SameRoomsEvolve(s, t);
    } else {
      var blank := NewRoom(info, p, max, password, s.now);
      var u := s.(issued := s.issued + {id});
      CreateAdmits(cfg, u, p, id, blank, password, io);
      NewRoomEvolves(s, Admit(u, p, id, blank), id, Joined(blank, p));
    }
  }

  /** A room with a new identifier changes no other. */
  lemma NewRoomEvolves(s: State, t: State, id: Id, r: Room)
    requires Known(s) && id !in s.issued && r.active != []
    requires t.rooms == s.rooms[id := r] && t.disk == s.disk && t.issued == s.issued + {id} && t.evicted == s.evicted
    ensures AllEvolve(s, t) && Known(t) && (NoneWaits(s) ==> NoneWaits(t))
  {
    forall x | x in s.issued ensures Look(t, x) == Look(s, x) {}
  }

  lemma InRoomEvolves(cfg: Config, s: State, p: Id, q: Request, io: Io)
    requires Firm(s) && p in s.players
    ensures var t := InRoom(cfg, s, p, q, io); AllEvolve(s, t) && Known(t) && (NoneWaits(s) ==> NoneWaits(t))
  {
    var t := InRoom(cfg, s, p, q, io);
    if s.players[p].room.Some? {
      var id := s.players[p].room.value;
      RoomRequestEvolves(cfg, s.rooms[id], p, q, io, s.now);
      RoomRequestHolds(cfg, s.rooms[id], p, q, io, s.now);
      RoomEvolves(s, t, id, RoomRequest(cfg, s.rooms[id], p, q, io, s.now));
    } else {
      SameRoomsEvolve(s, t);
    }
  }

  lemma HandleEvolves(cfg: Config, s: State, cid: nat, p: Id, q: Request, io: Io)
    requires Sound(s) && p in s.players && cid in s.conns && io.save.Some?
    requires q.CreateRoom? ==> q.max > 0 && q.id !in s.issued
    ensures var t := Handle(cfg, s, cid, p, q, io); AllEvolve(s, t) && Known(t) && NoneWaits(t)
  {
    var t := Handle(cfg, s, cid, p, q, io);
    if q.CreateRoom? { CreateEvolves(cfg, s, p, q.id, q.info, q.max, q.password, q.fits, io); }
    else if q.EnterRoom? { EnterRests(cfg, s, p, q.id, q.password, io); RestIsEvolving(s, t); }
    else if q.LeaveRoom? { LeaveRests(cfg, s, p, false, io); RestIsEvolving(s, t); }
    else if q.OpenUdp? || q.CloseUdp? || q.Lookup? || q.Pong? { SameRoomsEvolve(s, t); }
    else { InRoomEvolves(cfg, s, p, q, io); }
  }

  lemma BinaryEvolves(s: State, p: Id, bytes: seq<byte>)
    requires Firm(s) && p in s.players
    ensures var t := Binary(s, p, bytes); AllEvolve(s, t) && Known(t) && (NoneWaits(s) ==> NoneWaits(t))
  {
    var t := Binary(s, p, bytes);
    if t.rooms == s.rooms {
      SameRoomsEvolve(s, t);
    } else {
      var id := s.players[p].room.value;
      ChunkEvolves(s.rooms[id], p, bytes, s.now);
      ChunkHolds(s.rooms[id], p, bytes, s.now);
      RoomEvolves(s, t, id, Sessions.Chunk(s.rooms[id], p, bytes, s.now).0);
    }
  }

  /** A request that runs in a sound state leaves a sound state, with every room's history continued. */
  lemma DispatchEvolves(cfg: Config, s: State, cid: nat, frame: Frame)
    requires Sound(s) && cid in s.conns && Current(s, cid) && Admissible(s, frame) && frame.io.save.Some?
    ensures var t := Dispatch(cfg, s, cid, frame); AllEvolve(s, t) && Sound(t)
  {
    var p := s.conns[cid].player.value;
    DispatchHolds(cfg, s, cid, frame);
    if frame.body.RequestBody? { HandleEvolves(cfg, s, cid, p, frame.body.request, frame.io); }
    else if frame.body.BinaryBody? { BinaryEvolves(s, p, frame.body.bytes); }
    else { SameRoomsEvolve(s, s); }
  }

  // ---- the other commands

  lemma ExpireEvolves(cfg: Config, s: State)
    requires Firm(s)
    ensures var t := Expire(cfg, s); AllEvolve(s, t) && Firm(t) && (NoneWaits(s) ==> NoneWaits(t))
  {
    var gone := set p | p in s.players && Expired(cfg, s, p);
    ExpireHolds(cfg, s);
    var t := s.(rooms := Unreserved(s.rooms, gone));
    UnreservedRests(s, gone);
    assert Expire(cfg, s) == t.(players := s.players - gone);
    SameRoomsRest(t, Expire(cfg, s));
    RestsOn(s, t, Expire(cfg, s));
    RestIsEvolving(s, Expire(cfg, s));
  }

  lemma BindEvolves(cfg: Config, s: State, cid: nat, id: Id, io: Io)
    requires Known(s) && cid in s.conns && id in s.players
    ensures var t := Bind(cfg, s, cid, id, io); AllEvolve(s, t) && Known(t) && (NoneWaits(s) ==> NoneWaits(t))
  {
    SameRoomsEvolve(s, Bind(cfg, s, cid, id, io));
  }

  lemma TakeOverEvolves(cfg: Config, s: State, cid: nat, key: Id, io: Io)
    requires Firm(s) && cid in s.conns && key in s.players
    ensures var t := TakeOver(cfg, s, cid, key, io);
      AllEvolve(s, t) && Known(t) && (io.save.Some? && NoneWaits(s) ==> NoneWaits(t))
  {
    if InFixedGame(s, key) {
      var left := Leave(cfg, s, key, true, io);
      LeaveRests(cfg, s, key, true, io);
      LeaveMoves(cfg, s, key, true, io);
      RestIsEvolving(s, left);
      BindEvolves(cfg, left, cid, key, io);
      EvolvesOn(s, left, TakeOver(cfg, s, cid, key, io));
    } else {
      BindEvolves(cfg, s, cid, key, io);
    }
  }

  /** The account that logs in is put into memory first. */
  lemma KnownPlayer(s: State, key: Id, pl: Player)
    requires Firm(s)
    requires (key in s.players && pl == s.players[key])
             || ((key in s.players ==> s.players[key].room.None?) && pl.room.None? && pl.entered.None? && pl.connection.None?)
    ensures var t := s.(players := s.players[key := pl]); AllEvolve(s, t) && Firm(t) && (NoneWaits(s) ==> NoneWaits(t))
  {
    hide Core, Known, NoneWaits, AllEvolve;
    var t := s.(players := s.players[key := pl]);
    if key in s.players && pl == s.players[key] { assert t == s; } else { NewPlayer(s, key, pl); }
    SameRoomsEvolve(s, t);
  }

  lemma LogInEvolves(cfg: Config, s: State, cid: nat, key: Id, exact: bool, password: Json, io: Io)
    requires Firm(s) && cid in s.conns && s.conns[cid].player.None?
    requires !Displaces(cfg, s, Credentials.Login(key, exact, password), io)
    ensures var t := LogIn(cfg, s, cid, key, exact, password, io);
      AllEvolve(s, t) && Known(t) && (io.save.Some? && NoneWaits(s) ==> NoneWaits(t))
  {
    SameRoomsEvolve(s, s);
    SameRoomsEvolve(s, Closing(s, cid));
    var account := Account(cfg, s, key, exact, io);
    if account.Some? && account.value.secret == password {
      var known := s.(players := s.players[key := account.value]);
      KnownPlayer(s, key, account.value);
      TakeOverEvolves(cfg, known, cid, key, io);
      EvolvesOn(s, known, TakeOver(cfg, known, cid, key, io));
    }
  }

  lemma GuestEvolves(cfg: Config, s: State, cid: nat, id: Id, secret: Json, io: Io)
    requires Known(s) && cid in s.conns
    ensures var pl := Player(secret, None, None, None, Some(s.now), 0);
      var t := Bind(cfg, s.(players := s.players[id := pl]), cid, id, io);
      AllEvolve(s, t) && Known(t) && (NoneWaits(s) ==> NoneWaits(t))
  {
    var known := s.(players := s.players[id := Player(secret, None, None, None, Some(s.now), 0)]);
    SameRoomsEvolve(s, Bind(cfg, known, cid, id, io));
  }

  lemma AuthenticateEvolves(cfg: Config, s: State, cid: nat, c: Credentials, io: Io)
    requires Firm(s) && cid in s.conns && s.conns[cid].player.None? && !Displaces(cfg, s, c, io)
    ensures var t := Authenticate(cfg, s, cid, c, io);
      AllEvolve(s, t) && Known(t) && (io.save.Some? && NoneWaits(s) ==> NoneWaits(t))
  {
    var known := Expire(cfg, s);
    ExpireEvolves(cfg, s);
    match c
    case Login(key, exact, password) =>
      LogInEvolves(cfg, known, cid, key, exact, password, io);
      EvolvesOn(s, known, LogIn(cfg, known, cid, key, exact, password, io));
    case Guest(id, secret) => GuestComes(cfg, s, known, cid, c, io);
  }

  lemma GuestComes(cfg: Config, s: State, known: State, cid: nat, c: Credentials, io: Io)
    requires Firm(known) && AllEvolve(s, known) && known == Expire(cfg, s) && cid in s.conns && c.Guest?
    ensures var t := Authenticate(cfg, s, cid, c, io);
      AllEvolve(s, t) && Known(t) && (NoneWaits(known) ==> NoneWaits(t))
  {
    var t := Authenticate(cfg, s, cid, c, io);
    if |known.players| >= cfg.maxAccounts { SameRoomsEvolve(known, t); } else { GuestEvolves(cfg, known, cid, c.id, c.secret, io); }
    EvolvesOn(s, known, t);
  }

  lemma DisconnectEvolves(cfg: Config, s: State, cid: nat, io: Io)
    requires Firm(s)
    ensures var t := Disconnect(cfg, s, cid, io);
      AllEvolve(s, t) && Firm(t) && (io.save.Some? && NoneWaits(s) ==> NoneWaits(t))
  {
    hide Inv, Core, Known, NoneWaits, AllEvolve, AllRest, Leave, WithoutFrames;
    DisconnectHolds(cfg, s, cid, io);
    var t := Disconnect(cfg, s, cid, io);
    if cid in s.conns && s.conns[cid].player.Some? && s.conns[cid].player.value in s.players
       && s.players[s.conns[cid].player.value].connection == Some(cid) {
      var p := s.conns[cid].player.value;
      var pl := s.players[p].(connection := None, offline := Some(s.now));
      var gone := s.(delayed := WithoutFrames(s.delayed, cid), conns := s.conns - {cid}, players := s.players[p := pl]);
      UnpluggedCore(s, gone, p, pl);
      SameRoomsEvolve(s, gone);
      LeaveRests(cfg, gone, p, true, io);
      RestIsEvolving(gone, t);
      EvolvesOn(s, gone, t);
    } else {
      SameRoomsEvolve(s, t);
    }
  }

  lemma UnpluggedCore(s: State, t: State, p: Id, pl: Player)
    requires Inv(s) && p in s.players && t.players == s.players[p := pl] && pl.room == s.players[p].room
    requires pl.entered == s.players[p].entered
    requires t.rooms == s.rooms && t.disk == s.disk && t.now == s.now
    ensures Core(t)
  {
    hide RoomOk, Clocked, Members;
    SameSeatsHolds(s, t.players);
    SameWorlds(s.(players := t.players), t);
  }

  ghost predicate QueueSaves(queue: seq<Delayed>) {
    forall d :: d in queue ==> d.frame.io.save.Some?
  }

  lemma AcceptEvolves(cfg: Config, s: State, cid: nat, frame: Frame)
    requires Sound(s) && cid in s.conns && Current(s, cid) && Admissible(s, frame) && frame.io.save.Some?
    ensures var t := Accept(cfg, s, cid, frame); AllEvolve(s, t) && Known(t) && NoneWaits(t)
  {
    hide Dispatch, Inv, Known, AllEvolve, Admissible;
    assert Known(s) && NoneWaits(s) by { SoundParts(s); }
    if cfg.delay == 0 || frame.body == RequestBody(Pong) {
      DispatchEvolves(cfg, s, cid, frame);
    } else {
      SameRoomsEvolve(s, Accept(cfg, s, cid, frame));
    }
  }

  lemma ProcessEvolves(cfg: Config, s: State, cid: nat, frame: Frame)
    requires Sound(s) && Admissible(s, frame) && frame.io.save.Some?
    requires cid in s.conns && (s.conns[cid].player.Some? ==> Current(s, cid))
    requires s.conns[cid].player.None? && frame.body.AuthBody? && frame.size <= cfg.maxPayload ==>
      !Displaces(cfg, s, frame.body.credentials, frame.io)
    ensures var t := Process(cfg, s, cid, frame); AllEvolve(s, t) && Known(t) && NoneWaits(t)
  {
    hide Accept, Authenticate, Inv, Known, NoneWaits, AllEvolve, Displaces;
    SoundParts(s);
    SameRoomsEvolve(s, s);
    SameRoomsEvolve(s, Closing(s, cid));
    if s.conns[cid].player.None? {
      if frame.body.AuthBody? && frame.size <= cfg.maxPayload { AuthenticateEvolves(cfg, s, cid, frame.body.credentials, frame.io); }
    } else {
      AcceptEvolves(cfg, s, cid, frame);
    }
  }

  lemma ReceiveEvolves(cfg: Config, s: State, cid: nat, frame: Frame)
    requires Sound(s) && Admissible(s, frame) && !Displacing(cfg, s, cid, frame) && frame.io.save.Some?
    ensures var t := Receive(cfg, s, cid, frame); AllEvolve(s, t) && Sound(t)
  {
    hide Process, AllEvolve, Inv, Known, NoneWaits, Displaces;
    SoundParts(s);
    Safety.ReceiveHolds(cfg, s, cid, frame);
    SameRoomsEvolve(s, s);
    if Heard(s, cid) {
      var out := s.(conns := s.conns[cid := Counted(s.conns[cid], s.now)]);
      OwnersHold(s, out.conns, s.delayed);
      SameRoomsEvolve(s, out);
      SameRoomsEvolve(s, Closing(out, cid));
      if out.conns[cid].messages <= cfg.maxMessages {
        if frame.body.AuthBody? { Safety.CountedDisplaces(cfg, s, cid, out.conns[cid], frame.body.credentials, frame.io); }
        ProcessEvolves(cfg, out, cid, frame);
        EvolvesOn(s, out, Process(cfg, out, cid, frame));
      }
    }
  }

  lemma ReleaseEvolves(cfg: Config, s: State, d: Delayed)
    requires Sound(s) && Admissible(s, d.frame) && d.frame.io.save.Some?
    ensures var t := Release(cfg, s, d); AllEvolve(s, t) && Sound(t)
  {
    hide Inv, Core, Known, NoneWaits, AllEvolve, Dispatch;
    Safety.ReleaseHolds(cfg, s, d);
    SoundParts(s);
    var t := Release(cfg, s, d);
    if d.cid in s.conns {
      var c := s.conns[d.cid];
      var out := s.(conns := s.conns[d.cid := c.(delayed := Minus(c.delayed, d.frame.size), pending := Minus(c.pending, 1))]);
      OwnersHold(s, out.conns, s.delayed);
      SameRoomsEvolve(s, out);
      if !c.closing && Current(out, d.cid) && (!d.scoped || out.players[c.player.value].version == d.version) {
        DispatchEvolves(cfg, out, d.cid, d.frame);
        EvolvesOn(s, out, t);
      }
    } else {
      SameRoomsEvolve(s, t);
    }
  }

  lemma {:induction false} DrainEvolves(cfg: Config, s: State, queue: seq<Delayed>)
    requires Sound(s) && DrainAdmissible(cfg, s, queue) && QueueSaves(queue)
    ensures var t := Drain(cfg, s, queue); AllEvolve(s, t) && Sound(t)
    decreases |queue|
  {
    if queue == [] {
      SameRoomsEvolve(s, s);
    } else {
      var u := if queue[0].at > s.now then s.(delayed := s.delayed + [queue[0]]) else Release(cfg, s, queue[0]);
      if queue[0].at > s.now { SameRoomsEvolve(s, u); } else { ReleaseEvolves(cfg, s, queue[0]); }
      assert forall d :: d in queue[1..] ==> d in queue;
      DrainEvolves(cfg, u, queue[1..]);
      EvolvesOn(s, u, Drain(cfg, s, queue));
    }
  }

  /** With nothing waiting for a save, the sweep finds no empty room. */
  lemma {:induction false} NothingToKeep(cfg: Config, s: State, order: seq<(Id, Io)>)
    requires NoneWaits(s)
    ensures KeepAll(cfg, s, order) == s
    decreases |order|
  {
    if order != [] { NothingToKeep(cfg, s, order[1..]); }
  }

  lemma TidiedEvolves(s: State, now: nat)
    requires Firm(s)
    ensures var t := s.(rooms := Tidied(s.rooms, now)); AllEvolve(s, t) && Firm(t) && (NoneWaits(s) ==> NoneWaits(t))
  {
    hide Inv, Known, NoneWaits, AllEvolve, Evolves, Unstalled;
    var t := s.(rooms := Tidied(s.rooms, now));
    Safety.TidiedHolds(s, now);
    forall id | id in s.rooms
      ensures Evolves(s.rooms[id], t.rooms[id]) && t.rooms[id].persistent == s.rooms[id].persistent
      ensures t.rooms[id].active == s.rooms[id].active
    {
      UnstalledEvolves(s.rooms[id], now);
    }
    RoomsEvolve(s, t);
  }

  lemma UnstalledEvolves(r: Room, now: nat)
    ensures var t := Unstalled(r, now); Evolves(r, t) && t.persistent == r.persistent && t.active == r.active
  {
  }

  /** Every room in memory moves on in place. */
  lemma RoomsEvolve(s: State, t: State)
    requires Known(s)
    requires t.rooms.Keys == s.rooms.Keys && t.disk == s.disk && t.issued == s.issued && t.evicted == s.evicted
    requires forall id :: id in s.rooms ==>
      Evolves(s.rooms[id], t.rooms[id]) && t.rooms[id].persistent == s.rooms[id].persistent && t.rooms[id].active == s.rooms[id].active
    ensures AllEvolve(s, t) && Known(t) && (NoneWaits(s) ==> NoneWaits(t))
  {
    forall x | x in s.issued
      ensures if x in s.rooms then Look(t, x) == Some(t.rooms[x]) && Look(s, x) == Some(s.rooms[x]) else Look(t, x) == Look(s, x)
    {
      assert x in t.rooms <==> x in s.rooms;
    }
  }

  lemma SweepEvolves(cfg: Config, s: State, order: seq<(Id, Io)>)
    requires Sound(s) && DrainAdmissible(cfg, s.(delayed := []), s.delayed) && QueueSaves(s.delayed)
    ensures var t := Sweep(cfg, s, order); AllEvolve(s, t) && Sound(t)
  {
    var start := s.(delayed := []);
    var drained := Drain(cfg, start, s.delayed);
    SameRoomsEvolve(s, start);
    DrainEvolves(cfg, start, s.delayed);
    EvolvesOn(s, start, drained);
    var tidy := drained.(rooms := Tidied(drained.rooms, s.now));
    TidiedEvolves(drained, s.now);
    EvolvesOn(s, drained, tidy);
    NothingToKeep(cfg, tidy, order);
    ExpireEvolves(cfg, tidy);
    EvolvesOn(s, tidy, Expire(cfg, tidy));
  }

  // ---- runs

  /** Every save that the command makes succeeds. */
  ghost predicate Saves(c: Step) {
    match c.action
    case Disconnected(_, io) => io.save.Some?
    case Received(_, frame) => frame.io.save.Some?
    case _ => true
  }

  lemma StepEvolves(cfg: Config, s: State, c: Step)
    requires Sound(s) && Lawful(cfg, s, c) && Saves(c) && QueueSaves(s.delayed)
    ensures AllEvolve(s, Next(cfg, s, c)) && Sound(Next(cfg, s, c))
  {
    hide Rules.Sweep, Rules.Receive, Rules.Disconnect, Rules.Closing, Udp.Datagram, AllEvolve, Inv, Known, NoneWaits;
    hide QueueSaves;
    var t, u := At(s, c.at), Next(cfg, s, c);
    Safety.StepHolds(cfg, s, c);
    SoundParts(s);
    assert Sound(t) by { SoundAt(s, c.at); }
    assert QueueSaves(t.delayed);
    SameRoomsEvolve(s, t);
    match c.action {
      case Connected(cid) => SameRoomsEvolve(t, u);
      case Disconnected(cid, io) => DisconnectEvolves(cfg, t, cid, io);
      case Received(cid, frame) => ReceiveEvolves(cfg, t, cid, frame);
      case Arrived(bytes, source, nonce) =>
        Safety.DatagramChangesSessions(cfg, t, bytes, source, nonce);
        SameRoomsEvolve(t, u);
      case Closed(cid) => ClosingEvolves(t, cid);
      case Swept(order) => SweepEvolves(cfg, t, order);
    }
    EvolvesOn(s, t, u);
  }

  lemma ClosingEvolves(s: State, cid: nat)
    requires Known(s)
    ensures var t := Closing(s, cid); AllEvolve(s, t) && Known(t) && (NoneWaits(s) ==> NoneWaits(t))
  {
    SameRoomsEvolve(s, Closing(s, cid));
  }

  lemma SoundAt(s: State, t: nat)
    requires Sound(s) && s.now <= t
    ensures Sound(At(s, t))
  {
  }

  ghost predicate AllSave(r: Run) {
    forall i :: 0 <= i < |r.steps| ==> Saves(r.steps[i])
  }

  lemma {:induction false} RunSound(cfg: Config, r: Run, i: nat)
    requires IsRun(cfg, r) && AllSave(r) && i < |r.states|
    ensures Sound(r.states[i]) && QueueSaves(r.states[i].delayed)
  {
    hide Next, Lawful, Saves, AllEvolve;
    Safety.RunHolds(cfg, r, i);
    forall d | d in r.states[i].delayed ensures d.frame.io.save.Some? {
      var j := QueueRuns.Origin(cfg, r, i, d);
      QueueRuns.QueuedIs(cfg, r.states[j], r.steps[j], d);
      assert Saves(r.steps[j]);
      ReceivedSaves(r.steps[j], d.cid, d.frame);
    }
    if i > 0 {
      RunSound(cfg, r, i - 1);
      StepEvolves(cfg, r.states[i - 1], r.steps[i - 1]);
    }
  }

  lemma ReceivedSaves(c: Step, cid: nat, frame: Frame)
    requires Saves(c) && c.action == Received(cid, frame)
    ensures frame.io.save.Some?
  {
  }

  /**
   * In every run whose saves succeed, from any state to any later one, every room and stored world moves on
   * lawfully: one owner for each generation, one state for each revision, a settled roster once started; a
   * persistent world vanishes only by eviction; and nothing that vanished returns.
   */
  lemma {:induction false} RunEvolves(cfg: Config, r: Run, i: nat, j: nat)
    requires IsRun(cfg, r) && AllSave(r) && i <= j < |r.states|
    ensures AllEvolve(r.states[i], r.states[j])
    decreases j
  {
    hide Next, Lawful, Saves, AllEvolve, Sound;
    RunSound(cfg, r, i);
    if i == j {
      assert Known(r.states[i]) && NoneWaits(r.states[i]) by { SoundParts(r.states[i]); }
      SameRoomsEvolve(r.states[i], r.states[i]);
    } else {
      RunEvolves(cfg, r, i, j - 1);
      RunSound(cfg, r, j - 1);
      StepEvolves(cfg, r.states[j - 1], r.steps[j - 1]);
      EvolvesOn(r.states[i], r.states[j - 1], r.states[j]);
    }
  }

  lemma SoundParts(s: State)
    requires Sound(s)
    ensures Known(s) && NoneWaits(s)
  {
  }

  /** An open upload is always in step with its room: same owner, same generation, same revision. */
  lemma OpenUploadsAreCurrent(cfg: Config, r: Run, i: nat, id: Id)
    requires IsRun(cfg, r) && i < |r.states| && id in r.states[i].rooms && r.states[i].rooms[id].upload.Some?
    ensures var room := r.states[i].rooms[id];
      && room.upload.value.owner == room.owner && room.owner in room.active
      && room.upload.value.generation == room.generation && room.upload.value.revision == room.revision
  {
    hide Next, Lawful;
    Safety.RunHolds(cfg, r, i);
    assert RoomOk(r.states[i].rooms[id]);
  }

  /**
   * What one request can do to the committed state of its room: an accepted commit installs the complete upload
   * and raises the revision by one; everything else leaves state and revision alone.
   */
  lemma OnlyCommitsChangeState(cfg: Config, r: Room, p: Id, q: Request, io: Io, now: nat)
    ensures var after := RoomRequest(cfg, r, p, q, io, now);
      if q.CommitSession? && Sessions.CommitVerdict(r, p, q.request, q.scheduled, q.immediate, io.jobs).Revision? then
        && r.persistent && r.owner == p && Sessions.Complete(r, p, q.request)
        && after.state == r.upload.value.bytes && after.revision == r.revision + 1 && after.upload.None?
        && after.owner == r.owner && after.generation == r.generation && after.players == r.players
        && after.active == r.active
      else after.state == r.state && after.revision == r.revision
  {
  }

  // ---- succession

  /** When an owner leaves others behind, the member who entered earliest takes over, in a new generation. */
  lemma EldestSucceeds(cfg: Config, s: State, p: Id, disconnected: bool, io: Io)
    requires Core(s) && p in s.players && s.players[p].room.Some?
    requires var r := s.rooms[s.players[p].room.value]; r.owner == p && Remaining(r, p) != []
    ensures var id := s.players[p].room.value;
      var t := Leave(cfg, s, p, disconnected, io);
      && id in t.rooms
      && t.rooms[id].active == IndexSet.Remove(s.rooms[id].active, p)
      && t.rooms[id].owner == t.rooms[id].active[0]
      && t.rooms[id].generation == s.rooms[id].generation + 1
      && forall q :: q in t.rooms[id].active ==> Since(t.players, t.rooms[id].owner) <= Since(t.players, q)
  {
    var id := s.players[p].room.value;
    var t := Leave(cfg, s, p, disconnected, io);
    LeaveHolds(cfg, s, p, disconnected, io);
    LeaveKeepsRoom(cfg, s, p, disconnected, io);
    var active := t.rooms[id].active;
    forall q | q in active ensures Since(t.players, active[0]) <= Since(t.players, q) {
      var k :| 0 <= k < |active| && active[k] == q;
      assert BySeniority(t.players, active);
    }
  }

  lemma LeaveKeepsRoom(cfg: Config, s: State, p: Id, disconnected: bool, io: Io)
    requires Core(s) && p in s.players && s.players[p].room.Some?
    requires Remaining(s.rooms[s.players[p].room.value], p) != []
    ensures var id := s.players[p].room.value;
      var t := Leave(cfg, s, p, disconnected, io);
      && id in t.rooms
      && t.rooms[id].active == Remaining(s.rooms[id], p)
      && (s.rooms[id].owner == p ==> t.rooms[id].owner == t.rooms[id].active[0] && t.rooms[id].generation == s.rooms[id].generation + 1)
      && (s.rooms[id].owner != p ==> t.rooms[id].owner == s.rooms[id].owner && t.rooms[id].generation == s.rooms[id].generation)
  {
    hide Keep, RoomOk, Clocked;
  }
}

/** The server as an object, changed step by step; every method is proved against its rule. */
module ServerObject {
  import opened Model
  import opened Storage
  import Rules
  import Sessions
  import IndexSet
  import Invariants
  import Pruning
  import Queue
  import Relay
  import Restart
  import Safety
  import Udp
  import Rates
  import AntiReplay

  class Server {
    const cfg: Config
    const store: Store
    var players: map<Id, Player>
    var rooms: map<Id, Room>
    var conns: map<nat, Connection>
    var delayed: seq<Delayed>
    var now: nat
    ghost var issued: set<Id>
    ghost var sockets: set<nat>

    predicate Valid()
      reads this
    {
      store.enabled == cfg.stored && store.max == cfg.quota
    }

    /** The state that the rules speak about. */
    ghost function Value(): State
      reads this, store
    {
      State(players, rooms, conns, delayed, store.disk, store.accounts, store.jobs, issued, store.evicted, sockets, now)
    }

    constructor (cfg: Config, store: Store, now: nat)
      requires store.enabled == cfg.stored && store.max == cfg.quota
      ensures Valid() && this.cfg == cfg && this.store == store
      ensures Value() == State(map[], map[], map[], [], store.disk, store.accounts, store.jobs, store.disk.Keys, store.evicted, {}, now)
    {
      this.cfg, this.store, this.now := cfg, store, now;
      players, rooms, conns, delayed := map[], map[], map[], [];
      issued, sockets := store.disk.Keys, {};
    }

    // ---- membership

    /** Takes `p` off the reservations of every room. */
    method Unreserve(p: Id)
      modifies this`rooms
      ensures rooms == Invariants.Unreserved(old(rooms), {p})
    {
      var todo := rooms.Keys;
      while todo != {}
        invariant todo <= rooms.Keys == old(rooms.Keys)
        invariant forall id :: id in rooms ==>
          rooms[id] == if id in todo then old(rooms)[id] else old(rooms)[id].(reservations := old(rooms)[id].reservations - {p})
        decreases todo
      {
        var id :| id in todo;
        todo := todo - {id};
        rooms := rooms[id := rooms[id].(reservations := rooms[id].reservations - {p})];
      }
    }

    method Keep(id: Id, r: Room, io: Io)
      requires Valid()
      modifies this, store
      ensures Valid() && Value() == Rules.Keep(cfg, old(Value()), id, r, io)
    {
      if r.persistent && r.active == [] {
        var ok := store.Save(id, r, io.save);
        if ok {
          var gone := store.Prune(rooms.Keys, io.removals);
          assert Pruning.Elements(gone) == set x | x in gone;
          return;
        }
      }
      rooms := rooms[id := r];
    }

    /** Puts everyone in `members` out of the room. */
    method Dismiss(members: set<Id>)
      modifies this`players
      ensures players == Invariants.Idle(old(players), members)
    {
      var todo := members;
      while todo != {}
        invariant todo <= members && players.Keys == old(players.Keys)
        invariant forall q :: q in players ==>
          players[q] == if q in members - todo then Rules.Outside(old(players)[q]) else old(players)[q]
        decreases todo
      {
        var q :| q in todo;
        todo := todo - {q};
        if q in players {
          var player := players[q];
          players := players[q := player.(room := None, entered := None, version := player.version + 1)];
        }
      }
    }

    method Leave(p: Id, disconnected: bool, io: Io)
      requires Valid() && p in players
      modifies this, store
      ensures Valid() && Value() == Rules.Leave(cfg, old(Value()), p, disconnected, io)
    {
      ghost var before := Value();
      var player := players[p];
      var id := player.room;
      players := players[p := player.(room := None, entered := None, version := player.version + 1)];
      if !disconnected { Unreserve(p); }
      ghost var out := Value();
      assert out == before.(players := before.players[p := Rules.Outside(before.players[p])],
        rooms := if disconnected then before.rooms
                 else map x | x in before.rooms :: before.rooms[x].(reservations := before.rooms[x].reservations - {p}));
      if id.None? || id.value !in rooms { return; }
      LeaveRoom(p, id.value, disconnected, io);
    }

    /** The room once `p` is out of it, with its upload and its reservation settled. */
    static method TakeOut(room: Room, p: Id, disconnected: bool) returns (r: Room)
      ensures r.active == IndexSet.Remove(room.active, p)
      ensures r.(active := Rules.Remaining(room, p)) == Rules.Without(room, p, disconnected)
      ensures r.started == room.started && r.fixed == room.fixed && r.migration == room.migration
      ensures r.owner == room.owner
    {
      r := room.(active := IndexSet.Remove(room.active, p));
      if r.upload.Some? && r.upload.value.owner == p { r := r.(upload := None); }
      if disconnected && r.started {
        r := r.(reservations := r.reservations + {p});
      } else {
        r := r.(reservations := r.reservations - {p});
      }
    }

    /** The part of `leave` that concerns the room left. */
    method LeaveRoom(p: Id, id: Id, disconnected: bool, io: Io)
      requires Valid() && id in rooms
      modifies this, store
      ensures Valid() && Value() == Rules.Depart(cfg, old(Value()), p, id, disconnected, io)
    {
      hide Rules.Settle, Rules.Dismissed, Rules.Vacate, Rules.Without;
      var r := Empty(p, id, disconnected);
      Settle(p, id, r, io);
    }

    /** Takes the room out of the table, with `p` out of it, and everyone else too if losing its owner ends the game. */
    method Empty(p: Id, id: Id, disconnected: bool) returns (r: Room)
      requires Valid() && id in rooms
      modifies this`rooms, this`players
      ensures r == Rules.Without(old(rooms)[id], p, disconnected)
      ensures Value() == Rules.Vacate(old(Value()), id, Rules.Dismissed(old(rooms)[id], p))
    {
      hide Rules.Settle, Rules.Dismissed, Rules.Vacate, Rules.Without, Rules.Remaining, IndexSet.Remove;
      hide Invariants.Idle, Rules.Disbands;
      ghost var before := Value();
      r := rooms[id];
      ghost var was := r;
      rooms := rooms - {id};
      r := TakeOut(r, p, disconnected);
      assert Rules.Disbands(was, p) <==> r.started && r.fixed && !r.migration && r.owner == p by { DisbandsIs(was, p); }
      if r.started && r.fixed && !r.migration && r.owner == p {
        var rest := set q | q in r.active;
        Dismiss(rest);
        r := r.(active := []);
        Vacating(before, id, was, p, rest);
      } else {
        NobodyDismissed(before, id, was, p);
      }
    }

    /** The end of `leave`: the room goes back to memory under its next owner, to disk, or away. */
    method Settle(p: Id, id: Id, left: Room, io: Io)
      requires Valid()
      modifies this, store
      ensures Valid() && Value() == Rules.Settle(cfg, old(Value()), p, id, left, io)
    {
      hide Rules.Keep;
      if left.active == [] {
        if left.persistent { Keep(id, left, io); }
        return;
      }
      var r := left;
      if r.owner == p {
        r := r.(owner := r.active[0], generation := r.generation + 1);
      }
      rooms := rooms[id := r];
    }

    static lemma DisbandsIs(r: Room, p: Id)
      ensures Rules.Disbands(r, p) <==> r.started && r.fixed && !r.migration && r.owner == p
    {
    }

    static lemma Vacating(s: State, id: Id, r: Room, p: Id, rest: set<Id>)
      requires Rules.Disbands(r, p) && rest == set q | q in IndexSet.Remove(r.active, p)
      ensures Rules.Remaining(r, p) == []
      ensures Rules.Vacate(s, id, Rules.Dismissed(r, p)) == s.(rooms := s.rooms - {id}, players := Invariants.Idle(s.players, rest))
    {
      assert rest == set q | q in r.active && q != p;
    }

    static lemma NobodyDismissed(s: State, id: Id, r: Room, p: Id)
      requires !Rules.Disbands(r, p)
      ensures Rules.Remaining(r, p) == IndexSet.Remove(r.active, p)
      ensures Rules.Vacate(s, id, Rules.Dismissed(r, p)) == s.(rooms := s.rooms - {id})
    {
      assert Invariants.Idle(s.players, {}) == s.players;
    }

    method Enter(p: Id, id: Id, password: Option<Json>, io: Io)
      requires Valid() && p in players
      modifies this`rooms, this`players
      ensures Valid() && Value() == Rules.Enter(cfg, old(Value()), p, id, password, io)
    {
      hide Rules.Load, Rules.Refusal, Rules.Joined, Rules.Inside;
      ghost var before := rooms;
      if players[p].room.Some? { return; }
      if id !in rooms {
        var loaded := Rules.Load(cfg, store.disk, id, io.readable);
        if !loaded.Found? { return; }
        rooms := rooms[id := loaded.room];
      }
      var r := rooms[id];
      assert rooms == before[id := r];
      var refused := Rules.Refusal(r, p, password);
      if refused.Some? {
        if r.active == [] && r.persistent {
          rooms := rooms - {id};
          assert rooms == before - {id};
        }
        return;
      }
      Join(p, id);
      assert rooms == before[id := Rules.Joined(r, p)];
    }

    /** The end of `enter`: the first to come back to a stored world takes it over, and everyone who enters is a member. */
    method Join(p: Id, id: Id)
      requires p in players && id in rooms
      modifies this`rooms, this`players
      ensures rooms == old(rooms)[id := Rules.Joined(old(rooms)[id], p)]
      ensures players == old(players)[p := Rules.Inside(old(players)[p], id, now)]
    {
      var r := rooms[id];
      if r.persistent && r.active == [] {
        r := r.(owner := p, generation := r.generation + 1, upload := None);
      }
      r := r.(active := IndexSet.Insert(r.active, p));
      r := r.(reservations := r.reservations - {p});
      rooms := rooms[id := r];
      var player := players[p];
      players := players[p := player.(room := Some(id), entered := Some(now), version := player.version + 1)];
    }

    method CreateRoom(p: Id, q: Request, io: Io)
      requires Valid() && p in players && q.CreateRoom?
      modifies this`rooms, this`players, this`issued
      ensures Valid() && Value() == Rules.Create(cfg, old(Value()), p, q.id, q.info, q.max, q.password, q.fits, io)
    {
      if players[p].room.Some? || |rooms| >= cfg.maxRooms || !q.fits { return; }
      rooms := rooms[q.id := NewRoom(q.info, p, q.max, q.password, now)];
      issued := issued + {q.id};
      Enter(p, q.id, q.password, io);
    }

    // ---- accounts and sockets

    /** The accounts that have been offline for too long. */
    method Overdue() returns (ids: set<Id>)
      ensures ids == set p | p in players && Rules.Expired(cfg, Value(), p)
    {
      ids := {};
      var todo := players.Keys;
      while todo != {}
        invariant todo <= players.Keys
        invariant ids == set p | p in players && p !in todo && Rules.Expired(cfg, Value(), p)
        decreases todo
      {
        var p :| p in todo;
        todo := todo - {p};
        if && players[p].connection.None? && players[p].offline.Some?
           && Minus(now, players[p].offline.value) >= cfg.accountTtl
           && !(exists id | id in rooms :: rooms[id].fixed && p in rooms[id].players)
        {
          ids := ids + {p};
        }
      }
    }

    method Expire()
      requires Valid()
      modifies this`players, this`rooms
      ensures Valid() && Value() == Rules.Expire(cfg, old(Value()))
    {
      var ids := Overdue();
      var todo := ids;
      UnreservedNone(rooms);
      assert ids - todo == {};
      while todo != {}
        invariant todo <= ids
        invariant players == old(players) - (ids - todo)
        invariant rooms == Invariants.Unreserved(old(rooms), ids - todo)
        decreases todo
      {
        var id :| id in todo;
        ghost var done := ids - todo;
        todo := todo - {id};
        players := players - {id};
        Unreserve(id);
        assert ids - todo == done + {id};
        UnreservedTwice(old(rooms), done, id);
      }
      assert ids - todo == ids;
    }

    static lemma UnreservedNone(before: map<Id, Room>)
      ensures Invariants.Unreserved(before, {}) == before
    {
      forall x | x in before ensures before[x].reservations - {} == before[x].reservations {}
    }

    static lemma UnreservedTwice(before: map<Id, Room>, done: set<Id>, id: Id)
      ensures Invariants.Unreserved(Invariants.Unreserved(before, done), {id}) == Invariants.Unreserved(before, done + {id})
    {
      forall x | x in before ensures before[x].reservations - done - {id} == before[x].reservations - (done + {id}) {}
    }

    /** Sets the closing mark, as every close of a socket does. */
    method Close(cid: nat)
      modifies this`conns
      ensures Value() == Rules.Closing(old(Value()), cid)
    {
      if cid in conns { conns := conns[cid := conns[cid].(closing := true)]; }
    }

    /** Drops the queued frames of a socket. */
    method Forget(cid: nat)
      modifies this`delayed
      ensures delayed == Rules.WithoutFrames(old(delayed), cid)
    {
      var kept: seq<Delayed> := [];
      for i := 0 to |delayed|
        invariant kept == Rules.WithoutFrames(delayed[..i], cid)
      {
        assert delayed[..i + 1][..i] == delayed[..i];
        if delayed[i].cid != cid { kept := kept + [delayed[i]]; }
      }
      assert delayed[..|delayed|] == delayed;
      delayed := kept;
    }

    method Disconnect(cid: nat, io: Io)
      requires Valid()
      modifies this, store
      ensures Valid() && Value() == Rules.Disconnect(cfg, old(Value()), cid, io)
    {
      if cid !in conns { return; }
      Forget(cid);
      var who := conns[cid].player;
      conns := conns - {cid};
      if who.Some? && who.value in players && players[who.value].connection == Some(cid) {
        players := players[who.value := players[who.value].(connection := None, offline := Some(now))];
        Leave(who.value, true, io);
      }
    }

    /** The end of `authenticate`: the account `id` moves to socket `cid`. */
    method Bind(cid: nat, id: Id, io: Io)
      requires Valid() && cid in conns && id in players
      modifies this`conns, this`delayed, this`players, store`accounts
      ensures Valid() && Value() == Rules.Bind(cfg, old(Value()), cid, id, io)
    {
      var before := players[id].connection;
      if before.Some? {
        Close(before.value);
        Forget(before.value);
      }
      players := players[id := players[id].(connection := Some(cid), offline := None)];
      conns := conns[cid := conns[cid].(player := Some(id))];
      if cfg.stored && io.account { store.accounts := store.accounts[id := players[id].secret]; }
    }

    method LogIn(cid: nat, key: Id, exact: bool, password: Json, io: Io)
      requires Valid() && cid in conns
      modifies this, store
      ensures Valid() && Value() == Rules.LogIn(cfg, old(Value()), cid, key, exact, password, io)
    {
      ghost var s := Value();
      var account: Option<Player> := None;
      if exact && key in players {
        account := Some(players[key]);
      } else if cfg.stored && key in store.accounts {
        if !io.readable { return; }
        account := Some(Player(store.accounts[key], None, None, None, Some(now), 0));
      }
      if account.None? || account.value.secret != password {
        Close(cid);
        return;
      }
      players := players[key := account.value];
      ghost var known := Value();
      assert known == s.(players := s.players[key := account.value]);
      if account.value.room.Some? && account.value.room.value in rooms
         && rooms[account.value.room.value].started && rooms[account.value.room.value].fixed
      {
        Leave(key, true, io);
        Invariants.LeaveMoves(cfg, known, key, true, io);
      }
      Bind(cid, key, io);
    }

    method Authenticate(cid: nat, c: Credentials, io: Io)
      requires Valid() && cid in conns
      modifies this, store
      ensures Valid() && Value() == Rules.Authenticate(cfg, old(Value()), cid, c, io)
    {
      Expire();
      match c {
        case Login(key, exact, password) => LogIn(cid, key, exact, password, io);
        case Guest(id, secret) =>
          if |players| >= cfg.maxAccounts {
            Close(cid);
          } else {
            players := players[id := Player(secret, None, None, None, Some(now), 0)];
            Bind(cid, id, io);
          }
      }
    }

    method Connected(cid: nat)
      requires Valid()
      modifies this`conns, this`sockets
      ensures Valid() && Value() == Rules.Connect(old(Value()), cid)
    {
      conns := conns[cid := NewConnection(now)];
      sockets := sockets + {cid};
    }

    // ---- requests in a room

    /** `beginSession` on the room taken out of the table. */
    method BeginSession(room: Room, p: Id, q: Request) returns (r: Room, reply: Sessions.Reply)
      requires q.BeginSession?
      ensures (r, reply) == Sessions.Begin(cfg, room, p, q.request, q.revision, q.generation, q.size, now)
    {
      r := room;
      if !r.persistent { return r, Sessions.Error("unavailable"); }
      if r.owner != p { return r, Sessions.Error("not_room_owner"); }
      if q.revision != r.revision || q.generation != r.generation { return r, Sessions.Error("stale_session"); }
      if q.size > cfg.maxSession { return r, Sessions.Error("payload_too_large"); }
      var blank := seq(q.size, _ => 0);
      r := r.(upload := Some(Upload(q.request, p, r.generation, r.revision, blank, 0, now)));
      reply := Sessions.Offset(0);
    }

    /** `upload`: a chunk frame for the room taken out of the table. */
    method Chunk(room: Room, p: Id, b: seq<byte>) returns (r: Room, reply: Sessions.Reply)
      ensures (r, reply) == Sessions.Chunk(room, p, b, now)
    {
      r, reply := room, Sessions.Silent;
      if |b| < 22 { return; }
      if r.upload.None? { return; }
      var u := r.upload.value;
      if !Sessions.Continues(r, u, p, b) {
        r := r.(upload := None);
        return r, Sessions.Error("stale_session");
      }
      var end := u.offset + |b| - 21;
      u := u.(bytes := u.bytes[..u.offset] + b[21..] + u.bytes[end..]);
      u := u.(offset := end);
      u := u.(at := now);
      r := r.(upload := Some(u));
      reply := Sessions.Offset(u.offset);
    }

    /** `commitSession`: jobs first, then the state; a failed job write changes neither. */
    method CommitSession(id: Id, room: Room, p: Id, q: Request, io: Io) returns (r: Room, reply: Sessions.Reply)
      requires Valid() && q.CommitSession?
      modifies store`jobs
      ensures (r, reply) == Sessions.Commit(room, p, q.request, q.scheduled, q.immediate, io.jobs, now)
      ensures store.jobs ==
        if reply.Revision? then
          Rules.WithJobs(old(store.jobs), id, Sessions.Merge(Rules.Jobs(old(store.jobs), id), room.events, q.scheduled, q.immediate))
        else old(store.jobs)
    {
      r := room;
      if !r.persistent { return r, Sessions.Error("unavailable"); }
      if r.owner != p { return r, Sessions.Error("not_room_owner"); }
      if !Sessions.Complete(r, p, q.request) { return r, Sessions.Error("stale_session"); }
      if !Sessions.Addressed(r, q.scheduled) || !Sessions.Addressed(r, q.immediate) {
        return r, Sessions.Error("invalid_message");
      }
      var written := store.Commit(id, r.events, q.scheduled, q.immediate, io.jobs);
      if !written { return r, Sessions.Error("storage_error"); }
      if q.immediate.Some? {
        r := r.(events := IndexSet.Insert(r.events, q.immediate.value.eventId));
        if |r.events| > 128 { r := r.(events := r.events[1..]); }
      }
      r := r.(state := r.upload.value.bytes, upload := None);
      r := r.(revision := r.revision + 1);
      r := r.(updated := now);
      reply := Sessions.Revision(r.revision);
    }

    /** `updateRoom`: a change that would not fit is undone. */
    method UpdateRoom(room: Room, p: Id, q: Request) returns (r: Room)
      requires q.UpdateRoom?
      ensures r == Rules.Update(room, p, q)
    {
      r := room;
      if r.owner != p || r.started { return; }
      var max := if q.capacity.Some? then q.capacity.value else r.max;
      if max < |r.active| { return; }
      var before := (r.max, r.info, r.password);
      ghost var was := r;
      r := r.(max := max);
      if q.name.Some? { r := r.(info := r.info.(name := q.name.value)); }
      if q.newPassword.Some? { r := r.(password := q.newPassword.value); }
      if !q.fits {
        r := r.(max := before.0, info := before.1, password := before.2);
        assert r == was;
        return;
      }
      if q.close.Some? { r := r.(closed := q.close.value); }
    }

    /** `startGame`: rosters, migration and storage are settled before the game counts as started. */
    method StartGame(room: Room, p: Id, q: Request) returns (r: Room)
      requires q.StartGame?
      ensures r == Rules.Start(cfg, room, p, q, now)
    {
      r := room;
      if r.owner != p || r.started || !q.fits { return; }
      r := r.(fixed := q.fixed, migration := q.fixed && q.migration);
      r := r.(persistent := cfg.stored && r.migration && q.persistent);
      r := r.(start := if r.persistent then Some(q.data) else None, updated := now);
      if r.fixed { r := r.(players := r.active); }
      r := r.(started := true);
    }

    method NotifyPlayers(room: Room, p: Id, q: Request) returns (r: Room)
      requires q.Notify?
      ensures r == Rules.Notified(cfg, room, p, q)
    {
      r := room;
      if !cfg.push || r.owner != p { return; }
      if !r.started || !r.fixed || exists x | x in q.to :: x !in r.players { return; }
      if q.eventId in r.events { return; }
      if q.limited { return; }
      r := r.(events := IndexSet.Insert(r.events, q.eventId));
      if |r.events| > 128 { r := r.(events := r.events[1..]); }
    }

    /** `room_message` on the room taken out of the table. */
    method RoomMessage(id: Id, room: Room, p: Id, q: Request, io: Io) returns (r: Room)
      requires Valid()
      modifies store`jobs
      ensures r == Rules.RoomRequest(cfg, room, p, q, io, now)
      ensures store.jobs ==
        if q.CommitSession? && Sessions.CommitVerdict(room, p, q.request, q.scheduled, q.immediate, io.jobs).Revision? then
          Rules.WithJobs(old(store.jobs), id, Sessions.Merge(Rules.Jobs(old(store.jobs), id), room.events, q.scheduled, q.immediate))
        else old(store.jobs)
    {
      hide Sessions.Begin, Sessions.Merge, Rules.Update, Rules.Start;
      r := room;
      match q {
        case UpdateRoom(_, _, _, _, _) => r := UpdateRoom(r, p, q);
        case StartGame(_, _, _, _, _) => r := StartGame(r, p, q);
        case SetMeta(meta, fits) =>
          if r.owner == p && fits { r := r.(info := r.info.(meta := meta)); }
        case Notify(_, _, _) => r := NotifyPlayers(r, p, q);
        case BeginSession(_, _, _, _) =>
          var reply: Sessions.Reply;
          r, reply := BeginSession(r, p, q);
        case CommitSession(_, _, _) =>
          var reply: Sessions.Reply;
          r, reply := CommitSession(id, r, p, q, io);
        case _ =>
      }
    }

    // ---- requests

    /** The part of `handle` that needs the room of `p`: it is taken out of the table, changed and put back. */
    method InRoom(p: Id, q: Request, io: Io)
      requires Valid() && p in players
      modifies this`rooms, store`jobs
      ensures Valid() && Value() == Rules.InRoom(cfg, old(Value()), p, q, io)
    {
      hide Rules.RoomRequest, Sessions.CommitVerdict, Sessions.Merge, Rules.WithJobs;
      var id := players[p].room;
      if id.None? || id.value !in rooms { return; }
      ghost var before := rooms;
      var r := rooms[id.value];
      rooms := rooms - {id.value};
      r := RoomMessage(id.value, r, p, q, io);
      rooms := rooms[id.value := r];
      assert rooms == before[id.value := r];
    }

    method Handle(cid: nat, p: Id, q: Request, io: Io)
      requires Valid() && p in players && cid in conns
      modifies this, store
      ensures Valid() && Value() == Rules.Handle(cfg, old(Value()), cid, p, q, io)
    {
      hide Rules.Create, Rules.Enter, Rules.Leave, Rules.InRoom;
      match q {
        case CreateRoom(_, _, _, _, _) => CreateRoom(p, q, io);
        case EnterRoom(id, password) => Enter(p, id, password, io);
        case LeaveRoom => Leave(p, false, io);
        case OpenUdp(secret) =>
          if cfg.udpEnabled && players[p].room.Some? {
            conns := conns[cid := conns[cid].(udp := Some(NewSession(secret, players[p].version)))];
          }
        case CloseUdp => conns := conns[cid := conns[cid].(udp := None)];
        case Lookup =>
        case Pong =>
        case _ => InRoom(p, q, io);
      }
    }

    method Binary(p: Id, bytes: seq<byte>)
      requires Valid() && p in players
      modifies this`rooms
      ensures Valid() && Value() == Rules.Binary(old(Value()), p, bytes)
    {
      hide Sessions.Chunk;
      var id := players[p].room;
      if id.None? || id.value !in rooms { return; }
      var r := rooms[id.value];
      if r.persistent && bytes != [] && bytes[0] == 2 {
        ghost var before := rooms;
        rooms := rooms - {id.value};
        var after, reply := Chunk(r, p, bytes);
        rooms := rooms[id.value := after];
        assert rooms == before[id.value := after];
      }
    }

    method Dispatch(cid: nat, frame: Frame)
      requires Valid()
      modifies this, store
      ensures Valid() && Value() == Rules.Dispatch(cfg, old(Value()), cid, frame)
    {
      hide Rules.Handle, Rules.Binary;
      if cid !in conns || conns[cid].player.None? { return; }
      var p := conns[cid].player.value;
      if p !in players { return; }
      match frame.body {
        case RequestBody(q) => Handle(cid, p, q, frame.io);
        case BinaryBody(bytes) => Binary(p, bytes);
        case _ =>
      }
    }

    /** Does socket `cid` still serve its account? */
    predicate Serving(cid: nat)
      requires cid in conns
      reads this
      ensures Serving(cid) == Rules.Current(State(players, rooms, conns, delayed, map[], map[], map[], {}, {}, {}, now), cid)
    {
      conns[cid].player.Some? && conns[cid].player.value in players && players[conns[cid].player.value].connection == Some(cid)
    }

    /** A frame that passed the checks of `receive`: queued, or dispatched at once. */
    method Accept(cid: nat, frame: Frame)
      requires Valid() && cid in conns && Rules.Current(Value(), cid)
      modifies this, store
      ensures Valid() && Value() == Rules.Accept(cfg, old(Value()), cid, frame)
    {
      hide Rules.Dispatch;
      if cfg.delay > 0 && frame.body != RequestBody(Pong) {
        var c := conns[cid];
        if c.delayed + frame.size > cfg.maxBuffered || c.pending >= cfg.maxMessages {
          Close(cid);
          return;
        }
        c := c.(delayed := c.delayed + frame.size);
        c := c.(pending := c.pending + 1);
        conns := conns[cid := c];
        delayed := delayed + [Delayed(now + cfg.delay, cid, players[c.player.value].version, Rules.Scoped(frame.body), frame)];
      } else {
        Dispatch(cid, frame);
      }
    }

    method Receive(cid: nat, frame: Frame)
      requires Valid()
      modifies this, store
      ensures Valid() && Value() == Rules.Receive(cfg, old(Value()), cid, frame)
    {
      hide Rules.Accept, Rules.Authenticate;
      if cid !in conns { return; }
      var c := conns[cid];
      if c.closing { return; }
      if c.player.Some? && !Serving(cid) { return; }
      if Minus(now, c.rateAt) >= 1000 { c := c.(rateAt := now, messages := 0); }
      c := c.(messages := c.messages + 1);
      conns := conns[cid := c];
      if c.messages > cfg.maxMessages {
        Close(cid);
        return;
      }
      if frame.body.Ping? || frame.body.PongFrame? { return; }
      if frame.size > cfg.maxPayload {
        Close(cid);
        return;
      }
      if frame.body.Malformed? { return; }
      if c.player.None? {
        if frame.body.AuthBody? { Authenticate(cid, frame.body.credentials, frame.io); }
        return;
      }
      if frame.body.AuthBody? { return; }
      if frame.body.BinaryBody? && !cfg.Fits(frame.size) { return; }
      Accept(cid, frame);
    }

    // ---- maintenance

    /** One due entry of the delayed queue. */
    method Release(d: Delayed)
      requires Valid()
      modifies this, store
      ensures Valid() && Value() == Rules.Release(cfg, old(Value()), d)
    {
      hide Rules.Dispatch;
      if d.cid !in conns { return; }
      var c := conns[d.cid];
      c := c.(delayed := Minus(c.delayed, d.frame.size));
      c := c.(pending := Minus(c.pending, 1));
      conns := conns[d.cid := c];
      if && c.player.Some? && c.player.value in players && !c.closing
         && players[c.player.value].connection == Some(d.cid)
         && (!d.scoped || players[c.player.value].version == d.version)
      {
        Dispatch(d.cid, d.frame);
      }
    }

    /** The first loop of `sweep`: due frames are released in order, the others queued again. */
    method Drain()
      requires Valid()
      modifies this, store
      ensures Valid() && Value() == Rules.Drain(cfg, old(Value()).(delayed := []), old(delayed))
    {
      hide Rules.Release;
      var pending := delayed;
      delayed := [];
      ghost var start, t := Value(), now;
      var i := 0;
      while i < |pending|
        invariant i <= |pending| && Valid() && now == t
        invariant Rules.Drain(cfg, start, pending) == Rules.Drain(cfg, Value(), pending[i..])
      {
        ghost var was := Value();
        assert pending[i..][0] == pending[i] && pending[i..][1..] == pending[i + 1..];
        if pending[i].at > now {
          delayed := delayed + [pending[i]];
        } else {
          Release(pending[i]);
          Unhurried(cfg, was, pending[i]);
        }
        i := i + 1;
      }
    }

    static lemma Unhurried(cfg: Config, s: State, d: Delayed)
      ensures Rules.Release(cfg, s, d).now == s.now
    {
      Queue.ReleaseKeepsQueue(cfg, s, d);
    }

    /** Drops uploads that stalled. */
    method Tidy()
      requires Valid()
      modifies this`rooms
      ensures rooms == Rules.Tidied(old(rooms), now)
    {
      hide Rules.Unstalled;
      var todo := rooms.Keys;
      while todo != {}
        invariant todo <= rooms.Keys == old(rooms.Keys)
        invariant forall id :: id in rooms ==>
          rooms[id] == if id in todo then old(rooms)[id] else Rules.Unstalled(old(rooms)[id], now)
        decreases todo
      {
        var id :| id in todo;
        todo := todo - {id};
        var r := Unstall(rooms[id]);
        rooms := rooms[id := r];
      }
    }

    method Unstall(room: Room) returns (r: Room)
      ensures r == Rules.Unstalled(room, now)
    {
      r := room;
      if r.upload.Some? && Minus(now, r.upload.value.at) > 30000 { r := r.(upload := None); }
    }

    /** Saves the empty rooms again, in the order given. */
    method KeepEmpty(order: seq<(Id, Io)>)
      requires Valid()
      modifies this, store
      ensures Valid() && Value() == Rules.KeepAll(cfg, old(Value()), order)
    {
      hide Rules.Keep;
      var i := 0;
      assert order[0..] == order;
      while i < |order|
        invariant i <= |order| && Valid()
        invariant Rules.KeepAll(cfg, old(Value()), order) == Rules.KeepAll(cfg, Value(), order[i..])
      {
        var (id, io) := order[i];
        assert order[i..][0] == order[i] && order[i..][1..] == order[i + 1..];
        if id in rooms && rooms[id].persistent && rooms[id].active == [] {
          var r := rooms[id];
          rooms := rooms - {id};
          Keep(id, r, io);
        }
        i := i + 1;
      }
    }

    method Sweep(order: seq<(Id, Io)>)
      requires Valid()
      modifies this, store
      ensures Valid() && Value() == Rules.Sweep(cfg, old(Value()), order)
    {
      hide Rules.Drain, Rules.KeepAll, Rules.Expire, Rules.Tidied;
      ghost var before := Value();
      Drain();
      assert now == before.now by { DrainClock(cfg, before.(delayed := []), before.delayed); }
      Tidy();
      KeepEmpty(order);
      Expire();
    }

    static lemma {:induction false} DrainClock(cfg: Config, s: State, queue: seq<Delayed>)
      ensures Rules.Drain(cfg, s, queue).now == s.now
      decreases |queue|
    {
      hide Rules.Release;
      if queue != [] {
        Unhurried(cfg, s, queue[0]);
        DrainClock(cfg, if queue[0].at > s.now then s.(delayed := s.delayed + [queue[0]]) else Rules.Release(cfg, s, queue[0]), queue[1..]);
      }
    }

    // ---- datagrams

    /** Draws the next packet of connection `cid`, if its quota and its counter allow one. */
    method Packet(cid: nat, kind: byte, sender: Id, payload: seq<byte>) returns (packet: Option<seq<byte>>)
      requires cid in conns && conns[cid].udp.Some?
      modifies this`conns
      ensures var (c, sent) := Udp.Emit(cfg, old(conns)[cid], cid, kind, sender, payload, now);
        conns == old(conns)[cid := c] && packet == sent
    {
      hide Udp.Encode;
      var c := conns[cid];
      var (rate, ok) := Rates.Accept(c.outgoing, now, cfg.udpOutgoing);
      c := c.(outgoing := rate);
      packet := None;
      var session := c.udp.value;
      if ok && session.outgoing + 1 < AntiReplay.WORD {
        session := session.(outgoing := session.outgoing + 1);
        packet := Some(Udp.Encode(cfg, session.secret, kind, cid, session.outgoing, sender, payload));
        c := c.(udp := Some(session));
      }
      conns := conns[cid := c];
    }

    /** Delivers `payload` to the other members `ids` that it addresses. */
    method Deliver(ids: seq<Id>, p: Id, target: Id, payload: seq<byte>) returns (output: Udp.Output)
      modifies this`conns
      ensures (conns, output) == Udp.Spread(cfg, players, old(conns), ids, p, target, payload, now)
    {
      hide Udp.Emit;
      output := [];
      for i := 0 to |ids|
        invariant (conns, output) == Udp.Spread(cfg, players, old(conns), ids[..i], p, target, payload, now)
      {
        assert ids[..i + 1][..|ids[..i + 1]| - 1] == ids[..i];
        var q := ids[i];
        if q != p && (target == Udp.BROADCAST || q == target) && q in players && players[q].connection.Some? {
          var cid := players[q].connection.value;
          if Udp.Reachable(cfg, conns, cid, players[q].version, now) {
            var address := conns[cid].udp.value.endpoint.value.address;
            var packet := Packet(cid, Udp.DELIVERED, p, payload);
            output := output + Udp.To(address, packet);
          }
        }
      }
      assert ids[..|ids|] == ids;
    }

    /** A probe, an echo or data that passed every check, on the metered connection `cid`. */
    method Answer(cid: nat, pk: Udp.Packet, source: Address, nonce: seq<byte>) returns (output: Udp.Output)
      requires Valid() && Udp.Live(Value(), cid) && pk.cid == cid
      modifies this`conns
      ensures var s, c := old(Value()), old(conns)[cid];
        if pk.kind == Udp.DATA then (Value(), output) == Udp.Data(cfg, s, cid, source, pk.target, pk.payload)
        else
          var (d, sent) := if pk.kind == Udp.PROBE then Udp.Probe(cfg, c, cid, source, nonce, s.now)
                           else Udp.Echo(cfg, c, cid, source, pk.payload, s.now);
          Value() == s.(conns := s.conns[cid := d]) && output == sent
    {
      hide Udp.Emit, Udp.Spread;
      output := [];
      var c := conns[cid];
      var session := c.udp.value;
      if pk.kind == Udp.PROBE {
        session := session.(challenge := Some(Challenge(source, nonce, now)));
        conns := conns[cid := c.(udp := Some(session))];
        var packet := Packet(cid, Udp.CHALLENGE, 0, nonce);
        if packet.Some? { output := [(source, packet.value)]; }
      } else if pk.kind != Udp.DATA {
        if Udp.Answers(cfg, session, source, pk.payload, now) {
          var challenge := session.challenge.value.nonce;
          session := session.(challenge := None);
          session := session.(endpoint := Some(Binding(source, now)));
          conns := conns[cid := c.(udp := Some(session))];
          var packet := Packet(cid, Udp.BOUND, 0, challenge);
          if packet.Some? { output := [(source, packet.value)]; }
        } else {
          assert conns == old(conns)[cid := c];
        }
      } else {
        if !Udp.FromEndpoint(cfg, session, source, now) { return; }
        session := session.(endpoint := Some(Binding(source, now)));
        conns := conns[cid := c.(udp := Some(session))];
        var p := c.player.value;
        output := Deliver(rooms[players[p].room.value].active, p, pk.target, pk.payload);
      }
    }

    /** `datagram_at`: the checks in order, cheapest first; nothing is charged before the tag is verified. */
    method DatagramAt(bytes: seq<byte>, source: Address, nonce: seq<byte>) returns (output: Udp.Output)
      requires Valid()
      modifies this`conns
      ensures (Value(), output) == Udp.Datagram(cfg, old(Value()), bytes, source, nonce)
    {
      hide Udp.Data, Udp.Probe, Udp.Echo, AntiReplay.Admit, Rates.Accept;
      output := [];
      if !Udp.Framed(cfg, bytes) { return; }
      var pk := Udp.Fields(bytes);
      if !Udp.Sensible(pk) { return; }
      if pk.cid !in conns || conns[pk.cid].closing { return; }
      var c := conns[pk.cid];
      if c.player.None? || c.player.value !in players { return; }
      var player := players[c.player.value];
      if player.connection != Some(pk.cid) { return; }
      if player.room.None? || player.room.value !in rooms { return; }
      if c.player.value !in rooms[player.room.value].active { return; }
      if c.udp.None? || c.udp.value.version != player.version { return; }
      var session := c.udp.value;
      if bytes[|bytes| - Udp.TAG..] != cfg.mac(session.secret, bytes[..|bytes| - Udp.TAG]) { return; }
      var (replay, isNew) := AntiReplay.Admit(session.replay, pk.sequence);
      if !isNew { return; }
      var (rate, ok) := Rates.Accept(c.incoming, now, cfg.udpIncoming);
      c := c.(udp := Some(session.(replay := replay)), incoming := rate);
      conns := conns[pk.cid := c];
      if !ok { return; }
      output := Answer(pk.cid, pk, source, nonce);
    }

    // ---- shutdown

    /** `stop`: every socket is closed and every persistent room saved, in the order given, up to the first failure. */
    method Stop(order: seq<(Id, Option<nat>)>) returns (ok: bool)
      requires Valid()
      modifies this`conns, store`disk
      ensures conns.Keys == old(conns.Keys) && forall cid :: cid in conns ==> conns[cid] == old(conns)[cid].(closing := true)
      ensures store.disk == Restart.Flush(old(store.disk), rooms, order)
    {
      var todo := conns.Keys;
      while todo != {}
        invariant todo <= conns.Keys == old(conns.Keys) && store.disk == old(store.disk)
        invariant forall cid :: cid in conns ==>
          conns[cid] == if cid in todo then old(conns)[cid] else old(conns)[cid].(closing := true)
        decreases todo
      {
        var cid :| cid in todo;
        todo := todo - {cid};
        conns := conns[cid := conns[cid].(closing := true)];
      }
      assert order[0..] == order;
      ghost var shut := conns;
      var i := 0;
      while i < |order|
        invariant conns == shut
        invariant i <= |order|
        invariant Restart.Flush(old(store.disk), rooms, order) == Restart.Flush(store.disk, rooms, order[i..])
      {
        var (id, save) := order[i];
        assert order[i..][0] == order[i] && order[i..][1..] == order[i + 1..];
        if id in rooms && rooms[id].persistent {
          var saved := store.Save(id, rooms[id], save);
          if !saved { return false; }
        }
        i := i + 1;
      }
      ok := true;
    }

    // ---- commands

    /** One command of the state worker: the object goes where the state machine goes, and keeps its invariants. */
    method Perform(c: Relay.Step) returns (output: Udp.Output)
      requires Valid()
      modifies this, store
      ensures Valid() && Value() == Relay.Next(cfg, old(Value()), c) && output == Relay.Sent(cfg, old(Value()), c)
      ensures old(Invariants.Inv(Value()) && Relay.Lawful(cfg, Value(), c)) ==> Invariants.Inv(Value())
    {
      hide Invariants.Inv, Relay.Lawful, Relay.Next, Relay.Sent;
      ghost var before := Value();
      output := Run(c);
      if Invariants.Inv(before) && Relay.Lawful(cfg, before, c) { Safety.StepHolds(cfg, before, c); }
    }

    method Run(c: Relay.Step) returns (output: Udp.Output)
      requires Valid()
      modifies this, store
      ensures Valid() && Value() == Relay.Next(cfg, old(Value()), c) && output == Relay.Sent(cfg, old(Value()), c)
    {
      hide Rules.Connect, Rules.Disconnect, Rules.Receive, Rules.Closing, Rules.Sweep, Udp.Datagram;
      now := c.at;
      assert Value() == Relay.At(old(Value()), c.at);
      output := [];
      match c.action {
        case Connected(cid) => Connected(cid);
        case Disconnected(cid, io) => Disconnect(cid, io);
        case Received(cid, frame) => Receive(cid, frame);
        case Arrived(bytes, source, nonce) => output := DatagramAt(bytes, source, nonce);
        case Closed(cid) => Close(cid);
        case Swept(order) => Sweep(order);
      }
    }
  }
}

/** What leaving, creating a room, taking over and starting a game leave behind, all of it. */
module Departures {
  import opened Model
  import opened Rules
  import opened Invariants
  import IndexSet
  import Preservation
  import Quota

  // ---- departures

  /** The departure of its owner ends a started game with a fixed roster and no migration. */
  predicate EndsGame(r: Room, p: Id) {
    r.started && r.fixed && !r.migration && r.owner == p
  }

  /** Who stays in the room, in order. */
  function Stay(r: Room, p: Id): seq<Id> {
    if EndsGame(r, p) then [] else IndexSet.Remove(r.active, p)
  }

  function Reserved(r: Room, p: Id, disconnected: bool): set<Id> {
    if disconnected && r.started then r.reservations + {p} else r.reservations - {p}
  }

  /** The player is in no room, in a new membership version. */
  predicate WentOut(before: Player, after: Player) {
    after == before.(room := None, entered := None, version := before.version + 1)
  }

  /** What became of the players. */
  ghost predicate PlayersAfter(s: State, t: State, p: Id, r: Room) {
    && t.players.Keys == s.players.Keys && p in s.players && WentOut(s.players[p], t.players[p])
    && forall q :: q in s.players && q != p ==>
         if EndsGame(r, p) && q in r.active then WentOut(s.players[q], t.players[q]) else t.players[q] == s.players[q]
  }

  /** What became of the room that was left. */
  ghost predicate RoomAfter(cfg: Config, s: State, t: State, p: Id, id: Id, r: Room, disconnected: bool, io: Io) {
    var stay := Stay(r, p);
    if stay != [] then
      && id in t.rooms
      && t.rooms[id] == r.(active := stay, reservations := Reserved(r, p, disconnected),
           owner := if r.owner == p then stay[0] else r.owner,
           generation := if r.owner == p then r.generation + 1 else r.generation,
           upload := if r.upload.Some? && r.upload.value.owner == p then None else r.upload)
    else if !r.persistent then id !in t.rooms
    else if io.save.None? then
      && id in t.rooms
      && t.rooms[id] == r.(active := [], reservations := Reserved(r, p, disconnected), upload := t.rooms[id].upload)
    else
      id !in t.rooms && ((id in t.disk && t.disk[id].world == Some(ToWorld(r))) || (id !in t.disk && id in t.evicted))
  }

  lemma DismissedAre(r: Room, p: Id)
    ensures Dismissed(r, p) == if EndsGame(r, p) then set q | q in r.active && q != p else {}
    ensures Remaining(r, p) == Stay(r, p)
  {
  }

  lemma PlayersGo(cfg: Config, s: State, p: Id, disconnected: bool, io: Io)
    requires p in s.players && s.players[p].room.Some? && s.players[p].room.value in s.rooms
    ensures PlayersAfter(s, Leave(cfg, s, p, disconnected, io), p, s.rooms[s.players[p].room.value])
  {
    hide Leave, IndexSet.Remove;
    LeaveMoves(cfg, s, p, disconnected, io);
    DismissedAre(s.rooms[s.players[p].room.value], p);
  }

  /** The room with somebody left in it, and the one that goes empty. */
  lemma LeftRoom(r: Room, p: Id, disconnected: bool)
    ensures var left := Without(r, p, disconnected);
      && left == r.(active := Stay(r, p), reservations := Reserved(r, p, disconnected), upload := left.upload)
      && left.upload == (if r.upload.Some? && r.upload.value.owner == p then None else r.upload)
      && (Stay(r, p) != [] ==>
            Succeeded(left, p) == left.(owner := if r.owner == p then Stay(r, p)[0] else r.owner,
                                        generation := if r.owner == p then r.generation + 1 else r.generation))
      && ToWorld(left) == ToWorld(r)
  {
    hide IndexSet.Remove;
  }

  lemma DepartExactly(cfg: Config, s: State, p: Id, id: Id, disconnected: bool, io: Io)
    requires id in s.rooms
    ensures RoomAfter(cfg, s, Depart(cfg, s, p, id, disconnected, io), p, id, s.rooms[id], disconnected, io)
    ensures var t := Depart(cfg, s, p, id, disconnected, io);
      forall x :: x != id ==> (x in t.rooms <==> x in s.rooms) && (x in s.rooms ==> t.rooms[x] == s.rooms[x])
  {
    hide Keep, Dismissed, Remaining, Without, Succeeded, Stay, Reserved, RoomAfter;
    var r, left := s.rooms[id], Without(s.rooms[id], p, disconnected);
    var t := Depart(cfg, s, p, id, disconnected, io);
    LeftRoom(r, p, disconnected);
    if left.active != [] {
      assert t.rooms == s.rooms[id := Succeeded(left, p)];
      AfterStay(cfg, s, t, p, id, r, disconnected, io);
    } else if left.persistent {
      KeptExactly(cfg, Vacate(s, id, Dismissed(r, p)), id, left, io);
      AfterKept(cfg, s, t, p, id, r, disconnected, io);
    } else {
      AfterGone(cfg, s, t, p, id, r, disconnected, io);
    }
  }

  lemma AfterStay(cfg: Config, s: State, t: State, p: Id, id: Id, r: Room, disconnected: bool, io: Io)
    requires Stay(r, p) != [] && id in t.rooms && t.rooms[id] == Succeeded(Without(r, p, disconnected), p)
    ensures RoomAfter(cfg, s, t, p, id, r, disconnected, io)
  {
    hide Without, Stay, Reserved, Succeeded;
    LeftRoom(r, p, disconnected);
  }

  lemma AfterGone(cfg: Config, s: State, t: State, p: Id, id: Id, r: Room, disconnected: bool, io: Io)
    requires Stay(r, p) == [] && !r.persistent && id !in t.rooms
    ensures RoomAfter(cfg, s, t, p, id, r, disconnected, io)
  {
    hide Stay, Reserved;
  }

  lemma AfterKept(cfg: Config, s: State, t: State, p: Id, id: Id, r: Room, disconnected: bool, io: Io)
    requires Stay(r, p) == [] && r.persistent
    requires if io.save.None? then id in t.rooms && t.rooms[id] == Without(r, p, disconnected)
             else id !in t.rooms && ((id in t.disk && t.disk[id].world == Some(ToWorld(r))) || (id !in t.disk && id in t.evicted))
    ensures RoomAfter(cfg, s, t, p, id, r, disconnected, io)
  {
    hide Without, Stay, Reserved;
    LeftRoom(r, p, disconnected);
  }

  /** An empty stored room goes to disk, where it is or is evicted, or stays in memory. */
  lemma KeptExactly(cfg: Config, s: State, id: Id, r: Room, io: Io)
    requires id !in s.rooms && r.active == [] && r.persistent
    ensures var t := Keep(cfg, s, id, r, io);
      if io.save.None? then t.rooms == s.rooms[id := r]
      else t.rooms == s.rooms && ((id in t.disk && t.disk[id].world == Some(ToWorld(r))) || (id !in t.disk && id in t.evicted))
  {
    hide Quota.Evicted;
  }

  /**
   * A departure, whole. Leaving as the owner of a started game with a fixed roster and no migration sends everybody out and
   * ends the room. Any other departure leaves the others in, in their order, under the same owner, or, if the owner left,
   * under the first of the others in a new generation; whoever lost its socket in a started game is reserved, and the
   * leaver's upload is dropped. A stored room left empty goes to disk, or stays in memory if that fails; any other is gone.
   * Other rooms lose at most a reservation of one who left on its own account.
   */
  lemma LeaveExactly(cfg: Config, s: State, p: Id, disconnected: bool, io: Io)
    requires p in s.players && s.players[p].room.Some? && s.players[p].room.value in s.rooms
    ensures var id := s.players[p].room.value;
      var t := Leave(cfg, s, p, disconnected, io);
      && PlayersAfter(s, t, p, s.rooms[id]) && RoomAfter(cfg, s, t, p, id, s.rooms[id], disconnected, io)
      && forall x :: x != id ==>
           && (x in t.rooms <==> x in s.rooms)
           && (x in s.rooms ==>
                 t.rooms[x] == (if disconnected then s.rooms[x] else s.rooms[x].(reservations := s.rooms[x].reservations - {p})))
  {
    hide Depart, RoomAfter, IndexSet.Remove;
    var id := s.players[p].room.value;
    PlayersGo(cfg, s, p, disconnected, io);
    var out := s.(players := s.players[p := Outside(s.players[p])],
                  rooms := if disconnected then s.rooms else Unreserved(s.rooms, {p}));
    DepartExactly(cfg, out, p, id, disconnected, io);
    SameRoomAfter(cfg, out, s, Leave(cfg, s, p, disconnected, io), p, id, out.rooms[id], s.rooms[id], disconnected, io);
  }

  lemma SameRoomAfter(cfg: Config, s: State, u: State, t: State, p: Id, id: Id, a: Room, b: Room, disconnected: bool, io: Io)
    requires RoomAfter(cfg, s, t, p, id, a, disconnected, io)
    requires if disconnected then a == b else a == b.(reservations := b.reservations - {p})
    ensures RoomAfter(cfg, u, t, p, id, b, disconnected, io)
  {
    assert Reserved(a, p, disconnected) == Reserved(b, p, disconnected);
  }

  // ---- new rooms

  /**
   * A room is created exactly when its creator is in none, fewer rooms than allowed are in memory, and its description
   * fits; then it is as asked for, open, unstarted, with its creator alone in it and owning it. Otherwise nothing changes.
   */
  lemma CreateExactly(cfg: Config, s: State, p: Id, q: Request, io: Io)
    requires p in s.players && q.CreateRoom? && q.max > 0 && q.id !in s.rooms
    ensures var t := Create(cfg, s, p, q.id, q.info, q.max, q.password, q.fits, io);
      if s.players[p].room.None? && |s.rooms| < cfg.maxRooms && q.fits then
        && t.rooms == s.rooms[q.id := Room(q.info, p, q.max, q.password, [p], {}, [], [], false, false, false, false, 0, false,
                                           None, [], 0, s.now, None)]
        && t.players == s.players[p := s.players[p].(room := Some(q.id), entered := Some(s.now),
                                                     version := s.players[p].version + 1)]
      else t == s
  {
    hide Enter;
    if s.players[p].room.None? && |s.rooms| < cfg.maxRooms && q.fits {
      var blank := NewRoom(q.info, p, q.max, q.password, s.now);
      Preservation.CreateAdmits(cfg, s.(issued := s.issued + {q.id}), p, q.id, blank, q.password, io);
      Alone(blank, p);
    }
  }

  lemma Alone(blank: Room, p: Id)
    requires blank.active == [] && blank.reservations == {} && !blank.persistent
    ensures Joined(blank, p) == blank.(active := [p])
  {
    assert {} - {p} == {};
  }

  // ---- moving to another socket

  /**
   * An account that logs in again leaves a started game with a fixed roster first, as one that lost its socket, so that it
   * may come back; from any other room it is not moved.
   */
  lemma LoginLeavesFixedGame(cfg: Config, s: State, cid: nat, key: Id, password: Json, io: Io)
    requires Inv(s) && cid in s.conns && key in s.players && s.players[key].secret == password
    ensures var t := LogIn(cfg, s, cid, key, true, password, io);
      var room := s.players[key].room;
      && key in t.players
      && (if room.Some? && s.rooms[room.value].started && s.rooms[room.value].fixed then
            && t.players[key].room.None? && t.players[key].version == s.players[key].version + 1
            && RoomAfter(cfg, s, t, key, room.value, s.rooms[room.value], true, io)
          else
            && t.rooms == s.rooms && t.players[key].room == room && t.players[key].version == s.players[key].version
            && t.players[key].entered == s.players[key].entered)
      && (cfg.stored && io.account ==> key in t.accounts && t.accounts[key] == password)
  {
    hide Core, Leave, RoomAfter, PlayersAfter, Bind;
    var known := s.(players := s.players[key := s.players[key]]);
    assert known == s;
    if InFixedGame(s, key) {
      var left := Leave(cfg, s, key, true, io);
      LeaveExactly(cfg, s, key, true, io);
      LeaveMoves(cfg, s, key, true, io);
      AfterIsOut(s, left, key, s.rooms[s.players[key].room.value]);
      BindKeeps(cfg, left, cid, key, io);
      SameAfter(cfg, s, left, LogIn(cfg, s, cid, key, true, password, io), key, s.players[key].room.value,
                s.rooms[s.players[key].room.value], true, io);
    } else {
      RoomThere(s, key);
      BindKeeps(cfg, s, cid, key, io);
    }
  }

  lemma RoomThere(s: State, key: Id)
    requires Core(s) && key in s.players
    ensures s.players[key].room.Some? ==> s.players[key].room.value in s.rooms
  {
  }

  lemma AfterIsOut(s: State, t: State, p: Id, r: Room)
    requires PlayersAfter(s, t, p, r)
    ensures p in t.players && t.players[p].room.None? && t.players[p].version == s.players[p].version + 1
    ensures t.players[p].secret == s.players[p].secret
  {
  }

  lemma SameAfter(cfg: Config, s: State, t: State, u: State, p: Id, id: Id, r: Room, disconnected: bool, io: Io)
    requires RoomAfter(cfg, s, t, p, id, r, disconnected, io) && u.rooms == t.rooms && u.disk == t.disk && u.evicted == t.evicted
    ensures RoomAfter(cfg, s, u, p, id, r, disconnected, io)
  {
  }

  lemma BindKeeps(cfg: Config, s: State, cid: nat, id: Id, io: Io)
    requires cid in s.conns && id in s.players
    ensures var t := Bind(cfg, s, cid, id, io);
      && t.rooms == s.rooms && t.disk == s.disk && t.evicted == s.evicted
      && t.players == s.players[id := s.players[id].(connection := Some(cid), offline := None)]
      && t.accounts == if cfg.stored && io.account then s.accounts[id := s.players[id].secret] else s.accounts
  {
  }
}

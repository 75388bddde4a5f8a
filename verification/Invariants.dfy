/** What holds between players, rooms and sockets after every command. */
module Invariants {
  import opened Model
  import opened Rules
  import IndexSet
  import Sessions
  import Quota

  // ---- one room

  /** An open upload belongs to the present owner, generation and revision. */
  ghost predicate UploadOk(r: Room) {
    r.upload.Some? ==>
      && r.persistent
      && r.active != []
      && r.upload.value.owner == r.owner
      && r.upload.value.generation == r.generation
      && r.upload.value.revision == r.revision
      && r.upload.value.offset <= |r.upload.value.bytes|
  }

  ghost predicate RoomOk(r: Room) {
    && IndexSet.Distinct(r.active)
    && |r.active| <= r.max
    && (r.active != [] ==> r.owner in r.active)
    && (r.active == [] ==> r.persistent)
    && (r.fixed ==> r.started && forall q :: q in r.active ==> q in r.players)
    && (forall q :: q in r.active ==> q !in r.reservations)
    && (r.persistent ==> r.fixed && r.migration)
    && |r.events| <= Sessions.REMEMBERED
    && IndexSet.Distinct(r.events)
    && UploadOk(r)
  }

  // ---- players and rooms

  /** `p` is active in a room exactly when its own record names that room. */
  ghost predicate Members(players: map<Id, Player>, rooms: map<Id, Room>) {
    && (forall p :: p in players && players[p].room.Some? ==>
          players[p].room.value in rooms && p in rooms[players[p].room.value].active)
    && (forall id, p :: id in rooms && p in rooms[id].active ==> p in players && players[p].room == Some(id))
  }

  function Since(players: map<Id, Player>, p: Id): nat {
    if p in players && players[p].entered.Some? then players[p].entered.value else 0
  }

  /** Members are listed in the order in which they entered. */
  ghost predicate BySeniority(players: map<Id, Player>, active: seq<Id>) {
    forall i, j :: 0 <= i < j < |active| ==> Since(players, active[i]) <= Since(players, active[j])
  }

  ghost predicate WorldOk(f: File) {
    f.world.Some? ==> |f.world.value.events| <= Sessions.REMEMBERED && IndexSet.Distinct(f.world.value.events)
  }

  ghost predicate RoomsOk(rooms: map<Id, Room>) {
    forall id :: id in rooms ==> RoomOk(rooms[id])
  }

  /** Entry times run along each room's member list and never lie ahead of the clock. */
  ghost predicate Clocked(players: map<Id, Player>, rooms: map<Id, Room>, now: nat) {
    && (forall id :: id in rooms ==> BySeniority(players, rooms[id].active))
    && (forall p :: p in players ==> Since(players, p) <= now)
  }

  ghost predicate WorldsOk(disk: map<Id, File>) {
    forall id :: id in disk ==> WorldOk(disk[id])
  }

  ghost predicate Core(s: State) {
    && Members(s.players, s.rooms)
    && RoomsOk(s.rooms)
    && Clocked(s.players, s.rooms, s.now)
    && WorldsOk(s.disk)
  }

  // ---- players and sockets

  /** A player's socket exists and names that player. */
  ghost predicate Paired(players: map<Id, Player>, conns: map<nat, Connection>) {
    forall p :: p in players && players[p].connection.Some? ==>
      players[p].connection.value in conns && conns[players[p].connection.value].player == Some(p)
  }

  /** A player without a socket is in no room. */
  ghost predicate Seated(players: map<Id, Player>) {
    forall p :: p in players && players[p].connection.None? ==> players[p].room.None?
  }

  ghost predicate Inv(s: State) {
    Core(s) && Paired(s.players, s.conns) && Seated(s.players)
  }

  /** `t` has the players and sockets of `s`, paired as they were. */
  ghost predicate SameSockets(s: State, t: State) {
    && t.conns == s.conns
    && t.players.Keys == s.players.Keys
    && forall p :: p in s.players ==>
         t.players[p].connection == s.players[p].connection && t.players[p].secret == s.players[p].secret
  }

  // ---- seniority

  lemma SameSince(players: map<Id, Player>, after: map<Id, Player>, active: seq<Id>)
    requires BySeniority(players, active)
    requires forall q :: q in active ==> Since(after, q) == Since(players, q)
    ensures BySeniority(after, active)
  {
    forall i, j | 0 <= i < j < |active| ensures Since(after, active[i]) <= Since(after, active[j]) {
      assert active[i] in active && active[j] in active;
    }
  }

  /** Members' entry times are the same in `after`. */
  lemma SameClock(players: map<Id, Player>, after: map<Id, Player>, rooms: map<Id, Room>, now: nat)
    requires Clocked(players, rooms, now)
    requires forall id, q :: id in rooms && q in rooms[id].active ==> Since(after, q) == Since(players, q)
    requires forall p :: p in after ==> Since(after, p) <= now
    ensures Clocked(after, rooms, now)
  {
    hide RoomOk;
    forall id | id in rooms ensures BySeniority(after, rooms[id].active) {
      SameSince(players, after, rooms[id].active);
    }
  }

  // ---- leaving memory

  lemma KeepHolds(cfg: Config, s: State, id: Id, r: Room, io: Io)
    requires Core(s) && id !in s.rooms && RoomOk(r) && r.active == []
    ensures Core(Keep(cfg, s, id, r, io))
    ensures var t := Keep(cfg, s, id, r, io);
      && t.players == s.players && t.conns == s.conns && t.delayed == s.delayed && t.accounts == s.accounts
      && t.sockets == s.sockets && t.now == s.now
      && (t.rooms == s.rooms || t.rooms == s.rooms[id := r])
  {
    var t := Keep(cfg, s, id, r, io);
    if t.rooms == s.rooms {
      assert WorldsOk(t.disk) by { assert WorldOk(Saved(r, io.save.value)); }
    } else {
      AddEmptyRoom(s, id, r);
    }
  }

  lemma AddEmptyRoom(s: State, id: Id, r: Room)
    requires Core(s) && id !in s.rooms && RoomOk(r) && r.active == []
    ensures Core(s.(rooms := s.rooms[id := r]))
  {
  }

  // ---- entering

  lemma JoinedHolds(r: Room, p: Id, password: Option<Json>)
    requires RoomOk(r) || Blank(r, p)
    requires p !in r.active && Refusal(r, p, password).None?
    ensures RoomOk(Joined(r, p)) && Joined(r, p).active == r.active + [p]
  {
  }

  /** A room just created by `p`, before `p` enters it. */
  ghost predicate Blank(r: Room, p: Id) {
    && r.active == [] && r.owner == p && r.max > 0 && r.upload.None? && r.events == []
    && !r.started && !r.fixed && !r.persistent
  }

  /** A loaded world is an empty persistent room. */
  lemma LoadedHolds(cfg: Config, disk: map<Id, File>, id: Id, readable: bool)
    requires WorldsOk(disk) && Load(cfg, disk, id, readable).Found?
    ensures RoomOk(Load(cfg, disk, id, readable).room) && Load(cfg, disk, id, readable).room.active == []
  {
    assert WorldOk(disk[id]);
  }

  lemma AdmitMembers(players: map<Id, Player>, rooms: map<Id, Room>, p: Id, id: Id, r: Room, now: nat)
    requires Members(players, rooms)
    requires p in players && players[p].room.None?
    requires r.active == (if id in rooms then rooms[id].active else []) + [p]
    ensures Members(players[p := Inside(players[p], id, now)], rooms[id := r])
  {
  }

  lemma AdmitClock(players: map<Id, Player>, rooms: map<Id, Room>, p: Id, id: Id, r: Room, now: nat)
    requires Members(players, rooms) && Clocked(players, rooms, now)
    requires p in players && players[p].room.None?
    requires r.active == (if id in rooms then rooms[id].active else []) + [p]
    ensures Clocked(players[p := Inside(players[p], id, now)], rooms[id := r], now)
  {
    var after, table := players[p := Inside(players[p], id, now)], rooms[id := r];
    forall x | x in table ensures BySeniority(after, table[x].active) {
      if x == id {
        var before := if id in rooms then rooms[id].active else [];
        assert BySeniority(players, before);
        SameSince(players, after, before);
        assert forall k :: 0 <= k < |before| ==> before[k] in before && Since(after, before[k]) <= now;
      } else {
        SameSince(players, after, rooms[x].active);
      }
    }
  }

  lemma AdmitHolds(s: State, p: Id, id: Id, r: Room, password: Option<Json>)
    requires Members(s.players, s.rooms) && Clocked(s.players, s.rooms, s.now) && WorldsOk(s.disk)
    requires RoomsOk(s.rooms - {id})
    requires p in s.players && s.players[p].room.None?
    requires r.active == if id in s.rooms then s.rooms[id].active else []
    requires RoomOk(r) || Blank(r, p)
    requires Refusal(r, p, password).None?
    ensures Core(Admit(s, p, id, r)) && SameSockets(s, Admit(s, p, id, r))
  {
    hide RoomOk, Joined, Refusal, Members, Clocked, Blank, RoomsOk, WorldsOk;
    var joined := Joined(r, p);
    NotIn(s, p, id, r);
    JoinedHolds(r, p, password);
    AdmitMembers(s.players, s.rooms, p, id, joined, s.now);
    AdmitClock(s.players, s.rooms, p, id, joined, s.now);
    AddRoom(s.rooms, id, joined);
  }

  lemma NotIn(s: State, p: Id, id: Id, r: Room)
    requires Members(s.players, s.rooms) && p in s.players && s.players[p].room.None?
    requires r.active == if id in s.rooms then s.rooms[id].active else []
    ensures p !in r.active
  {
  }

  lemma AddRoom(rooms: map<Id, Room>, id: Id, r: Room)
    requires RoomsOk(rooms - {id}) && RoomOk(r)
    ensures RoomsOk(rooms[id := r])
  {
    var table := rooms[id := r];
    forall x | x in table ensures RoomOk(table[x]) {
      if x != id { assert x in rooms - {id}; }
    }
  }

  lemma EnterHolds(cfg: Config, s: State, p: Id, id: Id, password: Option<Json>, io: Io)
    requires Core(s) && p in s.players
    ensures Core(Enter(cfg, s, p, id, password, io))
    ensures SameSockets(s, Enter(cfg, s, p, id, password, io))
  {
    var loaded := if id in s.rooms then Missing else Load(cfg, s.disk, id, io.readable);
    if s.players[p].room.None? && (id in s.rooms || loaded.Found?) {
      if id !in s.rooms { LoadedHolds(cfg, s.disk, id, io.readable); }
      var r := if id in s.rooms then s.rooms[id] else loaded.room;
      if Refusal(r, p, password).None? {
        AdmitHolds(s, p, id, r, password);
      } else {
        RefusalHolds(s, id, r);
      }
    }
  }

  /** A refused entry leaves the rooms as they were, or drops an empty one. */
  lemma RefusalHolds(s: State, id: Id, r: Room)
    requires Core(s) && RoomOk(r) && (if id in s.rooms then r == s.rooms[id] else r.active == [])
    ensures Core(Refuse(s, id, r)) && SameSockets(s, Refuse(s, id, r))
  {
    if r.active == [] && r.persistent {
      if id in s.rooms { DropEmptyRoom(s, id); } else { assert s.rooms - {id} == s.rooms; }
    } else {
      assert s.rooms[id := r] == s.rooms;
    }
  }

  lemma DropEmptyRoom(s: State, id: Id)
    requires Core(s) && id in s.rooms && s.rooms[id].active == []
    ensures Core(s.(rooms := s.rooms - {id}))
  {
  }

  // ---- leaving

  function Idle(players: map<Id, Player>, out: set<Id>): map<Id, Player> {
    map q | q in players :: if q in out then Outside(players[q]) else players[q]
  }

  function Unreserved(rooms: map<Id, Room>, gone: set<Id>): map<Id, Room> {
    map x | x in rooms :: rooms[x].(reservations := rooms[x].reservations - gone)
  }

  lemma UnreservedHolds(s: State, gone: set<Id>)
    requires Core(s)
    ensures Core(s.(rooms := Unreserved(s.rooms, gone)))
  {
    var rooms := Unreserved(s.rooms, gone);
    assert RoomsOk(rooms) by {
      forall x | x in rooms ensures RoomOk(rooms[x]) { assert RoomOk(s.rooms[x]); }
    }
    SameMembers(s.players, s.rooms, rooms, s.now);
  }

  /** Nobody's membership differs between the room tables. */
  ghost predicate SameActive(rooms: map<Id, Room>, after: map<Id, Room>) {
    after.Keys == rooms.Keys && forall id :: id in rooms ==> after[id].active == rooms[id].active
  }

  lemma SameMembers(players: map<Id, Player>, rooms: map<Id, Room>, after: map<Id, Room>, now: nat)
    requires Members(players, rooms) && Clocked(players, rooms, now) && SameActive(rooms, after)
    ensures Members(players, after) && Clocked(players, after, now)
  {
    hide BySeniority;
    assert forall id :: id in after ==> id in rooms && after[id].active == rooms[id].active;
  }

  lemma IdleHolds(s: State, p: Id)
    requires Core(s) && p in s.players && s.players[p].room.None?
    ensures Core(s.(players := s.players[p := Outside(s.players[p])]))
  {
    hide RoomOk;
    SameClock(s.players, s.players[p := Outside(s.players[p])], s.rooms, s.now);
  }

  lemma DepartMembers(players: map<Id, Player>, rooms: map<Id, Room>, id: Id, out: set<Id>, r: Room)
    requires Members(players, rooms) && id in rooms
    requires forall q :: q in out ==> q in rooms[id].active
    requires forall q :: q in r.active <==> q in rooms[id].active && q !in out
    ensures Members(Idle(players, out), rooms[id := r])
    ensures r.active == [] ==> Members(Idle(players, out), rooms - {id})
  {
  }

  lemma DepartClock(players: map<Id, Player>, rooms: map<Id, Room>, id: Id, out: set<Id>, r: Room, now: nat)
    requires Members(players, rooms) && Clocked(players, rooms, now) && id in rooms
    requires forall q :: q in out ==> q in rooms[id].active
    requires forall q :: q in r.active ==> q !in out
    requires BySeniority(players, r.active)
    ensures Clocked(Idle(players, out), rooms[id := r], now)
  {
    hide Members, BySeniority, Since;
    var after, table := Idle(players, out), rooms[id := r];
    forall x | x in table ensures BySeniority(after, table[x].active) {
      if x != id { OthersStay(players, rooms, id, out, x); }
      SameSinceIdle(players, out, table[x].active);
      SameSince(players, after, table[x].active);
    }
    forall p | p in after ensures Since(after, p) <= now { IdleSince(players, out, p); }
  }

  /** Whoever goes out of one room is in no other. */
  lemma OthersStay(players: map<Id, Player>, rooms: map<Id, Room>, id: Id, out: set<Id>, x: Id)
    requires Members(players, rooms) && id in rooms && x in rooms && x != id && forall q :: q in out ==> q in rooms[id].active
    ensures forall q :: q in rooms[x].active ==> q !in out
  {
    hide Members;
    forall q | q in rooms[x].active ensures q !in out {
      MemberOf(players, rooms, x, q);
      if q in out { MemberOf(players, rooms, id, q); }
    }
  }

  lemma MemberOf(players: map<Id, Player>, rooms: map<Id, Room>, id: Id, q: Id)
    requires Members(players, rooms) && id in rooms && q in rooms[id].active
    ensures q in players && players[q].room == Some(id)
  {
  }

  lemma SameSinceIdle(players: map<Id, Player>, out: set<Id>, active: seq<Id>)
    requires forall q :: q in active ==> q !in out
    ensures forall q :: q in active ==> Since(Idle(players, out), q) == Since(players, q)
  {
  }

  lemma IdleSince(players: map<Id, Player>, out: set<Id>, p: Id)
    ensures Since(Idle(players, out), p) <= Since(players, p)
  {
  }

  lemma RemainingInOrder(players: map<Id, Player>, r: Room, p: Id)
    requires BySeniority(players, r.active)
    ensures BySeniority(players, Remaining(r, p))
  {
    if !Disbands(r, p) {
      var left := Remaining(r, p);
      forall i, j | 0 <= i < j < |left| ensures Since(players, left[i]) <= Since(players, left[j]) {
        var k, l := IndexSet.RemoveKeepsOrder(r.active, p, i, j);
      }
    }
  }

  lemma WithoutHolds(r: Room, p: Id, disconnected: bool)
    requires RoomOk(r) && p in r.active
    ensures Remaining(r, p) != [] ==> RoomOk(Succeeded(Without(r, p, disconnected), p))
    ensures Remaining(r, p) == [] && r.persistent ==> RoomOk(Without(r, p, disconnected))
  {
    var left := Without(r, p, disconnected);
    if left.active != [] {
      assert left.active[0] in left.active;
    } else if r.persistent {
      assert r.owner in r.active && r.owner == p;
    }
  }

  /** The players once `p` and those dismissed with it are out. */
  lemma VacatePlayers(s: State, p: Id, id: Id, disconnected: bool)
    requires Core(s) && p in s.players && s.players[p].room == Some(id)
    ensures var r := s.rooms[id];
      var players := Idle(s.players, Dismissed(r, p) + {p});
      var kept := Succeeded(Without(r, p, disconnected), p);
      && Members(players, s.rooms[id := kept])
      && (kept.active == [] ==> Members(players, s.rooms - {id}))
      && Clocked(players, s.rooms[id := kept], s.now)
  {
    var r := s.rooms[id];
    var kept := Succeeded(Without(r, p, disconnected), p);
    RemainingInOrder(s.players, r, p);
    DepartMembers(s.players, s.rooms, id, Dismissed(r, p) + {p}, kept);
    DepartClock(s.players, s.rooms, id, Dismissed(r, p) + {p}, kept, s.now);
  }

  lemma DropRoom(players: map<Id, Player>, rooms: map<Id, Room>, id: Id, r: Room, now: nat)
    requires Clocked(players, rooms[id := r], now) && RoomsOk(rooms)
    ensures Clocked(players, rooms - {id}, now) && RoomsOk(rooms - {id})
  {
    assert forall x :: x in rooms - {id} ==> x in rooms[id := r] && rooms[id := r][x] == rooms[x];
  }

  /** The state in which room `id` is out of memory and `p` and those dismissed are out of it. */
  function Vacated(s: State, p: Id, id: Id): State
    requires p in s.players && id in s.rooms
  {
    Vacate(s.(players := s.players[p := Outside(s.players[p])]), id, Dismissed(s.rooms[id], p))
  }

  lemma VacatedIs(s: State, p: Id, id: Id)
    requires p in s.players && id in s.rooms
    ensures Vacated(s, p, id) == s.(players := Idle(s.players, Dismissed(s.rooms[id], p) + {p}), rooms := s.rooms - {id})
    ensures SameSockets(s, Vacated(s, p, id))
  {
  }

  lemma VacatedEmptyHolds(s: State, p: Id, id: Id, disconnected: bool)
    requires Core(s) && p in s.players && s.players[p].room == Some(id)
    requires Remaining(s.rooms[id], p) == []
    ensures Core(Vacated(s, p, id))
  {
    VacatedIs(s, p, id);
    VacatePlayers(s, p, id, disconnected);
    DropRoom(Vacated(s, p, id).players, s.rooms, id, Succeeded(Without(s.rooms[id], p, disconnected), p), s.now);
  }

  lemma VacatedKeptHolds(s: State, p: Id, id: Id, disconnected: bool)
    requires Core(s) && p in s.players && s.players[p].room == Some(id)
    requires Remaining(s.rooms[id], p) != []
    ensures var out := Vacated(s, p, id);
      Core(out.(rooms := out.rooms[id := Succeeded(Without(s.rooms[id], p, disconnected), p)]))
  {
    VacatedIs(s, p, id);
    VacatePlayers(s, p, id, disconnected);
    var kept := Succeeded(Without(s.rooms[id], p, disconnected), p);
    assert RoomOk(kept) by { WithoutHolds(s.rooms[id], p, disconnected); }
    ReplaceRoom(s, Vacated(s, p, id).players, id, kept);
  }

  lemma ReplaceRoom(s: State, players: map<Id, Player>, id: Id, r: Room)
    requires RoomsOk(s.rooms) && WorldsOk(s.disk) && RoomOk(r)
    requires Members(players, s.rooms[id := r]) && Clocked(players, s.rooms[id := r], s.now)
    ensures Core(s.(players := players, rooms := (s.rooms - {id})[id := r]))
  {
    assert (s.rooms - {id})[id := r] == s.rooms[id := r];
  }

  lemma DepartHolds(cfg: Config, s: State, p: Id, id: Id, disconnected: bool, io: Io)
    requires Core(s) && p in s.players && s.players[p].room == Some(id)
    ensures var idle := s.(players := s.players[p := Outside(s.players[p])]);
      Core(Depart(cfg, idle, p, id, disconnected, io)) && SameSockets(s, Depart(cfg, idle, p, id, disconnected, io))
  {
    var left := Without(s.rooms[id], p, disconnected);
    VacatedIs(s, p, id);
    if left.active != [] {
      VacatedKeptHolds(s, p, id, disconnected);
    } else {
      VacatedEmptyHolds(s, p, id, disconnected);
      if left.persistent {
        assert RoomOk(left) by { WithoutHolds(s.rooms[id], p, disconnected); }
        KeepHolds(cfg, Vacated(s, p, id), id, left, io);
      }
    }
  }

  /** Everyone whom the departure of `p` puts out of a room. */
  function Leavers(s: State, p: Id): set<Id>
    requires p in s.players
  {
    {p} + (if s.players[p].room.Some? && s.players[p].room.value in s.rooms then Dismissed(s.rooms[s.players[p].room.value], p) else {})
  }

  lemma SettleKeepsPlayers(cfg: Config, s: State, p: Id, id: Id, left: Room, io: Io)
    ensures var t := Settle(cfg, s, p, id, left, io);
      && t.players == s.players && t.conns == s.conns && t.delayed == s.delayed && t.accounts == s.accounts
      && t.sockets == s.sockets && t.now == s.now
  {
    hide Succeeded;
  }

  lemma SameDismissed(a: Room, b: Room, p: Id)
    requires a == b.(reservations := a.reservations)
    ensures Dismissed(a, p) == Dismissed(b, p)
  {
  }

  /** A departure moves exactly the leavers out and touches no socket. */
  lemma LeaveMoves(cfg: Config, s: State, p: Id, disconnected: bool, io: Io)
    requires p in s.players
    ensures var t := Leave(cfg, s, p, disconnected, io);
      && t.players == Idle(s.players, Leavers(s, p))
      && t.conns == s.conns && t.delayed == s.delayed && t.accounts == s.accounts && t.sockets == s.sockets
      && t.now == s.now
  {
    hide Settle, Without, Disbands, Core;
    var rooms := if disconnected then s.rooms else Unreserved(s.rooms, {p});
    var t := s.(rooms := rooms);
    if s.players[p].room.Some? && s.players[p].room.value in s.rooms {
      var id := s.players[p].room.value;
      VacatedIs(t, p, id);
      SameDismissed(t.rooms[id], s.rooms[id], p);
      assert Dismissed(t.rooms[id], p) == Dismissed(s.rooms[id], p);
      SettleKeepsPlayers(cfg, Vacated(t, p, id), p, id, Without(t.rooms[id], p, disconnected), io);
    } else {
      assert s.players[p := Outside(s.players[p])] == Idle(s.players, {p});
    }
  }

  lemma LeaveHolds(cfg: Config, s: State, p: Id, disconnected: bool, io: Io)
    requires Core(s) && p in s.players
    ensures Core(Leave(cfg, s, p, disconnected, io))
    ensures SameSockets(s, Leave(cfg, s, p, disconnected, io))
  {
    var rooms := if disconnected then s.rooms else Unreserved(s.rooms, {p});
    if !disconnected { UnreservedHolds(s, {p}); }
    var t := s.(rooms := rooms);
    if s.players[p].room.Some? {
      DepartHolds(cfg, t, p, s.players[p].room.value, disconnected, io);
    } else {
      IdleHolds(t, p);
    }
  }
}

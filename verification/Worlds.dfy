/** The history of rooms and stored worlds, in memory or on disk, through every command. */
module Worlds {
  import opened Model
  import opened Rules
  import opened Invariants
  import Quota
  import Sessions

  /** Room `id` wherever it is: memory comes before disk. */
  function Look(s: State, id: Id): Option<Room> {
    if id in s.rooms then Some(s.rooms[id])
    else if id in s.disk && s.disk[id].world.Some? then Some(FromWorld(s.disk[id].world.value))
    else None
  }

  /** Ownership moves only together with the generation. */
  predicate Handed(a: Room, b: Room) {
    a.generation <= b.generation && (a.generation == b.generation ==> a.owner == b.owner)
  }

  /** What the game stored is untouched; at most the ownership moved on. */
  predicate Rests(a: Room, b: Room) {
    && Handed(a, b)
    && b.info == a.info && b.max == a.max && b.password == a.password
    && b.players == a.players && b.events == a.events
    && b.started == a.started && b.fixed == a.fixed && b.migration == a.migration && b.persistent == a.persistent
    && b.start == a.start && b.state == a.state && b.revision == a.revision && b.updated == a.updated
  }

  /** A possible later version: ownership by generations, state by revisions, and a settled roster once started. */
  predicate Evolves(a: Room, b: Room) {
    && Handed(a, b)
    && a.revision <= b.revision
    && (a.revision == b.revision ==> b.state == a.state)
    && b.info.game == a.info.game && b.info.binary == a.info.binary
    && (a.persistent ==> b.persistent)
    && (a.started ==>
          && b.started && b.fixed == a.fixed && b.migration == a.migration && b.persistent == a.persistent
          && b.start == a.start && b.max == a.max && b.players == a.players
          && (a.revision == b.revision ==> b.updated == a.updated))
  }

  /** Only drawn identifiers are in use, and only persistent rooms have files. */
  ghost predicate Known(s: State) {
    && s.rooms.Keys <= s.issued && s.disk.Keys <= s.issued
    && forall id :: id in s.rooms && !s.rooms[id].persistent ==> id !in s.disk
  }

  /** No room that came or went did so without leave: what is gone was not persistent or was evicted, and nothing comes back. */
  ghost predicate Accounts(s: State, t: State) {
    && s.issued <= t.issued && s.evicted <= t.evicted
    && forall id :: id in s.issued ==>
         && (Look(s, id).None? ==> Look(t, id).None?)
         && (Look(s, id).Some? && Look(s, id).value.persistent && Look(t, id).None? ==> id in t.evicted)
  }

  ghost predicate AllRest(s: State, t: State) {
    && Accounts(s, t)
    && forall id :: id in s.issued && Look(t, id).Some? ==> Rests(Look(s, id).value, Look(t, id).value)
  }

  ghost predicate AllEvolve(s: State, t: State) {
    && Accounts(s, t)
    && forall id :: id in s.issued && Look(t, id).Some? ==> Evolves(Look(s, id).value, Look(t, id).value)
  }

  /** No empty room waits in memory for a save that failed. */
  ghost predicate NoneWaits(s: State) {
    forall id :: id in s.rooms ==> s.rooms[id].active != []
  }

  // ---- the relations compose

  lemma RestIsEvolving(s: State, t: State)
    requires AllRest(s, t)
    ensures AllEvolve(s, t)
  {
  }

  lemma EvolvesOn(s: State, t: State, u: State)
    requires AllEvolve(s, t) && AllEvolve(t, u)
    ensures AllEvolve(s, u)
  {
  }

  lemma RestsOn(s: State, t: State, u: State)
    requires AllRest(s, t) && AllRest(t, u)
    ensures AllRest(s, u)
  {
  }

  /** Only rooms, files and identifiers matter to the histories. */
  lemma SameRoomsRest(s: State, t: State)
    requires t.rooms == s.rooms && t.disk == s.disk && s.issued <= t.issued && t.evicted == s.evicted
    ensures AllRest(s, t)
  {
  }

  // ---- unloading

  lemma StoredRests(r: Room)
    requires RoomOk(r) && r.persistent
    ensures Rests(r, FromWorld(ToWorld(r)))
  {
  }

  /** Saving, failing to save and evicting: every world stays as it was or is recorded as evicted. */
  lemma KeepLooks(cfg: Config, s: State, id: Id, r: Room, io: Io)
    requires Known(s) && RoomOk(r) && id !in s.rooms && id in s.issued && (r.persistent || id !in s.disk)
    ensures var t := Keep(cfg, s, id, r, io);
      && Known(t) && t.issued == s.issued && s.evicted <= t.evicted
      && (forall x :: x != id ==> Look(t, x) == Look(s, x) || (Look(t, x).None? && x in t.evicted))
      && (if Look(t, id).Some? then Rests(r, Look(t, id).value) else id in t.evicted)
      && (io.save.Some? && r.persistent && r.active == [] ==> t.rooms == s.rooms)
  {
    hide RoomOk, Rests, Keep, Look, Known;
    if r.persistent && r.active == [] && io.save.Some? { SavedLooks(cfg, s, id, r, io); } else { KeptLooks(cfg, s, id, r, io); }
  }

  lemma KeptLooks(cfg: Config, s: State, id: Id, r: Room, io: Io)
    requires Known(s) && id !in s.rooms && id in s.issued && (r.persistent || id !in s.disk)
    requires !(r.persistent && r.active == [] && io.save.Some?)
    ensures var t := Keep(cfg, s, id, r, io);
      && Known(t) && t.issued == s.issued && s.evicted <= t.evicted
      && (forall x :: x != id ==> Look(t, x) == Look(s, x))
      && Look(t, id).Some? && Rests(r, Look(t, id).value)
  {
    RestsSelf(r);
    hide Rests;
  }

  lemma SavedLooks(cfg: Config, s: State, id: Id, r: Room, io: Io)
    requires Known(s) && RoomOk(r) && id !in s.rooms && id in s.issued && r.persistent && r.active == []
    requires io.save.Some?
    ensures var t := Keep(cfg, s, id, r, io);
      && Known(t) && t.issued == s.issued && s.evicted <= t.evicted
      && (forall x :: x != id ==> Look(t, x) == Look(s, x) || (Look(t, x).None? && x in t.evicted))
      && (if Look(t, id).Some? then Rests(r, Look(t, id).value) else id in t.evicted)
      && t.rooms == s.rooms
  {
    StoredRests(r);
    hide RoomOk, Rests;
    var t := Keep(cfg, s, id, r, io);
    var disk := s.disk[id := Saved(r, io.save.value)];
    var gone := if cfg.stored then Quota.Evicted(disk, s.rooms.Keys, cfg.quota, io.removals) else [];
    forall x | x != id ensures Look(t, x) == Look(s, x) || (Look(t, x).None? && x in t.evicted) {
    }
  }

  // ---- departures

  /** Leaving changes the room left by a hand-over at most; `rooms` is the table it is taken from. */
  lemma WithoutRests(r: Room, p: Id, disconnected: bool)
    ensures Rests(r, Without(r, p, disconnected))
    ensures Rests(r, Succeeded(Without(r, p, disconnected), p))
  {
  }

  lemma UnreservedRests(s: State, gone: set<Id>)
    requires Known(s)
    ensures var t := s.(rooms := Unreserved(s.rooms, gone)); AllRest(s, t) && Known(t)
  {
    var t := s.(rooms := Unreserved(s.rooms, gone));
    forall id | id in s.issued && Look(t, id).Some? ensures Look(s, id).Some? && Rests(Look(s, id).value, Look(t, id).value) {
    }
  }

  lemma DepartRests(cfg: Config, s: State, p: Id, id: Id, disconnected: bool, io: Io)
    requires Core(s) && Known(s) && p in s.players && s.players[p].room == Some(id)
    ensures var t := Depart(cfg, s.(players := s.players[p := Outside(s.players[p])]), p, id, disconnected, io);
      AllRest(s, t) && Known(t) && (io.save.Some? && NoneWaits(s) ==> NoneWaits(t))
  {
    var out := Vacated(s, p, id);
    var left := Without(s.rooms[id], p, disconnected);
    WithoutRests(s.rooms[id], p, disconnected);
    SettleRests(cfg, s, out, p, id, left, disconnected, io);
  }

  /** What becomes of the room `id` that was left as `left`. */
  lemma SettleRests(cfg: Config, s: State, out: State, p: Id, id: Id, left: Room, disconnected: bool, io: Io)
    requires Core(s) && Known(s) && p in s.players && s.players[p].room == Some(id)
    requires out.rooms == s.rooms - {id} && out.disk == s.disk && out.issued == s.issued && out.evicted == s.evicted
    requires left == Without(s.rooms[id], p, disconnected)
    ensures var t := Settle(cfg, out, p, id, left, io);
      AllRest(s, t) && Known(t) && (io.save.Some? && NoneWaits(s) ==> NoneWaits(t))
  {
    WithoutRests(s.rooms[id], p, disconnected);
    if left.active != [] {
      ChangeRests(s, out.(rooms := out.rooms[id := Succeeded(left, p)]), id, Succeeded(left, p));
    } else if left.persistent {
      assert RoomOk(left) by { WithoutHolds(s.rooms[id], p, disconnected); }
      StowRests(cfg, s, out, id, left, io);
    } else {
      DropRests(s, out, id);
    }
  }

  lemma ChangeRests(s: State, t: State, id: Id, r: Room)
    requires Known(s) && id in s.rooms && Rests(s.rooms[id], r) && r.active != []
    requires t.rooms == (s.rooms - {id})[id := r] && t.disk == s.disk && t.issued == s.issued && t.evicted == s.evicted
    ensures AllRest(s, t) && Known(t) && (NoneWaits(s) ==> NoneWaits(t))
  {
    forall x | x in s.issued && x != id ensures Look(t, x) == Look(s, x) {}
  }

  lemma DropRests(s: State, t: State, id: Id)
    requires Known(s) && id in s.rooms && !s.rooms[id].persistent
    requires t.rooms == s.rooms - {id} && t.disk == s.disk && t.issued == s.issued && t.evicted == s.evicted
    ensures AllRest(s, t) && Known(t) && (NoneWaits(s) ==> NoneWaits(t))
  {
    forall x | x in s.issued && x != id ensures Look(t, x) == Look(s, x) {}
  }

  lemma StowRests(cfg: Config, s: State, out: State, id: Id, left: Room, io: Io)
    requires Known(s) && id in s.rooms
    requires out.rooms == s.rooms - {id} && out.disk == s.disk && out.issued == s.issued && out.evicted == s.evicted
    requires RoomOk(left) && left.active == [] && Rests(s.rooms[id], left)
    ensures var t := Keep(cfg, out, id, left, io);
      AllRest(s, t) && Known(t) && (io.save.Some? && NoneWaits(s) ==> NoneWaits(t))
  {
    assert left.persistent;
    KnownWithout(s, out, id);
    hide Keep, RoomOk, Rests, Look, Known;
    KeepLooks(cfg, out, id, left, io);
    var t := Keep(cfg, out, id, left, io);
    forall x | x in s.issued
      ensures (Look(s, x).None? ==> Look(t, x).None?) && (Look(s, x).Some? && Look(t, x).None? ==> x in t.evicted)
      ensures Look(t, x).Some? ==> Look(s, x).Some? && Rests(Look(s, x).value, Look(t, x).value)
    {
      LookWithout(s, out, id, x);
      if Look(t, x).Some? {
        if x == id { RestsTwice(s.rooms[id], left, Look(t, id).value); } else { RestsSelf(Look(t, x).value); }
      }
    }
  }

  lemma KnownWithout(s: State, out: State, id: Id)
    requires Known(s) && id in s.rooms
    requires out.rooms == s.rooms - {id} && out.disk == s.disk && out.issued == s.issued
    ensures Known(out) && id in out.issued
  {
  }

  /** Where one room is looked for does not depend on the others in memory. */
  lemma LookWithout(s: State, out: State, id: Id, x: Id)
    requires id in s.rooms && out.rooms == s.rooms - {id} && out.disk == s.disk
    ensures x != id ==> Look(out, x) == Look(s, x)
    ensures Look(s, id) == Some(s.rooms[id])
  {
  }

  lemma RestsSelf(a: Room)
    ensures Rests(a, a)
  {
  }

  lemma RestsTwice(a: Room, b: Room, c: Room)
    requires Rests(a, b) && Rests(b, c)
    ensures Rests(a, c)
  {
  }

  lemma LeaveRests(cfg: Config, s: State, p: Id, disconnected: bool, io: Io)
    requires Core(s) && Known(s) && p in s.players
    ensures var t := Leave(cfg, s, p, disconnected, io);
      AllRest(s, t) && Known(t) && (io.save.Some? && NoneWaits(s) ==> NoneWaits(t))
  {
    var u := s.(rooms := if disconnected then s.rooms else Unreserved(s.rooms, {p}));
    if disconnected { SameRoomsRest(s, u); } else { UnreservedHolds(s, {p}); UnreservedRests(s, {p}); }
    if s.players[p].room.Some? {
      DepartRests(cfg, u, p, s.players[p].room.value, disconnected, io);
    } else {
      SameRoomsRest(u, Leave(cfg, s, p, disconnected, io));
    }
    RestsOn(s, u, Leave(cfg, s, p, disconnected, io));
  }

  // ---- entries

  lemma JoinedRests(r: Room, p: Id)
    ensures Rests(r, Joined(r, p)) && Joined(r, p).active != []
  {
  }

  lemma AdmitRests(s: State, p: Id, id: Id, r: Room)
    requires Known(s) && p in s.players && Look(s, id) == Some(r) && id in s.issued && (id !in s.rooms ==> r.persistent)
    ensures AllRest(s, Admit(s, p, id, r)) && Known(Admit(s, p, id, r))
    ensures NoneWaits(s) ==> NoneWaits(Admit(s, p, id, r))
  {
    JoinedRests(r, p);
  }

  /** With no room waiting for a save, entering loses nothing, admitted or refused. */
  lemma EnterRests(cfg: Config, s: State, p: Id, id: Id, password: Option<Json>, io: Io)
    requires Core(s) && Known(s) && NoneWaits(s) && p in s.players
    ensures var t := Enter(cfg, s, p, id, password, io); AllRest(s, t) && Known(t) && NoneWaits(t)
  {
    var t := Enter(cfg, s, p, id, password, io);
    var loaded := if id in s.rooms then Missing else Load(cfg, s.disk, id, io.readable);
    if s.players[p].room.None? && (id in s.rooms || loaded.Found?) {
      var r := if id in s.rooms then s.rooms[id] else loaded.room;
      if Refusal(r, p, password).Some? {
        assert t.rooms == s.rooms;
        SameRoomsRest(s, t);
      } else {
        AdmitRests(s, p, id, r);
      }
    } else {
      SameRoomsRest(s, t);
    }
  }
}

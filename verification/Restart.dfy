/** Failing saves, shutdown and restart: what becomes of worlds in memory. */
module Restart {
  import opened Model
  import opened Rules
  import opened Invariants
  import opened Worlds
  import Quota
  import Safety

  // ---- sweeps with failing saves

  lemma KeptInPlace(cfg: Config, s: State, id: Id, io: Io)
    requires Inv(s) && Known(s) && id in s.rooms && s.rooms[id].active == []
    ensures var t := Keep(cfg, s.(rooms := s.rooms - {id}), id, s.rooms[id], io); AllRest(s, t) && Known(t)
  {
    hide Known, AllRest, Keep;
    assert RoomOk(s.rooms[id]);
    StowRests(cfg, s, s.(rooms := s.rooms - {id}), id, s.rooms[id], io);
  }

  /** Saving the empty rooms again loses nothing, whichever of the saves fail. */
  lemma {:induction false} KeepAllRests(cfg: Config, s: State, order: seq<(Id, Io)>)
    requires Inv(s) && Known(s)
    ensures var t := KeepAll(cfg, s, order); AllRest(s, t) && Known(t)
    decreases |order|
  {
    hide Inv, Known, AllRest, Keep;
    if order == [] {
      SameRoomsRest(s, s);
    } else {
      var (id, io) := order[0];
      if id in s.rooms && s.rooms[id].persistent && s.rooms[id].active == [] {
        var t := Keep(cfg, s.(rooms := s.rooms - {id}), id, s.rooms[id], io);
        Safety.KeepSeated(cfg, s, id, io);
        KeptInPlace(cfg, s, id, io);
        KeepAllRests(cfg, t, order[1..]);
        RestsOn(s, t, KeepAll(cfg, s, order));
      } else {
        KeepAllRests(cfg, s, order[1..]);
      }
    }
  }

  // ---- shutdown and restart

  /** The rooms that shutdown visits, each with the outcome of its save; the first failure ends the shutdown. */
  function Flush(disk: map<Id, File>, rooms: map<Id, Room>, order: seq<(Id, Option<nat>)>): map<Id, File>
    decreases |order|
  {
    if order == [] then disk
    else
      var (id, save) := order[0];
      if id !in rooms || !rooms[id].persistent then Flush(disk, rooms, order[1..])
      else if save.None? then disk
      else Flush(disk[id := Saved(rooms[id], save.value)], rooms, order[1..])
  }

  /** `Server::stop`, then a new process over the same storage; it starts by pruning the disk. */
  ghost function Restarted(cfg: Config, s: State, order: seq<(Id, Option<nat>)>, removals: nat, now: nat): State {
    var disk := Flush(s.disk, s.rooms, order);
    var gone := Quota.Evicted(disk, {}, cfg.quota, removals);
    State(map[], map[], map[], [], disk - (set x | x in gone), s.accounts, s.jobs - (set x | x in gone),
          s.issued, s.evicted + (set x | x in gone), {}, now)
  }

  /** Is the save of room `id` reached, and does it succeed? */
  predicate Flushed(rooms: map<Id, Room>, order: seq<(Id, Option<nat>)>, id: Id)
    decreases |order|
  {
    && order != []
    && (var (x, save) := order[0];
        if x !in rooms || !rooms[x].persistent then Flushed(rooms, order[1..], id)
        else save.Some? && (x == id || Flushed(rooms, order[1..], id)))
  }

  lemma {:induction false} FlushWrites(disk: map<Id, File>, rooms: map<Id, Room>, order: seq<(Id, Option<nat>)>, id: Id)
    ensures var after := Flush(disk, rooms, order);
      if id in rooms && rooms[id].persistent && Flushed(rooms, order, id) then
        id in after && after[id].world == Some(ToWorld(rooms[id]))
      else (id in after <==> id in disk) && (id in disk ==> after[id] == disk[id])
    decreases |order|
  {
    if order != [] {
      var (x, save) := order[0];
      if x !in rooms || !rooms[x].persistent {
        FlushWrites(disk, rooms, order[1..], id);
      } else if save.Some? {
        FlushWrites(disk[x := Saved(rooms[x], save.value)], rooms, order[1..], id);
      }
    }
  }

  /**
   * Shutdown and restart. The worlds of the new process are exactly the persistent rooms whose save was reached and
   * succeeded and, for the rest, what was on disk; each flushed world has its owner, generation, revision, state,
   * start data, roster and events unchanged; what is missing was evicted.
   */
  lemma RestartKeepsWorlds(cfg: Config, s: State, order: seq<(Id, Option<nat>)>, removals: nat, now: nat, id: Id)
    requires Inv(s) && Known(s)
    ensures var t := Restarted(cfg, s, order, removals, now);
      || (Look(t, id).None? && id in t.evicted)
      || (if id in s.rooms && s.rooms[id].persistent && Flushed(s.rooms, order, id) then
              Look(t, id).Some? && Rests(s.rooms[id], Look(t, id).value) && Look(t, id).value.owner == s.rooms[id].owner
              && Look(t, id).value.generation == s.rooms[id].generation
            else Look(t, id) == Look(s.(rooms := map[]), id))
  {
    hide Quota.Evicted;
    FlushWrites(s.disk, s.rooms, order, id);
    if id in s.rooms { assert RoomOk(s.rooms[id]); }
  }

  /**
   * With every save of the shutdown successful, no persistent room is lost but by eviction: neither an occupied one nor
   * an empty one that waits in memory since an earlier save failed.
   */
  lemma RestartLosesNothing(cfg: Config, s: State, order: seq<(Id, Option<nat>)>, removals: nat, now: nat, id: Id)
    requires Inv(s) && Known(s)
    requires forall i :: 0 <= i < |order| ==> order[i].1.Some?
    requires forall x :: x in s.rooms && s.rooms[x].persistent ==> exists i :: 0 <= i < |order| && order[i].0 == x
    requires Look(s, id).Some? && Look(s, id).value.persistent
    ensures var t := Restarted(cfg, s, order, removals, now);
      || (Look(t, id).None? && id in t.evicted)
      || (Look(t, id).Some? && Rests(Look(s, id).value, Look(t, id).value)
          && Look(t, id).value.owner == Look(s, id).value.owner && Look(t, id).value.generation == Look(s, id).value.generation)
  {
    hide Inv, Known;
    RestartKeepsWorlds(cfg, s, order, removals, now, id);
    if id in s.rooms {
      var i :| 0 <= i < |order| && order[i].0 == id;
      AllFlushed(s.rooms, order, id, i);
    }
  }

  /** So histories run on across restarts. */
  lemma RestartRests(cfg: Config, s: State, order: seq<(Id, Option<nat>)>, removals: nat, now: nat)
    requires Inv(s) && Known(s)
    requires forall i :: 0 <= i < |order| ==> order[i].1.Some?
    requires forall x :: x in s.rooms && s.rooms[x].persistent ==> exists i :: 0 <= i < |order| && order[i].0 == x
    ensures var t := Restarted(cfg, s, order, removals, now); AllRest(s, t) && Known(t) && NoneWaits(t)
  {
    hide Inv, Rests;
    var t := Restarted(cfg, s, order, removals, now);
    forall id | id in s.issued
      ensures (Look(s, id).None? ==> Look(t, id).None?)
           && (Look(s, id).Some? && Look(s, id).value.persistent && Look(t, id).None? ==> id in t.evicted)
           && (Look(t, id).Some? ==> Rests(Look(s, id).value, Look(t, id).value))
    {
      RestartKeepsWorlds(cfg, s, order, removals, now, id);
      if Look(s, id).Some? && Look(s, id).value.persistent { RestartLosesNothing(cfg, s, order, removals, now, id); }
    }
    forall id | id in t.disk ensures id in s.issued { FlushWrites(s.disk, s.rooms, order, id); }
  }

  lemma {:induction false} AllFlushed(rooms: map<Id, Room>, order: seq<(Id, Option<nat>)>, id: Id, i: nat)
    requires i < |order| && order[i].0 == id && id in rooms && rooms[id].persistent
    requires forall k :: 0 <= k < |order| ==> order[k].1.Some?
    ensures Flushed(rooms, order, id)
    decreases |order|
  {
    if i > 0 { AllFlushed(rooms, order[1..], id, i - 1); }
  }
}

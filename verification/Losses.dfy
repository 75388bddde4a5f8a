/** When stored worlds lose content: files lag behind rooms whose save failed, and a refused entry may drop the room. */
module Losses {
  import opened Model
  import opened Rules
  import opened Invariants
  import opened Relay
  import opened Presence
  import opened Worlds
  import opened Rosters
  import opened Handling
  import Queue
  import Safety
  import History
  import Preservation

  /** In every run, whichever saves fail, the file of a room in memory holds the room or an earlier version of it. */
  lemma FileIsEarlier(cfg: Config, r: Run, i: nat, id: Id)
    requires IsRun(cfg, r) && i < |r.states| && id in r.states[i].rooms
    requires id in r.states[i].disk && r.states[i].disk[id].world.Some?
    ensures var w, room := FromWorld(r.states[i].disk[id].world.value), r.states[i].rooms[id];
      && w.generation <= room.generation && (w.generation == room.generation ==> w.owner == room.owner)
      && w.revision <= room.revision && (w.revision == room.revision ==> w.state == room.state && w.updated == room.updated)
      && room.persistent && room.started && room.players == w.players && room.start == w.start && room.max == w.max
      && room.password == w.password && room.info == w.info.(meta := room.info.meta)
  {
    hide Next, Lawful;
    RunOrderly(cfg, r, i);
  }

  // ---- the refusal that drops a room

  /** World `id` shows in `s`, and in `t` it is gone or what was stored in it is not the same. */
  predicate Loses(s: State, t: State, id: Id) {
    && Look(s, id).Some? && Look(s, id).value.persistent
    && (Look(t, id).None? || !Rests(Look(s, id).value, Look(t, id).value))
  }

  /** Room `id` has no readable file, or was handed on, committed, described or notified since its file was written. */
  predicate Unsaved(s: State, id: Id)
    requires id in s.rooms
  {
    || id !in s.disk || s.disk[id].world.None?
    || (var w, r := s.disk[id].world.value, s.rooms[id];
        w.generation != r.generation || w.revision != r.revision || w.info.meta != r.info.meta || w.events != r.events)
  }

  /** Is room `id` empty in memory, waiting for a save, and does it refuse `p`? */
  predicate Drops(s: State, p: Id, id: Id, password: Option<Json>)
    requires p in s.players
  {
    && s.players[p].room.None? && id in s.rooms && s.rooms[id].active == []
    && Refusal(s.rooms[id], p, password).Some?
  }

  /** Of an earlier version exactly these differences are losses. */
  lemma RestsExactly(f: World, r: Room)
    requires Later(FromWorld(f), r) && r.started
    ensures Rests(r, FromWorld(f)) <==>
      f.generation == r.generation && f.revision == r.revision && f.info.meta == r.info.meta && f.events == r.events
  {
    assert r.info == f.info.(meta := r.info.meta);
  }

  /**
   * Entering loses a world exactly when it drops that world's empty room, by refusing, while the room is not the one in
   * its file: no readable file, or another generation, revision, metadata or list of events.
   */
  lemma EnterLosesExactly(cfg: Config, s: State, p: Id, id: Id, password: Option<Json>, io: Io, x: Id)
    requires Inv(s) && Orderly(s) && p in s.players
    ensures Loses(s, Enter(cfg, s, p, id, password, io), x) <==>
      x == id && Drops(s, p, id, password) && Unsaved(s, id)
  {
    hide Refusal, Joined, Rests, Inv, Orderly, Unsaved, Inside;
    var t := Enter(cfg, s, p, id, password, io);
    var loaded := if id in s.rooms then Missing else Load(cfg, s.disk, id, io.readable);
    SelfRests(s, x);
    if s.players[p].room.None? && (id in s.rooms || loaded.Found?) {
      var r := if id in s.rooms then s.rooms[id] else loaded.room;
      if Refusal(r, p, password).None? {
        JoinedRests(r, p);
      } else if id in s.rooms && r.active == [] {
        EmptyIsPersistent(s, id);
        DroppedLoses(s, t, id);
      }
    }
  }

  /** A dropped room is lost exactly when it is not the one in its file. */
  lemma DroppedLoses(s: State, t: State, id: Id)
    requires Inv(s) && Orderly(s) && id in s.rooms && s.rooms[id].active == []
    requires t.rooms == s.rooms - {id} && t.disk == s.disk
    ensures Loses(s, t, id) <==> Unsaved(s, id)
  {
    hide Rests, Later, Clocked, Members, WorldsOk;
    assert RoomOk(s.rooms[id]);
    if id in s.disk && s.disk[id].world.Some? { RestsExactly(s.disk[id].world.value, s.rooms[id]); }
  }

  /** Empty rooms are persistent ones. */
  lemma EmptyIsPersistent(s: State, id: Id)
    requires Inv(s) && id in s.rooms && s.rooms[id].active == []
    ensures s.rooms[id].persistent
  {
    hide Clocked, Members, WorldsOk;
    assert RoomOk(s.rooms[id]);
  }

  lemma SelfRests(s: State, x: Id)
    ensures Look(s, x).Some? ==> Rests(Look(s, x).value, Look(s, x).value)
  {
  }

  lemma {:induction false} ReleasedOrderly(cfg: Config, s: State, queue: seq<Delayed>, n: nat)
    requires Inv(s) && Orderly(s) && DrainAdmissible(cfg, s, queue) && n <= Queue.Due(queue, s.now) <= |queue|
    ensures Orderly(Queue.Released(cfg, s, queue, n))
    decreases n
  {
    hide Inv, Orderly, Release, Admissible, Goes;
    if n > 0 {
      Safety.ReleaseHolds(cfg, s, queue[0]);
      ReleaseGoes(cfg, s, queue[0]);
      GoesOrderly(s, Release(cfg, s, queue[0]));
      Queue.ReleaseKeepsQueue(cfg, s, queue[0]);
      Queue.ReleasedShift(cfg, s, queue, n);
      Queue.DueBounds(queue[1..], s.now);
      ReleasedOrderly(cfg, Release(cfg, s, queue[0]), queue[1..], n - 1);
    }
  }

  lemma SameOrderly(s: State, t: State)
    requires Orderly(s) && t.rooms == s.rooms && t.disk == s.disk && t.issued == s.issued
    ensures Orderly(t)
  {
  }

  lemma HandedOrderly(cfg: Config, r: Run, i: nat, cid: nat, frame: Frame, w: State)
    requires IsRun(cfg, r) && i < |r.steps| && Hands(cfg, r.states[i], r.steps[i], cid, frame, w)
    ensures Orderly(w)
  {
    hide Next, Inv, Orderly, AtOnce, HandsQueued, DrainAdmissible;
    var s, c := r.states[i], r.steps[i];
    assert Lawful(cfg, s, c);
    RunOrderly(cfg, r, i);
    if c.action.Swept? {
      var m :| HandsQueued(cfg, s, c, m, cid, frame, w);
      var start := At(s, c.at).(delayed := []);
      Safety.RunHolds(cfg, r, i);
      StartHolds(s, c.at);
      SameOrderly(s, start);
      HandedLater(cfg, s, c, m, cid, frame, w);
      ReleasedOrderly(cfg, start, s.delayed, m);
      SameOrderly(Halfway(cfg, s, c, m), w);
    } else {
      SameOrderly(s, w);
    }
  }

  lemma StartHolds(s: State, t: nat)
    requires Inv(s) && s.now <= t
    ensures Inv(At(s, t).(delayed := []))
  {
  }

  lemma HandedLater(cfg: Config, s: State, c: Step, m: nat, cid: nat, frame: Frame, w: State)
    requires HandsQueued(cfg, s, c, m, cid, frame, w)
    ensures m < Queue.Due(s.delayed, c.at) <= |s.delayed|
    ensures var mid := Halfway(cfg, s, c, m); w.rooms == mid.rooms && w.disk == mid.disk && w.issued == mid.issued
  {
    hide Queue.Released;
  }

  /** In every run, whichever saves fail, entering loses worlds exactly so, at once or from the queue. */
  lemma RunEnterLosesExactly(cfg: Config, r: Run, i: nat, cid: nat, frame: Frame, w: State, x: Id)
    requires IsRun(cfg, r) && i < |r.steps| && Hands(cfg, r.states[i], r.steps[i], cid, frame, w)
    requires frame.body.RequestBody? && frame.body.request.EnterRoom?
    ensures Serves(w, cid) && w.conns[cid].player.Some?
    ensures var q, p := frame.body.request, w.conns[cid].player.value;
      Loses(w, Dispatch(cfg, w, cid, frame), x) <==> x == q.id && Drops(w, p, q.id, q.password) && Unsaved(w, q.id)
  {
    hide Next, Lawful, Inv, Orderly, Hands, Enter, Loses, Drops, Unsaved;
    HandedHolds(cfg, r, i, cid, frame, w);
    HandedOrderly(cfg, r, i, cid, frame, w);
    var q := frame.body.request;
    EnterLosesExactly(cfg, w, w.conns[cid].player.value, q.id, q.password, frame.io, x);
  }

  // ---- only after a failed save

  function Prefix(r: Run, i: nat): Run
    requires i < |r.states| && |r.states| == |r.steps| + 1
  {
    Run(r.states[..i + 1], r.steps[..i])
  }

  lemma PrefixIsRun(cfg: Config, r: Run, i: nat)
    requires IsRun(cfg, r) && i < |r.states|
    ensures IsRun(cfg, Prefix(r, i))
  {
    hide Next, Lawful, WorldsOk;
    var q := Prefix(r, i);
    forall k | 0 <= k < |q.steps|
      ensures Lawful(cfg, q.states[k], q.steps[k]) && q.states[k + 1] == Next(cfg, q.states[k], q.steps[k])
    {
      assert q.states[k] == r.states[k] && q.states[k + 1] == r.states[k + 1] && q.steps[k] == r.steps[k];
    }
  }

  /** A room is empty in memory only after a command whose saves fail. */
  lemma WaitsAfterFailedSave(cfg: Config, r: Run, i: nat, id: Id)
    requires IsRun(cfg, r) && i < |r.states| && id in r.states[i].rooms && r.states[i].rooms[id].active == []
    ensures exists j :: 0 <= j < i && !History.Saves(r.steps[j])
  {
    hide Next, Lawful, History.Saves;
    assert |r.states| == |r.steps| + 1;
    hide IsRun;
    if forall j :: 0 <= j < i ==> History.Saves(r.steps[j]) {
      var q := Prefix(r, i);
      PrefixIsRun(cfg, r, i);
      forall k | 0 <= k < |q.steps| ensures History.Saves(q.steps[k]) { assert q.steps[k] == r.steps[k]; }
      History.RunSound(cfg, q, i);
      NobodyWaits(q.states[i], id);
    }
  }

  lemma NobodyWaits(s: State, id: Id)
    requires History.Sound(s) && id in s.rooms
    ensures s.rooms[id].active != []
  {
  }
}

/** Worlds over whole runs with any storage outcomes: each goes on lawfully until a refused entry drops it unsaved. */
module Lasting {
  import opened Model
  import opened Rules
  import opened Invariants
  import opened Relay
  import opened Presence
  import opened Worlds
  import opened History
  import opened Rosters
  import opened Handling
  import opened Losses
  import Preservation
  import Queue
  import QueueBudget
  import QueueRuns
  import Opening
  import Restart
  import Safety
  import Sessions
  import Sockets
  import Udp
  import Uploads

  /** World `id` goes on from `s` to `t`: lawfully if it is still there, by eviction if it is not, and never back. */
  ghost predicate Onto(s: State, t: State, id: Id) {
    && s.issued <= t.issued && s.evicted <= t.evicted
    && (id in s.issued ==>
          && (Look(s, id).None? ==> Look(t, id).None?)
          && (Look(s, id).Some? && Look(s, id).value.persistent && Look(t, id).None? ==> id in t.evicted)
          && (Look(t, id).Some? ==> Look(s, id).Some? && Evolves(Look(s, id).value, Look(t, id).value)))
  }

  lemma OntoOn(s: State, t: State, u: State, id: Id)
    requires Onto(s, t, id) && Onto(t, u, id)
    ensures Onto(s, u, id)
  {
  }

  lemma EvolvingIsOnto(s: State, t: State, id: Id)
    requires AllEvolve(s, t)
    ensures Onto(s, t, id)
  {
    hide Evolves;
  }

  /** In state `w` the frame is an entry to world `id` that is refused and drops it while its file is not up to date. */
  ghost predicate DropsUnsaved(w: State, cid: nat, frame: Frame, id: Id) {
    && Serves(w, cid) && frame.body.RequestBody? && frame.body.request.EnterRoom? && frame.body.request.id == id
    && Drops(w, w.conns[cid].player.value, id, frame.body.request.password) && Unsaved(w, id)
  }

  /** Command `c` after `s` hands such a frame over. */
  ghost predicate Dropped(cfg: Config, s: State, c: Step, id: Id) {
    exists cid, frame, w :: Hands(cfg, s, c, cid, frame, w) && DropsUnsaved(w, cid, frame, id)
  }

  ghost predicate Fit(s: State) {
    Inv(s) && Known(s) && Orderly(s)
  }

  // ---- one frame

  lemma EnterOnto(cfg: Config, s: State, p: Id, x: Id, password: Option<Json>, io: Io, id: Id)
    requires Fit(s) && p in s.players
    ensures var t := Enter(cfg, s, p, x, password, io);
      Known(t) && (Onto(s, t, id) || (x == id && Drops(s, p, id, password) && Unsaved(s, id)))
  {
    hide Inv, Refusal, Joined, Evolves, Rests;
    var t := Enter(cfg, s, p, x, password, io);
    var loaded := if x in s.rooms then Missing else Load(cfg, s.disk, x, io.readable);
    if s.players[p].room.None? && (x in s.rooms || loaded.Found?) {
      var r := if x in s.rooms then s.rooms[x] else loaded.room;
      if Refusal(r, p, password).None? {
        AdmitRests(s, p, x, r);
        RestIsEvolving(s, t);
        EvolvingIsOnto(s, t, id);
      } else if x in s.rooms && r.active == [] && r.persistent {
        DroppedOnto(s, t, x, id);
      } else {
        assert t.rooms == s.rooms;
        SameRoomsEvolve(s, t);
        EvolvingIsOnto(s, t, id);
      }
    } else {
      SameRoomsEvolve(s, t);
      EvolvingIsOnto(s, t, id);
    }
  }

  lemma DroppedOnto(s: State, t: State, x: Id, id: Id)
    requires Fit(s) && x in s.rooms && s.rooms[x].active == []
    requires t == s.(rooms := s.rooms - {x})
    ensures Known(t) && (Onto(s, t, id) || (x == id && Unsaved(s, id)))
  {
    hide Evolves, Rests, Later, Members, Clocked, WorldsOk;
    EvolvesSelf(s, id);
    if x == id && !Unsaved(s, id) {
      var r, f := s.rooms[id], s.disk[id].world.value;
      assert RoomOk(r);
      RestsExactly(f, r);
      RestsEvolves(r, FromWorld(f));
    }
  }

  lemma EvolvesSelf(s: State, id: Id)
    ensures Look(s, id).Some? ==> Evolves(Look(s, id).value, Look(s, id).value)
  {
  }

  lemma RestsEvolves(a: Room, b: Room)
    requires Rests(a, b)
    ensures Evolves(a, b)
  {
  }

  lemma DispatchOnto(cfg: Config, s: State, cid: nat, frame: Frame, id: Id)
    requires Fit(s) && Serves(s, cid) && Admissible(s, frame)
    ensures var t := Dispatch(cfg, s, cid, frame); Known(t) && (Onto(s, t, id) || DropsUnsaved(s, cid, frame, id))
  {
    hide Onto, Evolves, Rests, Core, Create, Enter, Leave, InRoom, Binary, Orderly, Known, AllEvolve;
    hide Paired, Seated, Drops, Unsaved;
    var p, t := s.conns[cid].player.value, Dispatch(cfg, s, cid, frame);
    if frame.body.RequestBody? && frame.body.request.EnterRoom? {
      EnterOnto(cfg, s, p, frame.body.request.id, frame.body.request.password, frame.io, id);
    } else {
      if frame.body.RequestBody? {
        var q, io := frame.body.request, frame.io;
        if q.CreateRoom? { CreateEvolves(cfg, s, p, q.id, q.info, q.max, q.password, q.fits, io); }
        else if q.LeaveRoom? { LeaveRests(cfg, s, p, false, io); RestIsEvolving(s, t); }
        else if q.OpenUdp? || q.CloseUdp? || q.Lookup? || q.Pong? { SameRoomsEvolve(s, t); }
        else { InRoomEvolves(cfg, s, p, q, io); }
      } else if frame.body.BinaryBody? {
        BinaryEvolves(s, p, frame.body.bytes);
      } else {
        SameRoomsEvolve(s, t);
      }
      EvolvingIsOnto(s, t, id);
    }
  }

  // ---- one command

  lemma ReleaseOnto(cfg: Config, s: State, d: Delayed, id: Id)
    requires Fit(s) && Admissible(s, d.frame)
    ensures var t := Release(cfg, s, d);
      Known(t) && (Onto(s, t, id) || (QueueRuns.Runs(s, d) && DropsUnsaved(Discharged(s, d), d.cid, d.frame, id)))
  {
    hide Onto, Core, Orderly, Known, Dispatch, Release, Admissible, AllEvolve;
    if d.cid in s.conns {
      var w := Discharged(s, d);
      QueueRuns.RunsIsDispatch(cfg, s, d);
      SameRoomsEvolve(s, w);
      EvolvingIsOnto(s, w, id);
      if QueueRuns.Runs(s, d) {
        RunsServes(s, d);
        Preservation.OwnersHold(s, w.conns, s.delayed);
        SameOrderly(s, w);
        SameAdmissible(s, w, d.frame);
        DispatchOnto(cfg, w, d.cid, d.frame, id);
        if Onto(w, Release(cfg, s, d), id) { OntoOn(s, w, Release(cfg, s, d), id); }
      }
    } else {
      Opening.ReleaseNothing(cfg, s, d);
      SameRoomsEvolve(s, s);
      EvolvingIsOnto(s, s, id);
    }
  }

  lemma {:induction false} ReleasedOnto(cfg: Config, s: State, queue: seq<Delayed>, n: nat, id: Id) returns (m: nat)
    requires Fit(s) && DrainAdmissible(cfg, s, queue) && n <= Queue.Due(queue, s.now) <= |queue|
    ensures Known(Queue.Released(cfg, s, queue, n))
    ensures || Onto(s, Queue.Released(cfg, s, queue, n), id)
            || (m < n && QueueRuns.Runs(Queue.Released(cfg, s, queue, m), queue[m])
                && DropsUnsaved(Discharged(Queue.Released(cfg, s, queue, m), queue[m]), queue[m].cid, queue[m].frame, id))
  {
    hide Onto, Inv, Orderly, Known, Release, Dispatch, Admissible, DrainAdmissible, AllEvolve, DropsUnsaved, QueueRuns.Runs;
    m := 0;
    if n == 0 {
      SameRoomsEvolve(s, s);
      EvolvingIsOnto(s, s, id);
    } else {
      var t, d := Queue.Released(cfg, s, queue, n - 1), queue[n - 1];
      m := ReleasedOnto(cfg, s, queue, n - 1, id);
      Sockets.ReleasedHolds(cfg, s, queue, n - 1);
      ReleasedOrderly(cfg, s, queue, n - 1);
      ReleasedAdmissible(cfg, s, queue, n - 1);
      ReleaseOnto(cfg, t, d, id);
      if Onto(s, t, id) {
        m := n - 1;
        if Onto(t, Release(cfg, t, d), id) { OntoOn(s, t, Release(cfg, t, d), id); }
      }
    }
  }

  /** Keeping house moves every world on, whichever saves fail. */
  lemma HouseOnto(cfg: Config, mid: State, tidy: State, order: seq<(Id, Io)>, now: nat, id: Id)
    requires Firm(mid) && tidy == mid.(delayed := tidy.delayed, rooms := Tidied(mid.rooms, now))
    ensures Onto(mid, Expire(cfg, KeepAll(cfg, tidy, order)), id) && Known(Expire(cfg, KeepAll(cfg, tidy, order)))
  {
    hide Onto, Inv, Known, AllEvolve, AllRest, KeepAll, Expire, Tidied;
    var bare, kept := mid.(rooms := Tidied(mid.rooms, now)), KeepAll(cfg, tidy, order);
    TidiedEvolves(mid, now);
    SameRoomsEvolve(bare, tidy);
    SameFirm(bare, tidy);
    EvolvesOn(mid, bare, tidy);
    Restart.KeepAllRests(cfg, tidy, order);
    Safety.KeepAllHolds(cfg, tidy, order);
    RestIsEvolving(tidy, kept);
    EvolvesOn(mid, tidy, kept);
    ExpireEvolves(cfg, kept);
    EvolvesOn(mid, kept, Expire(cfg, kept));
    EvolvingIsOnto(mid, Expire(cfg, kept), id);
  }

  lemma SameFirm(s: State, t: State)
    requires Firm(s) && t == s.(delayed := t.delayed)
    ensures Firm(t)
  {
  }

  lemma SweptOnto(cfg: Config, s: State, c: Step, id: Id)
    requires Fit(At(s, c.at)) && Lawful(cfg, s, c) && Queue.Sorted(s.delayed) && c.action.Swept?
    ensures Known(Next(cfg, s, c)) && (Onto(At(s, c.at), Next(cfg, s, c), id) || Dropped(cfg, s, c, id))
  {
    hide Onto, Inv, Orderly, Known, Queue.Released, KeepAll, Expire, Rules.Sweep, Tidied, QueueRuns.Runs, DropsUnsaved;
    hide DrainAdmissible, Queue.Sorted, AllEvolve;
    var t := At(s, c.at);
    var start, n := t.(delayed := []), Queue.Due(s.delayed, c.at);
    SweepIs(cfg, t, c.action.order);
    var mid := Queue.Released(cfg, start, s.delayed, n);
    StartFits(s, c.at);
    SameRoomsEvolve(t, start);
    EvolvingIsOnto(t, start, id);
    var m := ReleasedOnto(cfg, start, s.delayed, n, id);
    if m < n && QueueRuns.Runs(Halfway(cfg, s, c, m), s.delayed[m]) { Uploads.HandsReleased(cfg, s, c, m); }
    Sockets.ReleasedHolds(cfg, start, s.delayed, n);
    var tidy := mid.(delayed := s.delayed[n..], rooms := Tidied(mid.rooms, t.now));
    HouseOnto(cfg, mid, tidy, c.action.order, c.at, id);
    if Onto(start, mid, id) {
      OntoOn(t, start, mid, id);
      OntoOn(t, mid, Next(cfg, s, c), id);
    }
  }

  lemma StartFits(s: State, t: nat)
    requires Fit(At(s, t))
    ensures Fit(At(s, t).(delayed := []))
  {
    hide Known, Orderly, Core;
    SameOrderly(At(s, t), At(s, t).(delayed := []));
    SameRoomsEvolve(At(s, t), At(s, t).(delayed := []));
    Preservation.OwnersHold(At(s, t), s.conns, []);
  }

  lemma ReceivedOnto(cfg: Config, s: State, c: Step, id: Id)
    requires Fit(At(s, c.at)) && Lawful(cfg, s, c) && c.action.Received?
    ensures Known(Next(cfg, s, c)) && (Onto(At(s, c.at), Next(cfg, s, c), id) || Dropped(cfg, s, c, id))
  {
    hide Onto, Core, Orderly, Known, Rules.Receive, Dispatch, Authenticate, AtOnce, Admissible, DropsUnsaved, AllEvolve, Counted;
    var t, cid, frame := At(s, c.at), c.action.cid, c.action.frame;
    ReceiveCases(cfg, t, cid, frame);
    if AtOnce(cfg, t, cid, frame) {
      CountedHolds(cfg, t, cid, frame);
      var w := CountedState(t, cid);
      SameAdmissible(s, w, frame);
      SameOrderly(t, w);
      SameRoomsEvolve(t, w);
      EvolvingIsOnto(t, w, id);
      assert Hands(cfg, s, c, cid, frame, w);
      DispatchOnto(cfg, w, cid, frame, id);
      if Onto(w, Next(cfg, s, c), id) { OntoOn(t, w, Next(cfg, s, c), id); }
    } else if Introduces(cfg, t, cid, frame) {
      var w := CountedState(t, cid);
      CountedCalm(t, cid);
      Preservation.OwnersHold(t, w.conns, t.delayed);
      SameRoomsEvolve(t, w);
      Uploads.Undisplaced(cfg, t, cid, frame);
      AuthenticateEvolves(cfg, w, cid, frame.body.credentials, frame.io);
      EvolvesOn(t, w, Next(cfg, s, c));
      EvolvingIsOnto(t, Next(cfg, s, c), id);
    } else {
      UnmovedEvolves(t, Next(cfg, s, c));
      EvolvingIsOnto(t, Next(cfg, s, c), id);
    }
  }

  lemma UnmovedEvolves(s: State, t: State)
    requires Known(s) && Unmoved(s, t)
    ensures AllEvolve(s, t) && Known(t)
  {
    SameRoomsEvolve(s, t);
  }

  lemma StepOnto(cfg: Config, s: State, c: Step, id: Id)
    requires Fit(s) && Lawful(cfg, s, c) && Queue.Sorted(s.delayed)
    ensures Known(Next(cfg, s, c)) && (Onto(s, Next(cfg, s, c), id) || Dropped(cfg, s, c, id))
  {
    hide Onto, Inv, Orderly, Known, Dropped, Rules.Sweep, Rules.Receive, Rules.Disconnect, Rules.Closing, Udp.Datagram, AllEvolve;
    hide Queue.Sorted, NoneWaits;
    var t, u := At(s, c.at), Next(cfg, s, c);
    QueueBudget.InvAt(s, c.at);
    SameOrderly(s, t);
    SameRoomsEvolve(s, t);
    EvolvingIsOnto(s, t, id);
    match c.action {
      case Connected(cid) => SameRoomsEvolve(t, u); EvolvingIsOnto(t, u, id);
      case Disconnected(cid, io) => DisconnectEvolves(cfg, t, cid, io); EvolvingIsOnto(t, u, id);
      case Received(cid, frame) => ReceivedOnto(cfg, s, c, id);
      case Arrived(bytes, source, nonce) =>
        Safety.DatagramChangesSessions(cfg, t, bytes, source, nonce);
        SameRoomsEvolve(t, u);
        EvolvingIsOnto(t, u, id);
      case Closed(cid) => ClosingEvolves(t, cid); EvolvingIsOnto(t, u, id);
      case Swept(order) => SweptOnto(cfg, s, c, id);
    }
    if Onto(t, u, id) { OntoOn(s, t, u, id); }
  }

  // ---- runs

  lemma {:induction false} RunKnown(cfg: Config, r: Run, i: nat)
    requires IsRun(cfg, r) && i < |r.states|
    ensures Fit(r.states[i]) && Queue.Sorted(r.states[i].delayed)
  {
    hide Next, Lawful, Inv, Orderly, Onto, Dropped;
    Safety.RunHolds(cfg, r, i);
    RunOrderly(cfg, r, i);
    QueueRuns.RunSorted(cfg, r, i);
    if i > 0 {
      RunKnown(cfg, r, i - 1);
      assert Lawful(cfg, r.states[i - 1], r.steps[i - 1]);
      StepOnto(cfg, r.states[i - 1], r.steps[i - 1], 0);
    } else {
      assert Known(r.states[0]);
    }
  }

  /** Between states `i` and `j` no refused entry drops world `id` while its file is not up to date. */
  ghost predicate NeverDropped(cfg: Config, r: Run, i: nat, j: nat, id: Id)
    requires |r.states| == |r.steps| + 1 && j < |r.states|
  {
    forall k :: i <= k < j ==> !Dropped(cfg, r.states[k], r.steps[k], id)
  }

  /**
   * In every run, whichever saves fail: as long as no refused entry drops a world that is not in its file as it is in
   * memory, the world moves on lawfully from any state to any later one - one owner for each generation, one state for
   * each revision, a settled roster once started - vanishes only by eviction, and does not come back.
   */
  lemma {:induction false} WorldGoesOn(cfg: Config, r: Run, i: nat, j: nat, id: Id)
    requires IsRun(cfg, r) && i <= j < |r.states| && NeverDropped(cfg, r, i, j, id)
    ensures Onto(r.states[i], r.states[j], id)
    decreases j
  {
    hide Next, Lawful, Inv, Orderly, Onto, Dropped, AllEvolve;
    if i == j {
      RunKnown(cfg, r, i);
      SameRoomsEvolve(r.states[i], r.states[i]);
      EvolvingIsOnto(r.states[i], r.states[i], id);
    } else {
      WorldGoesOn(cfg, r, i, j - 1, id);
      RunKnown(cfg, r, j - 1);
      assert Lawful(cfg, r.states[j - 1], r.steps[j - 1]);
      StepOnto(cfg, r.states[j - 1], r.steps[j - 1], id);
      OntoOn(r.states[i], r.states[j - 1], r.states[j], id);
    }
  }

  /** Each generation of a world has one owner, however often it was unloaded, and its save failed, in between. */
  lemma OneOwnerPerGeneration(cfg: Config, r: Run, i: nat, j: nat, id: Id)
    requires IsRun(cfg, r) && i <= j < |r.states| && NeverDropped(cfg, r, i, j, id)
    requires id in r.states[i].issued && Look(r.states[i], id).Some? && Look(r.states[j], id).Some?
    ensures Look(r.states[i], id).value.generation <= Look(r.states[j], id).value.generation
    ensures Look(r.states[i], id).value.generation == Look(r.states[j], id).value.generation ==>
      Look(r.states[i], id).value.owner == Look(r.states[j], id).value.owner
  {
    hide IsRun, NeverDropped;
    WorldGoesOn(cfg, r, i, j, id);
  }

  /**
   * The commit is a compare-and-swap: when an upload that was begun against the room of state `i` can be committed
   * in state `j`, then in between the owner never changed and nothing else was committed.
   */
  lemma CommitIsCompareAndSwap(cfg: Config, r: Run, i: nat, j: nat, k: nat, id: Id, p: Id, request: Id)
    requires IsRun(cfg, r) && i <= k <= j < |r.states| && NeverDropped(cfg, r, i, j, id)
    requires id in r.states[i].rooms && id in r.states[j].rooms
    requires Sessions.Complete(r.states[j].rooms[id], p, request)
    requires r.states[j].rooms[id].upload.value.generation == r.states[i].rooms[id].generation
    requires r.states[j].rooms[id].upload.value.revision == r.states[i].rooms[id].revision
    ensures Look(r.states[k], id).Some?
    ensures var a, b := r.states[i].rooms[id], Look(r.states[k], id).value;
      b.owner == a.owner && b.generation == a.generation && b.revision == a.revision && b.state == a.state
  {
    hide Dropped, Inv, Orderly;
    assert NeverDropped(cfg, r, i, k, id) && NeverDropped(cfg, r, k, j, id);
    hide IsRun, NeverDropped;
    WorldGoesOn(cfg, r, i, k, id);
    WorldGoesOn(cfg, r, k, j, id);
    RunKnown(cfg, r, i);
  }

  // ---- runs whose saves succeed

  lemma {:induction false} ReleasedSound(cfg: Config, s: State, queue: seq<Delayed>, n: nat)
    requires Sound(s) && DrainAdmissible(cfg, s, queue) && QueueSaves(queue) && n <= Queue.Due(queue, s.now) <= |queue|
    ensures Sound(Queue.Released(cfg, s, queue, n))
    decreases n
  {
    hide Sound, Release, Admissible, AllEvolve;
    if n > 0 {
      ReleaseEvolves(cfg, s, queue[0]);
      Queue.ReleaseKeepsQueue(cfg, s, queue[0]);
      Queue.ReleasedShift(cfg, s, queue, n);
      Queue.DueBounds(queue[1..], s.now);
      ReleasedSound(cfg, Release(cfg, s, queue[0]), queue[1..], n - 1);
    }
  }

  /** Where every save succeeds no room waits, so none is dropped unsaved. */
  lemma SavedRunsDropNothing(cfg: Config, r: Run, i: nat, j: nat, id: Id)
    requires IsRun(cfg, r) && AllSave(r) && i <= j < |r.states|
    ensures NeverDropped(cfg, r, i, j, id)
  {
    hide Next, Lawful, Saves, Hands, DropsUnsaved, Sound;
    forall k, cid, frame, w | i <= k < j && Hands(cfg, r.states[k], r.steps[k], cid, frame, w)
      ensures !DropsUnsaved(w, cid, frame, id)
    {
      RunSound(cfg, r, k);
      assert Lawful(cfg, r.states[k], r.steps[k]);
      HandedSound(cfg, r.states[k], r.steps[k], cid, frame, w);
      NothingDrops(w, cid, frame, id);
    }
  }

  lemma HandedSound(cfg: Config, s: State, c: Step, cid: nat, frame: Frame, w: State)
    requires Sound(s) && QueueSaves(s.delayed) && Lawful(cfg, s, c) && Hands(cfg, s, c, cid, frame, w)
    ensures NoneWaits(w)
  {
    hide Inv, Known, DrainAdmissible, AtOnce, HandsQueued;
    if c.action.Swept? {
      var m :| HandsQueued(cfg, s, c, m, cid, frame, w);
      HandedLater(cfg, s, c, m, cid, frame, w);
      var start := At(s, c.at).(delayed := []);
      StartSound(s, c.at);
      ReleasedSound(cfg, start, s.delayed, m);
    }
  }

  lemma StartSound(s: State, t: nat)
    requires Sound(s) && s.now <= t
    ensures Sound(At(s, t).(delayed := []))
  {
    StartHolds(s, t);
  }

  lemma NothingDrops(w: State, cid: nat, frame: Frame, id: Id)
    requires NoneWaits(w)
    ensures !DropsUnsaved(w, cid, frame, id)
  {
    hide Unsaved, Refusal;
  }
}

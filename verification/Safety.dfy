/** The invariants over whole runs. */
module Safety {
  import opened Model
  import opened Rules
  import opened Invariants
  import opened Preservation
  import opened Relay
  import Udp

  lemma ClosingHolds(s: State, cid: nat)
    requires Inv(s)
    ensures Inv(Closing(s, cid))
  {
    OwnersHold(s, Closing(s, cid).conns, s.delayed);
  }

  lemma AcceptHolds(cfg: Config, s: State, cid: nat, frame: Frame)
    requires Inv(s) && cid in s.conns && Current(s, cid) && Admissible(s, frame)
    ensures Inv(Accept(cfg, s, cid, frame))
  {
    hide Dispatch, Core;
    var c := s.conns[cid];
    if cfg.delay == 0 || frame.body == RequestBody(Pong) {
      DispatchHolds(cfg, s, cid, frame);
    } else {
      ClosingHolds(s, cid);
      OwnersHold(s, s.conns[cid := c.(delayed := c.delayed + frame.size, pending := c.pending + 1)],
                 s.delayed + [Waiting(cfg, s, cid, frame)]);
    }
  }

  lemma ProcessHolds(cfg: Config, s: State, cid: nat, frame: Frame)
    requires Inv(s) && Admissible(s, frame) && cid in s.conns && (s.conns[cid].player.Some? ==> Current(s, cid))
    requires s.conns[cid].player.None? && frame.body.AuthBody? && frame.size <= cfg.maxPayload ==>
      !Displaces(cfg, s, frame.body.credentials, frame.io)
    ensures Inv(Process(cfg, s, cid, frame))
  {
    hide Accept, Authenticate, Closing, Core, Inv, Displaces;
    ClosingHolds(s, cid);
    if s.conns[cid].player.None? {
      if frame.body.AuthBody? && frame.size <= cfg.maxPayload { AuthenticateHolds(cfg, s, cid, frame.body.credentials, frame.io); }
    } else {
      AcceptHolds(cfg, s, cid, frame);
    }
  }

  lemma CountedDisplaces(cfg: Config, s: State, cid: nat, c: Connection, who: Credentials, io: Io)
    ensures Displaces(cfg, s.(conns := s.conns[cid := c]), who, io) <==> Displaces(cfg, s, who, io)
  {
  }

  lemma ReceiveHolds(cfg: Config, s: State, cid: nat, frame: Frame)
    requires Inv(s) && Admissible(s, frame) && !Displacing(cfg, s, cid, frame)
    ensures Inv(Receive(cfg, s, cid, frame))
  {
    hide Process, Closing, Core, Inv, Displaces;
    if Heard(s, cid) {
      var out := s.(conns := s.conns[cid := Counted(s.conns[cid], s.now)]);
      OwnersHold(s, out.conns, s.delayed);
      ClosingHolds(out, cid);
      if frame.body.AuthBody? { CountedDisplaces(cfg, s, cid, out.conns[cid], frame.body.credentials, frame.io); }
      if out.conns[cid].messages <= cfg.maxMessages { ProcessHolds(cfg, out, cid, frame); }
    }
  }

  lemma ReleaseHolds(cfg: Config, s: State, d: Delayed)
    requires Inv(s) && Admissible(s, d.frame)
    ensures Inv(Release(cfg, s, d))
  {
    hide Dispatch, Core;
    if d.cid in s.conns {
      var c := s.conns[d.cid];
      var out := s.(conns := s.conns[d.cid := c.(delayed := Minus(c.delayed, d.frame.size), pending := Minus(c.pending, 1))]);
      OwnersHold(s, out.conns, s.delayed);
      if Current(out, d.cid) { DispatchHolds(cfg, out, d.cid, d.frame); }
    }
  }

  lemma {:induction false} DrainHolds(cfg: Config, s: State, queue: seq<Delayed>)
    requires Inv(s) && DrainAdmissible(cfg, s, queue)
    ensures Inv(Drain(cfg, s, queue))
    decreases |queue|
  {
    if queue != [] {
      if queue[0].at > s.now {
        DrainHolds(cfg, s.(delayed := s.delayed + [queue[0]]), queue[1..]);
      } else {
        ReleaseHolds(cfg, s, queue[0]);
        DrainHolds(cfg, Release(cfg, s, queue[0]), queue[1..]);
      }
    }
  }

  lemma KeepSeated(cfg: Config, s: State, id: Id, io: Io)
    requires Inv(s) && id in s.rooms && s.rooms[id].active == []
    ensures Inv(Keep(cfg, s.(rooms := s.rooms - {id}), id, s.rooms[id], io))
  {
    DropEmptyRoom(s, id);
    KeepHolds(cfg, s.(rooms := s.rooms - {id}), id, s.rooms[id], io);
  }

  lemma {:induction false} KeepAllHolds(cfg: Config, s: State, order: seq<(Id, Io)>)
    requires Inv(s)
    ensures Inv(KeepAll(cfg, s, order))
    decreases |order|
  {
    if order != [] {
      var (id, io) := order[0];
      if id in s.rooms && s.rooms[id].persistent && s.rooms[id].active == [] {
        KeepSeated(cfg, s, id, io);
        KeepAllHolds(cfg, Keep(cfg, s.(rooms := s.rooms - {id}), id, s.rooms[id], io), order[1..]);
      } else {
        KeepAllHolds(cfg, s, order[1..]);
      }
    }
  }

  lemma UnstalledHolds(r: Room, now: nat)
    requires RoomOk(r)
    ensures RoomOk(Unstalled(r, now))
  {
  }

  lemma TidiedHolds(s: State, now: nat)
    requires Inv(s)
    ensures Inv(s.(rooms := Tidied(s.rooms, now)))
  {
    var rooms := Tidied(s.rooms, now);
    forall id | id in rooms ensures RoomOk(rooms[id]) { UnstalledHolds(s.rooms[id], now); }
    ChangeRooms(s, rooms);
  }

  lemma SweepHolds(cfg: Config, s: State, order: seq<(Id, Io)>)
    requires Inv(s) && DrainAdmissible(cfg, s.(delayed := []), s.delayed)
    ensures Inv(Sweep(cfg, s, order))
  {
    var drained := Drain(cfg, s.(delayed := []), s.delayed);
    DrainHolds(cfg, s.(delayed := []), s.delayed);
    TidiedHolds(drained, s.now);
    var tidy := drained.(rooms := Tidied(drained.rooms, s.now));
    KeepAllHolds(cfg, tidy, order);
    ExpireHolds(cfg, KeepAll(cfg, tidy, order));
  }

  lemma {:induction false} SpreadKeepsOwners(cfg: Config, players: map<Id, Player>, conns: map<nat, Connection>,
          ids: seq<Id>,
                                             p: Id, target: Id, payload: seq<byte>, now: nat)
    ensures SameOwners(conns, Udp.Spread(cfg, players, conns, ids, p, target, payload, now).0)
  {
    if ids != [] {
      SpreadKeepsOwners(cfg, players, conns, ids[..|ids| - 1], p, target, payload, now);
    }
  }

  /** A datagram changes nothing but UDP sessions and quotas. */
  lemma DatagramChangesSessions(cfg: Config, s: State, bytes: seq<byte>, source: Address, nonce: seq<byte>)
    ensures var t := Udp.Datagram(cfg, s, bytes, source, nonce).0;
      t == s.(conns := t.conns) && SameOwners(s.conns, t.conns)
  {
    hide Udp.Signed, Udp.Sensible;
    if Udp.Genuine(cfg, s, bytes) {
      var pk := Udp.Fields(bytes);
      var (c, ok) := Udp.Metered(cfg, s.conns[pk.cid], pk.sequence, s.now);
      if ok && pk.kind == Udp.DATA && Udp.FromEndpoint(cfg, c.udp.value, source, s.now) {
        var p := s.conns[pk.cid].player.value;
        var metered := s.conns[pk.cid := c];
        var bound := metered[pk.cid := c.(udp := Some(c.udp.value.(endpoint := Some(Binding(source, s.now)))))];
        SpreadKeepsOwners(cfg, s.players, bound, s.rooms[s.players[p].room.value].active, p, pk.target, pk.payload, s.now);
      }
    }
  }

  lemma DatagramHolds(cfg: Config, s: State, bytes: seq<byte>, source: Address, nonce: seq<byte>)
    requires Inv(s)
    ensures Inv(Udp.Datagram(cfg, s, bytes, source, nonce).0)
  {
    DatagramChangesSessions(cfg, s, bytes, source, nonce);
    OwnersHold(s, Udp.Datagram(cfg, s, bytes, source, nonce).0.conns, s.delayed);
  }

  /** Every command keeps the invariants. */
  lemma StepHolds(cfg: Config, s: State, c: Step)
    requires Inv(s) && Lawful(cfg, s, c)
    ensures Inv(Next(cfg, s, c))
  {
    var t := At(s, c.at);
    assert Inv(t);
    match c.action
    case Connected(cid) => ConnectHolds(t, cid);
    case Disconnected(cid, io) => DisconnectHolds(cfg, t, cid, io);
    case Received(cid, frame) => ReceiveHolds(cfg, t, cid, frame);
    case Arrived(bytes, source, nonce) => DatagramHolds(cfg, t, bytes, source, nonce);
    case Closed(cid) => ClosingHolds(t, cid);
    case Swept(order) => SweepHolds(cfg, t, order);
  }

  /** Every state of every run satisfies the invariants. */
  lemma {:induction false} RunHolds(cfg: Config, r: Run, i: nat)
    requires IsRun(cfg, r) && i < |r.states|
    ensures Inv(r.states[i])
  {
    if i > 0 {
      RunHolds(cfg, r, i - 1);
      StepHolds(cfg, r.states[i - 1], r.steps[i - 1]);
    }
  }

  /**
   * Membership, spelled out: in every state of every run a player is active in a room exactly when its record names
   * that room; occupied rooms hold their owner and at most `max` members; a fixed game's members are on its roster;
   * nobody is both active and reserved; only a persistent room is kept empty; and a player without a socket is in no room.
   */
  lemma MembershipHolds(cfg: Config, r: Run, i: nat)
    requires IsRun(cfg, r) && i < |r.states|
    ensures var s := r.states[i];
      && (forall id, p :: id in s.rooms ==> (p in s.rooms[id].active <==> p in s.players && s.players[p].room == Some(id)))
      && (forall p :: p in s.players && s.players[p].room.Some? ==> s.players[p].room.value in s.rooms && s.players[p].connection.Some?)
      && forall id :: id in s.rooms ==>
           var room := s.rooms[id];
           && |room.active| <= room.max && (room.active != [] ==> room.owner in room.active)
           && (room.fixed ==> room.started && forall p :: p in room.active ==> p in room.players)
           && (forall p :: p in room.active ==> p !in room.reservations)
           && (room.active == [] ==> room.persistent)
  {
    hide Next, Lawful;
    RunHolds(cfg, r, i);
  }
}

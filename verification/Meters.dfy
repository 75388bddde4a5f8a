/** Who touches the rate limits of a connection: its own messages and datagrams, and nothing else. */
module Meters {
  import opened Model
  import opened Rules
  import opened Reach
  import opened Relay
  import opened Presence
  import opened Handling
  import opened Udp
  import opened Channel
  import opened Provenance
  import opened Invariants
  import Queue
  import Rates
  import AntiReplay
  import IndexSet

  predicate SameMeter(a: Connection, b: Connection) {
    b.incoming == a.incoming && b.outgoing == a.outgoing && b.rateAt == a.rateAt && b.messages == a.messages
  }

  /** The same sockets, each with the same rate limits. */
  ghost predicate SameMeters(s: State, t: State) {
    t.conns.Keys == s.conns.Keys && forall cid :: cid in s.conns ==> SameMeter(s.conns[cid], t.conns[cid])
  }

  lemma DispatchMeters(cfg: Config, s: State, cid: nat, frame: Frame)
    ensures SameMeters(s, Dispatch(cfg, s, cid, frame))
  {
    hide Dispatch;
    DispatchIsContained(cfg, s, cid, frame);
  }

  lemma BindMeters(cfg: Config, s: State, cid: nat, id: Id, io: Io)
    requires cid in s.conns && id in s.players
    ensures SameMeters(s, Bind(cfg, s, cid, id, io))
  {
    hide WithoutFrames;
    var before := s.players[id].connection;
    if before.Some? { ClosingMeters(s, before.value); }
  }

  lemma ClosingMeters(s: State, cid: nat)
    ensures SameMeters(s, Closing(s, cid)) && Closing(s, cid).players == s.players
  {
  }

  lemma TakeOverMeters(cfg: Config, s: State, cid: nat, key: Id, io: Io)
    requires cid in s.conns && key in s.players
    ensures SameMeters(s, TakeOver(cfg, s, cid, key, io))
  {
    hide Leave, Bind;
    if InFixedGame(s, key) {
      LeaveIsContained(cfg, s, key, true, io);
      BindMeters(cfg, Leave(cfg, s, key, true, io), cid, key, io);
    } else {
      BindMeters(cfg, s, cid, key, io);
    }
  }

  lemma AuthenticateMeters(cfg: Config, s: State, cid: nat, c: Credentials, io: Io)
    requires cid in s.conns
    ensures SameMeters(s, Authenticate(cfg, s, cid, c, io))
  {
    hide TakeOver, Bind, Expire, Account, Closing;
    var known := Expire(cfg, s);
    ExpireIs(cfg, s);
    ClosingMeters(known, cid);
    match c
    case Login(key, exact, password) =>
      var account := Account(cfg, known, key, exact, io);
      if account.Some? { TakeOverMeters(cfg, known.(players := known.players[key := account.value]), cid, key, io); }
    case Guest(id, secret) =>
      BindMeters(cfg, known.(players := known.players[id := Player(secret, None, None, None, Some(s.now), 0)]), cid, id, io);
  }

  lemma AcceptMeters(cfg: Config, s: State, cid: nat, frame: Frame)
    requires cid in s.conns && Current(s, cid)
    ensures SameMeters(s, Accept(cfg, s, cid, frame))
  {
    hide Dispatch, Closing, Waiting;
    DispatchMeters(cfg, s, cid, frame);
    ClosingMeters(s, cid);
  }

  lemma ProcessMeters(cfg: Config, s: State, cid: nat, frame: Frame)
    requires cid in s.conns && (s.conns[cid].player.Some? ==> Current(s, cid))
    ensures SameMeters(s, Process(cfg, s, cid, frame))
  {
    hide Accept, Authenticate, Closing;
    ClosingMeters(s, cid);
    if s.conns[cid].player.None? {
      if frame.body.AuthBody? { AuthenticateMeters(cfg, s, cid, frame.body.credentials, frame.io); }
    } else {
      AcceptMeters(cfg, s, cid, frame);
    }
  }

  lemma ReceiveMeters(cfg: Config, s: State, cid: nat, frame: Frame)
    ensures var t := Receive(cfg, s, cid, frame);
      if Heard(s, cid) then SameMeters(CountedState(s, cid), t) else t == s
    ensures Heard(s, cid) && !Passed(cfg, s, cid) ==> Receive(cfg, s, cid, frame) == Closing(CountedState(s, cid), cid)
  {
    hide Process;
    if Heard(s, cid) {
      var out := CountedState(s, cid);
      if out.conns[cid].messages <= cfg.maxMessages { ProcessMeters(cfg, out, cid, frame); }
    }
  }

  lemma ReleaseMeters(cfg: Config, s: State, d: Delayed)
    ensures SameMeters(s, Release(cfg, s, d))
  {
    hide Dispatch;
    if d.cid in s.conns { DispatchMeters(cfg, Discharged(s, d), d.cid, d.frame); }
  }

  lemma {:induction false} DrainMeters(cfg: Config, s: State, queue: seq<Delayed>)
    ensures SameMeters(s, Drain(cfg, s, queue))
    decreases |queue|
  {
    hide Release;
    if queue != [] {
      ReleaseMeters(cfg, s, queue[0]);
      var t := if queue[0].at > s.now then s.(delayed := s.delayed + [queue[0]]) else Release(cfg, s, queue[0]);
      DrainMeters(cfg, t, queue[1..]);
    }
  }

  lemma SweepMeters(cfg: Config, s: State, order: seq<(Id, Io)>)
    ensures SameMeters(s, Sweep(cfg, s, order))
  {
    hide Drain, KeepAll, Expire;
    var drained := Drain(cfg, s.(delayed := []), s.delayed);
    DrainMeters(cfg, s.(delayed := []), s.delayed);
    var tidy := drained.(rooms := Tidied(drained.rooms, s.now));
    KeepAllStays(cfg, tidy, order);
    ExpireIs(cfg, KeepAll(cfg, tidy, order));
  }

  lemma DisconnectMeters(cfg: Config, s: State, cid: nat, io: Io)
    ensures var t := Disconnect(cfg, s, cid, io);
      t.conns.Keys == s.conns.Keys - {cid} && forall x :: x in t.conns ==> SameMeter(s.conns[x], t.conns[x])
  {
    hide Leave;
    if cid in s.conns && s.conns[cid].player.Some? && s.conns[cid].player.value in s.players {
      var p := s.conns[cid].player.value;
      var out := s.(delayed := WithoutFrames(s.delayed, cid), conns := s.conns - {cid});
      LeaveIsContained(cfg, out.(players := s.players[p := s.players[p].(connection := None, offline := Some(s.now))]), p, true, io);
    }
  }

  // ---- datagrams

  /** Serving one member moves its counters as sending one packet does, if it can be reached at all. */
  lemma {:induction false} SpreadServes(cfg: Config, players: map<Id, Player>, conns: map<nat, Connection>,
          ids: seq<Id>,
                                        p: Id, target: Id, payload: seq<byte>, now: nat, q: Id, cid: nat)
    requires IndexSet.Distinct(ids) && Paired(players, conns) && q in ids && q in players
    requires players[q].connection == Some(cid)
    ensures var after := Spread(cfg, players, conns, ids, p, target, payload, now).0;
      cid in after && after[cid] ==
        if Addressee(players, p, target, q) && Reachable(cfg, conns, cid, players[q].version, now)
        then Emit(cfg, conns[cid], cid, DELIVERED, p, payload, now).0 else conns[cid]
  {
    hide Emit;
    var front, last := ids[..|ids| - 1], ids[|ids| - 1];
    if last == q {
      forall x | x in front && x in players ensures players[x].connection != Some(cid) { assert x != q; }
      SpreadSpares(cfg, players, conns, front, p, target, payload, now, cid);
    } else {
      SpreadServes(cfg, players, conns, front, p, target, payload, now, q, cid);
    }
  }

  /** A packet goes out to the endpoint of connection `cid`. */
  predicate Sends(cfg: Config, s: State, c: Action, cid: nat) {
    && c.Arrived? && Taken(cfg, s, c.bytes)
    && (var pk := Fields(c.bytes);
        if pk.kind == DATA then
          && Carried(cfg, s, c.bytes, c.source)
          && exists q ::
               && q in RoomOf(s, pk.cid).active && q in s.players && s.players[q].connection == Some(cid)
               && Copy(cfg, s.players, s.conns, q, s.conns[pk.cid].player.value, pk.target, pk.payload, s.now) != []
        else pk.cid == cid && Datagram(cfg, s, c.bytes, c.source, c.nonce).1 != [])
  }

  /** How the outgoing limit of one connection sees a datagram. */
  function SendEvent(cfg: Config, s: State, c: Action, t: State, cid: nat): Rates.Event
    requires cid in s.conns && cid in t.conns
  {
    if Sends(cfg, s, c, cid) then Rates.Seen(s.now, true)
    else if t.conns[cid].outgoing == s.conns[cid].outgoing then Rates.Quiet
    else Rates.Seen(s.now, false)
  }

  /** How the incoming limit of one connection sees a datagram. */
  function TakeEvent(cfg: Config, s: State, c: Action, cid: nat): Rates.Event {
    if c.Arrived? && Genuine(cfg, s, c.bytes) && Fields(c.bytes).cid == cid then Rates.Seen(s.now, Taken(cfg, s, c.bytes))
    else Rates.Quiet
  }

  /** The limits of one connection across a datagram. */
  ghost predicate Limited(cfg: Config, s: State, c: Action, t: State, cid: nat)
    requires cid in s.conns && cid in t.conns
  {
    && Rates.Passes(s.conns[cid].incoming, TakeEvent(cfg, s, c, cid), t.conns[cid].incoming, cfg.udpIncoming, Rates.SECOND)
    && Rates.Passes(s.conns[cid].outgoing, SendEvent(cfg, s, c, t, cid), t.conns[cid].outgoing, cfg.udpOutgoing, Rates.SECOND)
    && t.conns[cid].rateAt == s.conns[cid].rateAt && t.conns[cid].messages == s.conns[cid].messages
  }

  lemma EmitPasses(cfg: Config, c: Connection, cid: nat, kind: byte, sender: Id, payload: seq<byte>, now: nat)
    requires c.udp.Some?
    ensures var (d, packet) := Emit(cfg, c, cid, kind, sender, payload, now);
      && Rates.Passes(c.outgoing, Rates.Seen(now, packet.Some?), d.outgoing, cfg.udpOutgoing, Rates.SECOND)
      && d.incoming == c.incoming && d.rateAt == c.rateAt && d.messages == c.messages
  {
    hide Encode;
  }

  /** A probe or an echo, on its own connection. */
  lemma HandshakeLimits(cfg: Config, s: State, c: Action)
    requires c.Arrived? && Taken(cfg, s, c.bytes) && Fields(c.bytes).kind != DATA
    ensures var t, cid := Datagram(cfg, s, c.bytes, c.source, c.nonce).0, Fields(c.bytes).cid;
      && t.conns.Keys == s.conns.Keys && (forall x :: x in s.conns && x != cid ==> t.conns[x] == s.conns[x])
      && Limited(cfg, s, c, t, cid)
  {
    hide Genuine, Rates.Passes, Emit, Sends;
    GenuineLive(cfg, s, c.bytes);
    var pk := Fields(c.bytes);
    var (m, ok) := Metered(cfg, s.conns[pk.cid], pk.sequence, s.now);
    var t := Datagram(cfg, s, c.bytes, c.source, c.nonce).0;
    MeteredPasses(cfg, s.conns[pk.cid], pk.sequence, s.now);
    if pk.kind == PROBE {
      var asked := m.(udp := Some(m.udp.value.(challenge := Some(Challenge(c.source, c.nonce, s.now)))));
      EmitPasses(cfg, asked, pk.cid, CHALLENGE, 0, c.nonce, s.now);
      HandshakeSends(cfg, s, c, t, pk.cid, Emit(cfg, asked, pk.cid, CHALLENGE, 0, c.nonce, s.now).1);
    } else if Answers(cfg, m.udp.value, c.source, pk.payload, s.now) {
      var u := m.udp.value;
      var bound := m.(udp := Some(u.(challenge := None, endpoint := Some(Binding(c.source, s.now)))));
      EmitPasses(cfg, bound, pk.cid, BOUND, 0, u.challenge.value.nonce, s.now);
      HandshakeSends(cfg, s, c, t, pk.cid, Emit(cfg, bound, pk.cid, BOUND, 0, u.challenge.value.nonce, s.now).1);
    } else {
      SilentHandshake(cfg, s, c);
      Unsent(cfg, s, c, t, pk.cid);
    }
  }

  lemma GenuineLive(cfg: Config, s: State, bytes: seq<byte>)
    requires Genuine(cfg, s, bytes)
    ensures |bytes| >= HEADER + TAG && Live(s, Fields(bytes).cid)
  {
  }

  lemma SilentHandshake(cfg: Config, s: State, c: Action)
    requires c.Arrived? && Taken(cfg, s, c.bytes) && Fields(c.bytes).kind != DATA
    requires Datagram(cfg, s, c.bytes, c.source, c.nonce).1 == []
    ensures !Sends(cfg, s, c, Fields(c.bytes).cid)
  {
    hide Datagram, Taken;
  }

  lemma MeteredPasses(cfg: Config, c: Connection, sequence: AntiReplay.Word, now: nat)
    requires c.udp.Some?
    ensures var (m, ok) := Metered(cfg, c, sequence, now);
      && Rates.Passes(c.incoming, Rates.Seen(now, ok), m.incoming, cfg.udpIncoming, Rates.SECOND)
      && m.outgoing == c.outgoing && m.rateAt == c.rateAt && m.messages == c.messages && m.player == c.player
  {
    hide AntiReplay.Admit;
  }

  lemma HandshakeSends(cfg: Config, s: State, c: Action, t: State, cid: nat, packet: Option<seq<byte>>)
    requires c.Arrived? && Taken(cfg, s, c.bytes) && Fields(c.bytes).kind != DATA && Fields(c.bytes).cid == cid
    requires cid in s.conns && cid in t.conns
    requires Datagram(cfg, s, c.bytes, c.source, c.nonce).1 == To(c.source, packet)
    requires Rates.Passes(s.conns[cid].outgoing, Rates.Seen(s.now, packet.Some?), t.conns[cid].outgoing, cfg.udpOutgoing, Rates.SECOND)
    ensures Rates.Passes(s.conns[cid].outgoing, SendEvent(cfg, s, c, t, cid), t.conns[cid].outgoing, cfg.udpOutgoing, Rates.SECOND)
  {
    hide Taken, Datagram;
  }

  lemma Unsent(cfg: Config, s: State, c: Action, t: State, cid: nat)
    requires cid in s.conns && cid in t.conns && t.conns[cid].outgoing == s.conns[cid].outgoing
    requires !Sends(cfg, s, c, cid)
    ensures Rates.Passes(s.conns[cid].outgoing, SendEvent(cfg, s, c, t, cid), t.conns[cid].outgoing, cfg.udpOutgoing, Rates.SECOND)
  {
    hide Sends;
  }

  /** A data packet, on any connection. */
  lemma DataLimits(cfg: Config, s: State, c: Action, cid: nat)
    requires Inv(s) && cid in s.conns
    requires c.Arrived? && Taken(cfg, s, c.bytes) && Fields(c.bytes).kind == DATA
    ensures var t := Datagram(cfg, s, c.bytes, c.source, c.nonce).0;
      t.conns.Keys == s.conns.Keys && Limited(cfg, s, c, t, cid)
  {
    hide Inv, Genuine, Rates.Passes, Emit, Sends, Copy, Spread;
    GenuineLive(cfg, s, c.bytes);
    var pk := Fields(c.bytes);
    var (m, ok) := Metered(cfg, s.conns[pk.cid], pk.sequence, s.now);
    var t := Datagram(cfg, s, c.bytes, c.source, c.nonce).0;
    MeteredPasses(cfg, s.conns[pk.cid], pk.sequence, s.now);
    QuietPasses(s.conns[cid].incoming, cfg.udpIncoming);
    if Carried(cfg, s, c.bytes, c.source) {
      var b := m.(udp := Some(m.udp.value.(endpoint := Some(Binding(c.source, s.now)))));
      var p := s.conns[pk.cid].player.value;
      var bound := s.conns[pk.cid := b];
      assert s.conns[pk.cid := m][pk.cid := b] == bound;
      SpreadOnlySends(cfg, s.players, bound, RoomOf(s, pk.cid).active, p, pk.target, pk.payload, s.now);
      CarriedSends(cfg, s, c, b, cid);
      assert t.conns == Spread(cfg, s.players, bound, RoomOf(s, pk.cid).active, p, pk.target, pk.payload, s.now).0;
      AllOnlySentOne(bound, t.conns, cid);
      SendsPasses(cfg, s, c, t, cid);
    } else {
      NotCarried(cfg, s, c, cid);
      Unsent(cfg, s, c, t, cid);
    }
  }

  lemma NotCarried(cfg: Config, s: State, c: Action, cid: nat)
    requires c.Arrived? && Taken(cfg, s, c.bytes) && Fields(c.bytes).kind == DATA && !Carried(cfg, s, c.bytes, c.source)
    ensures !Sends(cfg, s, c, cid)
  {
    hide Carried, Taken, Copy;
  }

  lemma AllOnlySentOne(conns: map<nat, Connection>, after: map<nat, Connection>, cid: nat)
    requires AllOnlySent(conns, after) && cid in conns
    ensures after.Keys == conns.Keys
    ensures after[cid].incoming == conns[cid].incoming && after[cid].rateAt == conns[cid].rateAt
    ensures after[cid].messages == conns[cid].messages
  {
  }

  lemma QuietPasses(g: Rate, limit: nat)
    ensures Rates.Passes(g, Rates.Quiet, g, limit, Rates.SECOND)
  {
  }

  lemma SendsPasses(cfg: Config, s: State, c: Action, t: State, cid: nat)
    requires cid in s.conns && cid in t.conns
    requires (t.conns[cid].outgoing == s.conns[cid].outgoing && !Sends(cfg, s, c, cid))
             || Rates.Passes(s.conns[cid].outgoing, Rates.Seen(s.now, Sends(cfg, s, c, cid)), t.conns[cid].outgoing, cfg.udpOutgoing, Rates.SECOND)
    ensures Rates.Passes(s.conns[cid].outgoing, SendEvent(cfg, s, c, t, cid), t.conns[cid].outgoing, cfg.udpOutgoing, Rates.SECOND)
  {
    hide Sends;
  }

  /** The connection `cid` after the spread of a carried packet: one packet's worth if it was sent one. */
  lemma CarriedSends(cfg: Config, s: State, c: Action, b: Connection, cid: nat)
    requires Inv(s) && cid in s.conns
    requires c.Arrived? && Carried(cfg, s, c.bytes, c.source)
    requires Live(s, Fields(c.bytes).cid)
    requires b.player == s.conns[Fields(c.bytes).cid].player && b.outgoing == s.conns[Fields(c.bytes).cid].outgoing
    ensures var pk := Fields(c.bytes);
      var p := s.conns[pk.cid].player.value;
      var after := Spread(cfg, s.players, s.conns[pk.cid := b], RoomOf(s, pk.cid).active, p, pk.target, pk.payload, s.now).0;
      && cid in after
      && ( || (after[cid].outgoing == s.conns[cid].outgoing && !Sends(cfg, s, c, cid))
           || Rates.Passes(s.conns[cid].outgoing, Rates.Seen(s.now, Sends(cfg, s, c, cid)), after[cid].outgoing, cfg.udpOutgoing, Rates.SECOND))
  {
    hide Inv, Genuine, Carried, Rates.Passes, Emit, Spread, Copy, Sends, Addressee, Reachable;
    CarriedData(cfg, s, c.bytes, c.source);
    var pk := Fields(c.bytes);
    var p, ids, bound := s.conns[pk.cid].player.value, RoomOf(s, pk.cid).active, s.conns[pk.cid := b];
    InvParts(s);
    BindPaired(s.players, s.conns, pk.cid, b);
    RoomDistinct(s, pk.cid);
    if q :| q in ids && q in s.players && s.players[q].connection == Some(cid) {
      SpreadServes(cfg, s.players, bound, ids, p, pk.target, pk.payload, s.now, q, cid);
      SendsWhen(cfg, s, c, q, cid);
      CopyFrame(cfg, s.players, bound, s.conns, pk.cid, q, p, pk.target, pk.payload, s.now);
      CopyIs(cfg, s.players, bound, q, cid, p, pk.target, pk.payload, s.now);
    } else {
      SpreadSpares(cfg, s.players, bound, ids, p, pk.target, pk.payload, s.now, cid);
      NoMemberNoPacket(cfg, s, c, cid);
    }
  }

  lemma CarriedData(cfg: Config, s: State, bytes: seq<byte>, source: Address)
    requires Carried(cfg, s, bytes, source)
    ensures |bytes| >= HEADER + TAG && Fields(bytes).kind == DATA
  {
  }

  lemma RoomDistinct(s: State, cid: nat)
    requires Core(s) && Live(s, cid)
    ensures IndexSet.Distinct(RoomOf(s, cid).active)
  {
    assert RoomOk(RoomOf(s, cid));
  }

  lemma NoMemberNoPacket(cfg: Config, s: State, c: Action, cid: nat)
    requires c.Arrived? && |c.bytes| >= HEADER + TAG && Fields(c.bytes).kind == DATA && Live(s, Fields(c.bytes).cid)
    requires forall q :: q in RoomOf(s, Fields(c.bytes).cid).active && q in s.players ==> s.players[q].connection != Some(cid)
    ensures !Sends(cfg, s, c, cid)
  {
    hide Carried, Taken, Copy, Live;
  }

  /** Sockets are not shared, so the copy for the one member on socket `cid` decides. */
  lemma SendsWhen(cfg: Config, s: State, c: Action, q: Id, cid: nat)
    requires Paired(s.players, s.conns)
    requires c.Arrived? && Carried(cfg, s, c.bytes, c.source) && Live(s, Fields(c.bytes).cid)
    requires q in RoomOf(s, Fields(c.bytes).cid).active && q in s.players && s.players[q].connection == Some(cid)
    ensures var pk := Fields(c.bytes);
      Sends(cfg, s, c, cid) <==> Copy(cfg, s.players, s.conns, q, s.conns[pk.cid].player.value, pk.target, pk.payload, s.now) != []
  {
    hide Copy, Taken;
  }

  lemma CopyIs(cfg: Config, players: map<Id, Player>, conns: map<nat, Connection>, q: Id, cid: nat, p: Id,
          target: Id, payload: seq<byte>, now: nat)
    requires q in players && players[q].connection == Some(cid) && Paired(players, conns)
    ensures if Addressee(players, p, target, q) && Reachable(cfg, conns, cid, players[q].version, now) then
              var (d, packet) := Emit(cfg, conns[cid], cid, DELIVERED, p, payload, now);
              var sent := Copy(cfg, players, conns, q, p, target, payload, now) != [];
              Rates.Passes(conns[cid].outgoing, Rates.Seen(now, sent), d.outgoing, cfg.udpOutgoing, Rates.SECOND)
            else Copy(cfg, players, conns, q, p, target, payload, now) == []
  {
    hide Rates.Passes, Emit;
    if Addressee(players, p, target, q) && Reachable(cfg, conns, cid, players[q].version, now) {
      EmitPasses(cfg, conns[cid], cid, DELIVERED, p, payload, now);
    }
  }

  /** Every datagram moves both limits of every connection as fixed windows move. */
  lemma DatagramLimits(cfg: Config, s: State, c: Action, cid: nat)
    requires Inv(s) && c.Arrived? && cid in s.conns
    ensures var t := Datagram(cfg, s, c.bytes, c.source, c.nonce).0;
      t.conns.Keys == s.conns.Keys && Limited(cfg, s, c, t, cid)
  {
    hide Inv, Live, Sensible, Signed, AntiReplay.Admit, Limited, Data, Probe, Echo;
    var t := Datagram(cfg, s, c.bytes, c.source, c.nonce).0;
    if Taken(cfg, s, c.bytes) && Fields(c.bytes).kind == DATA {
      DataLimits(cfg, s, c, cid);
    } else if Taken(cfg, s, c.bytes) && Fields(c.bytes).cid == cid {
      HandshakeLimits(cfg, s, c);
    } else if Taken(cfg, s, c.bytes) {
      HandshakeLimits(cfg, s, c);
      OtherLimited(cfg, s, c, t, cid);
    } else if Genuine(cfg, s, c.bytes) {
      RefusedLimits(cfg, s, c, cid);
    } else {
      OtherLimited(cfg, s, c, t, cid);
    }
  }

  lemma OtherLimited(cfg: Config, s: State, c: Action, t: State, cid: nat)
    requires c.Arrived? && cid in s.conns && cid in t.conns && t.conns[cid] == s.conns[cid]
    requires !Genuine(cfg, s, c.bytes) || (Fields(c.bytes).kind != DATA && Fields(c.bytes).cid != cid)
    ensures Limited(cfg, s, c, t, cid)
  {
    hide Live, Signed, Sensible;
  }

  lemma RefusedLimits(cfg: Config, s: State, c: Action, cid: nat)
    requires c.Arrived? && Genuine(cfg, s, c.bytes) && !Taken(cfg, s, c.bytes) && cid in s.conns
    ensures var t := Datagram(cfg, s, c.bytes, c.source, c.nonce).0;
      t.conns.Keys == s.conns.Keys && Limited(cfg, s, c, t, cid)
  {
    hide Rates.Passes;
    GenuineLive(cfg, s, c.bytes);
    var pk := Fields(c.bytes);
    MeteredPasses(cfg, s.conns[pk.cid], pk.sequence, s.now);
    QuietPasses(s.conns[cid].incoming, cfg.udpIncoming);
    QuietPasses(s.conns[cid].outgoing, cfg.udpOutgoing);
  }
}

/** The numbers on outgoing datagrams: under one key each is one more than the packets sent before it. */
module Sequences {
  import opened Model
  import opened Rules
  import opened Invariants
  import opened Relay
  import opened Presence
  import opened Udp
  import opened Channel
  import opened Provenance
  import opened Opening
  import opened Handling
  import opened Meters
  import AntiReplay
  import Bytes
  import IndexSet
  import Limits
  import Packets
  import QueueRuns
  import Rates
  import Safety

  /** The number that a packet carries on the wire. */
  function Number(packet: seq<byte>): nat
    requires |packet| >= HEADER
  {
    Bytes.Value(packet[13..21])
  }

  /** The packet is written for connection `cid` under `key` with the number `n`. */
  ghost predicate Written(cfg: Config, packet: seq<byte>, key: seq<byte>, cid: nat, n: nat) {
    && n < AntiReplay.WORD
    && exists kind: byte, sender: Id, payload: seq<byte> :: packet == Encode(cfg, key, kind, cid, n, sender, payload)
  }

  lemma WrittenNumber(cfg: Config, packet: seq<byte>, key: seq<byte>, cid: nat, n: nat)
    requires Written(cfg, packet, key, cid, n)
    ensures |packet| >= HEADER && Number(packet) == n
  {
    var kind: byte, sender: Id, payload: seq<byte> :| packet == Encode(cfg, key, kind, cid, n, sender, payload);
    NumberRead(cfg, key, kind, cid, n, sender, payload);
  }

  lemma NumberRead(cfg: Config, key: seq<byte>, kind: byte, cid: nat, n: nat, sender: Id, payload: seq<byte>)
    requires n < AntiReplay.WORD
    ensures var packet := Encode(cfg, key, kind, cid, n, sender, payload); |packet| >= HEADER && Number(packet) == n
  {
    hide Bytes.BigEndian, Bytes.Value;
    var packet, plain := Encode(cfg, key, kind, cid, n, sender, payload), Plain(kind, cid, n, sender, payload);
    assert plain[13..21] == Bytes.BigEndian(n, 8);
    assert packet[13..21] == plain[13..21];
    Bytes.EightBytes();
    Bytes.ValueOfBigEndian(n, 8);
  }

  // ---- one datagram

  /** One emission: the counter advances exactly when a packet goes out, and the packet carries its new value. */
  lemma EmitNumbers(cfg: Config, c: Connection, cid: nat, kind: byte, sender: Id, payload: seq<byte>, now: nat)
    requires c.udp.Some?
    ensures var (d, packet) := Emit(cfg, c, cid, kind, sender, payload, now);
      && d.udp.Some? && d.udp.value == c.udp.value.(outgoing := d.udp.value.outgoing)
      && d.udp.value.outgoing == c.udp.value.outgoing + (if packet.Some? then 1 else 0)
      && (packet.Some? ==> Written(cfg, packet.value, c.udp.value.secret, cid, c.udp.value.outgoing + 1))
  {
    hide Encode;
  }

  /** The counter of `cid` after the datagram `c`. */
  ghost predicate Counts(cfg: Config, s: State, c: Action, t: State, cid: nat)
    requires cid in s.conns && s.conns[cid].udp.Some?
  {
    && cid in t.conns && t.conns[cid].udp.Some?
    && t.conns[cid].udp.value.secret == s.conns[cid].udp.value.secret
    && t.conns[cid].udp.value.outgoing == s.conns[cid].udp.value.outgoing + if Sends(cfg, s, c, cid) then 1 else 0
  }

  lemma HandshakeCounts(cfg: Config, s: State, c: Action, cid: nat)
    requires c.Arrived? && Taken(cfg, s, c.bytes) && Fields(c.bytes).kind != DATA
    requires cid in s.conns && s.conns[cid].udp.Some?
    ensures Counts(cfg, s, c, Datagram(cfg, s, c.bytes, c.source, c.nonce).0, cid)
  {
    hide Genuine, Emit, AntiReplay.Admit, Rates.Accept;
    GenuineLive(cfg, s, c.bytes);
    var pk := Fields(c.bytes);
    var m := Metered(cfg, s.conns[pk.cid], pk.sequence, s.now).0;
    if pk.kind == PROBE {
      var asked := m.(udp := Some(m.udp.value.(challenge := Some(Challenge(c.source, c.nonce, s.now)))));
      EmitNumbers(cfg, asked, pk.cid, CHALLENGE, 0, c.nonce, s.now);
    } else if Answers(cfg, m.udp.value, c.source, pk.payload, s.now) {
      var u := m.udp.value;
      var bound := m.(udp := Some(u.(challenge := None, endpoint := Some(Binding(c.source, s.now)))));
      EmitNumbers(cfg, bound, pk.cid, BOUND, 0, u.challenge.value.nonce, s.now);
    }
  }

  /** The counter of one member's connection after a data packet was spread. */
  lemma CarriedCounts(cfg: Config, s: State, c: Action, b: Connection, cid: nat)
    requires Inv(s) && cid in s.conns && s.conns[cid].udp.Some?
    requires c.Arrived? && Carried(cfg, s, c.bytes, c.source) && Live(s, Fields(c.bytes).cid)
    requires b.player == s.conns[Fields(c.bytes).cid].player && b.udp.Some?
    requires b.udp.value.secret == s.conns[Fields(c.bytes).cid].udp.value.secret
    requires b.udp.value.outgoing == s.conns[Fields(c.bytes).cid].udp.value.outgoing
    ensures var pk := Fields(c.bytes);
      var p := s.conns[pk.cid].player.value;
      var after := Spread(cfg, s.players, s.conns[pk.cid := b], RoomOf(s, pk.cid).active, p, pk.target, pk.payload, s.now).0;
      Counts(cfg, s, c, s.(conns := after), cid)
  {
    hide Inv, Genuine, Carried, Emit, Spread, Copy, Sends, Addressee, Reachable;
    CarriedData(cfg, s, c.bytes, c.source);
    var pk := Fields(c.bytes);
    var p, ids, bound := s.conns[pk.cid].player.value, RoomOf(s, pk.cid).active, s.conns[pk.cid := b];
    InvParts(s);
    BindPaired(s.players, s.conns, pk.cid, b);
    RoomDistinct(s, pk.cid);
    if q :| q in ids && q in s.players && s.players[q].connection == Some(cid) {
      SpreadServes(cfg, s.players, bound, ids, p, pk.target, pk.payload, s.now, q, cid);
      SendsWhen(cfg, s, c, q, cid);
      CopyFrame(cfg, s.players, bound, s.conns, pk.cid, q, p, pk.target, pk.payload, s.now);
      CopyCounts(cfg, s.players, bound, q, cid, p, pk.target, pk.payload, s.now);
    } else {
      SpreadSpares(cfg, s.players, bound, ids, p, pk.target, pk.payload, s.now, cid);
      NoMemberNoPacket(cfg, s, c, cid);
    }
  }

  lemma CopyCounts(cfg: Config, players: map<Id, Player>, conns: map<nat, Connection>, q: Id, cid: nat, p: Id,
          target: Id, payload: seq<byte>, now: nat)
    requires q in players && players[q].connection == Some(cid) && cid in conns && conns[cid].udp.Some?
    ensures var sent := Copy(cfg, players, conns, q, p, target, payload, now) != [];
      if Addressee(players, p, target, q) && Reachable(cfg, conns, cid, players[q].version, now) then
        var d := Emit(cfg, conns[cid], cid, DELIVERED, p, payload, now).0;
        && d.udp.Some? && d.udp.value.secret == conns[cid].udp.value.secret
        && d.udp.value.outgoing == conns[cid].udp.value.outgoing + if sent then 1 else 0
      else !sent
  {
    hide Emit;
    EmitNumbers(cfg, conns[cid], cid, DELIVERED, p, payload, now);
  }

  /** Whatever the datagram is, the counter of each session advances by the packets sent for it. */
  lemma DatagramCounts(cfg: Config, s: State, c: Action, cid: nat)
    requires Inv(s) && c.Arrived? && cid in s.conns && s.conns[cid].udp.Some?
    ensures Counts(cfg, s, c, Datagram(cfg, s, c.bytes, c.source, c.nonce).0, cid)
  {
    hide Inv, Live, Sensible, Signed, AntiReplay.Admit, Counts, Probe, Echo, Spread;
    if Taken(cfg, s, c.bytes) && Fields(c.bytes).kind == DATA {
      DataCounts(cfg, s, c, cid);
    } else if Taken(cfg, s, c.bytes) {
      HandshakeCounts(cfg, s, c, cid);
    } else {
      RefusedCounts(cfg, s, c, cid);
    }
  }

  lemma RefusedCounts(cfg: Config, s: State, c: Action, cid: nat)
    requires c.Arrived? && !Taken(cfg, s, c.bytes) && cid in s.conns && s.conns[cid].udp.Some?
    ensures Counts(cfg, s, c, Datagram(cfg, s, c.bytes, c.source, c.nonce).0, cid)
  {
    hide Live, Sensible, Signed, AntiReplay.Admit, Rates.Accept;
  }

  lemma DataCounts(cfg: Config, s: State, c: Action, cid: nat)
    requires Inv(s) && c.Arrived? && cid in s.conns && s.conns[cid].udp.Some?
    requires Taken(cfg, s, c.bytes) && Fields(c.bytes).kind == DATA
    ensures Counts(cfg, s, c, Datagram(cfg, s, c.bytes, c.source, c.nonce).0, cid)
  {
    hide Inv, Genuine, Sends, Copy, Spread, AntiReplay.Admit, Rates.Accept, Counts;
    GenuineLive(cfg, s, c.bytes);
    var pk := Fields(c.bytes);
    var m := Metered(cfg, s.conns[pk.cid], pk.sequence, s.now).0;
    if Carried(cfg, s, c.bytes, c.source) {
      var b := m.(udp := Some(m.udp.value.(endpoint := Some(Binding(c.source, s.now)))));
      assert s.conns[pk.cid := m][pk.cid := b] == s.conns[pk.cid := b];
      CarriedCounts(cfg, s, c, b, cid);
      SameCounts(cfg, s, c, s.(conns := Datagram(cfg, s, c.bytes, c.source, c.nonce).0.conns),
                 Datagram(cfg, s, c.bytes, c.source, c.nonce).0, cid);
    } else {
      NotCarried(cfg, s, c, cid);
      KeptCounts(cfg, s, c, Datagram(cfg, s, c.bytes, c.source, c.nonce).0, cid);
    }
  }

  lemma SameCounts(cfg: Config, s: State, c: Action, t: State, u: State, cid: nat)
    requires cid in s.conns && s.conns[cid].udp.Some? && Counts(cfg, s, c, t, cid) && u.conns == t.conns
    ensures Counts(cfg, s, c, u, cid)
  {
    hide Sends;
  }

  lemma KeptCounts(cfg: Config, s: State, c: Action, t: State, cid: nat)
    requires cid in s.conns && s.conns[cid].udp.Some? && !Sends(cfg, s, c, cid)
    requires cid in t.conns && t.conns[cid].udp.Some?
    requires t.conns[cid].udp.value.secret == s.conns[cid].udp.value.secret
    requires t.conns[cid].udp.value.outgoing == s.conns[cid].udp.value.outgoing
    ensures Counts(cfg, s, c, t, cid)
  {
    hide Sends;
  }

  /** Every packet sent is written for a connection under its key, with the number after the last one sent there. */
  lemma PacketIsNumbered(cfg: Config, s: State, c: Action, k: nat) returns (cid: nat)
    requires Inv(s) && c.Arrived? && k < |Datagram(cfg, s, c.bytes, c.source, c.nonce).1|
    ensures Sends(cfg, s, c, cid) && cid in s.conns && s.conns[cid].udp.Some?
    ensures var u := s.conns[cid].udp.value;
      Written(cfg, Datagram(cfg, s, c.bytes, c.source, c.nonce).1[k].1, u.secret, cid, u.outgoing + 1)
  {
    hide Inv, Live, Sensible, Signed, AntiReplay.Admit, Spread, Copies, Copy, RoomOf, Emit, Written, Rates.Accept;
    var pk := Fields(c.bytes);
    if pk.kind == DATA {
      cid := DataIsNumbered(cfg, s, c, k);
    } else {
      cid := pk.cid;
      HandshakeIsNumbered(cfg, s, c, k);
    }
  }

  lemma DataIsNumbered(cfg: Config, s: State, c: Action, k: nat) returns (cid: nat)
    requires Inv(s) && c.Arrived? && k < |Datagram(cfg, s, c.bytes, c.source, c.nonce).1|
    requires Framed(cfg, c.bytes) && Fields(c.bytes).kind == DATA
    ensures Sends(cfg, s, c, cid) && cid in s.conns && s.conns[cid].udp.Some?
    ensures var u := s.conns[cid].udp.value;
      Written(cfg, Datagram(cfg, s, c.bytes, c.source, c.nonce).1[k].1, u.secret, cid, u.outgoing + 1)
  {
    hide Inv, Datagram, Spread, Copies, Copy, Carried, Sends;
    var pk := Fields(c.bytes);
    DataIsCopied(cfg, s, c.bytes, c.source, c.nonce);
    CarriedLive(cfg, s, c.bytes, c.source);
    InvParts(s);
    var p, ids := s.conns[pk.cid].player.value, RoomOf(s, pk.cid).active;
    var m := CopyOf(cfg, s.players, s.conns, ids, p, pk.target, pk.payload, s.now, k);
    cid := Limits.CopySends(cfg, s, c, ids[m]);
    CopyIsNumbered(cfg, s.players, s.conns, ids[m], cid, p, pk.target, pk.payload, s.now,
                   Datagram(cfg, s, c.bytes, c.source, c.nonce).1[k]);
  }


  lemma CopyIsNumbered(cfg: Config, players: map<Id, Player>, conns: map<nat, Connection>, q: Id, cid: nat, p: Id,
          target: Id, payload: seq<byte>, now: nat, sent: (Address, seq<byte>))
    requires q in players && players[q].connection == Some(cid)
    requires Copy(cfg, players, conns, q, p, target, payload, now) == [sent]
    ensures cid in conns && conns[cid].udp.Some?
    ensures Written(cfg, sent.1, conns[cid].udp.value.secret, cid, conns[cid].udp.value.outgoing + 1)
  {
    hide Emit, Written;
    EmitNumbers(cfg, conns[cid], cid, DELIVERED, p, payload, now);
  }

  lemma HandshakeIsNumbered(cfg: Config, s: State, c: Action, k: nat)
    requires c.Arrived? && k < |Datagram(cfg, s, c.bytes, c.source, c.nonce).1|
    requires |c.bytes| >= HEADER + TAG && Fields(c.bytes).kind != DATA
    ensures var cid := Fields(c.bytes).cid;
      && Sends(cfg, s, c, cid) && cid in s.conns && s.conns[cid].udp.Some?
      && Written(cfg, Datagram(cfg, s, c.bytes, c.source, c.nonce).1[k].1, s.conns[cid].udp.value.secret, cid,
                 s.conns[cid].udp.value.outgoing + 1)
  {
    hide Genuine, Emit, AntiReplay.Admit, Rates.Accept, Written;
    GenuineLive(cfg, s, c.bytes);
    var pk := Fields(c.bytes);
    var m := Metered(cfg, s.conns[pk.cid], pk.sequence, s.now).0;
    if pk.kind == PROBE {
      var asked := m.(udp := Some(m.udp.value.(challenge := Some(Challenge(c.source, c.nonce, s.now)))));
      EmitNumbers(cfg, asked, pk.cid, CHALLENGE, 0, c.nonce, s.now);
    } else {
      var u := m.udp.value;
      var bound := m.(udp := Some(u.(challenge := None, endpoint := Some(Binding(c.source, s.now)))));
      if u.challenge.Some? { EmitNumbers(cfg, bound, pk.cid, BOUND, 0, u.challenge.value.nonce, s.now); }
    }
  }

  // ---- runs

  /** The packets sent on connection `cid` by the commands from `i` to before `j`. */
  ghost function SentOn(cfg: Config, r: Run, i: nat, j: nat, cid: nat): nat
    requires i <= j < |r.states| == |r.steps| + 1
  {
    if i == j then 0
    else
      SentOn(cfg, r, i, j - 1, cid)
      + if Sends(cfg, At(r.states[j - 1], r.steps[j - 1].at), r.steps[j - 1].action, cid) then 1 else 0
  }

  lemma {:induction false} SentOnGrows(cfg: Config, r: Run, i: nat, j: nat, k: nat, cid: nat)
    requires i <= j <= k < |r.states| == |r.steps| + 1
    ensures SentOn(cfg, r, i, k, cid) == SentOn(cfg, r, i, j, cid) + SentOn(cfg, r, j, k, cid)
  {
    hide Sends;
    if j < k { SentOnGrows(cfg, r, i, j, k - 1, cid); }
  }

  /** From state `o + 1` to state `j` the counter of the session of `cid` is the number of packets sent on it. */
  ghost predicate Ladder(cfg: Config, r: Run, o: nat, j: nat, cid: nat, key: seq<byte>)
    requires |r.states| == |r.steps| + 1 && o < j < |r.states|
  {
    forall x :: o < x <= j ==>
      && cid in r.states[x].conns && r.states[x].conns[cid].udp.Some?
      && r.states[x].conns[cid].udp.value.secret == key
      && r.states[x].conns[cid].udp.value.outgoing == SentOn(cfg, r, o + 1, x, cid)
  }

  /** Since a session was opened its counter is the number of packets sent under it. */
  lemma {:induction false} CounterCountsPackets(cfg: Config, r: Run, j: nat, cid: nat) returns (o: nat, w: State)
    requires IsRun(cfg, r) && j < |r.states| && cid in r.states[j].conns && r.states[j].conns[cid].udp.Some?
    ensures var key := r.states[j].conns[cid].udp.value.secret;
      && o < j && RunsRequest(cfg, r.states[o], r.steps[o], cid, OpenUdp(key), w)
      && Ladder(cfg, r, o, j, cid, key)
  {
    hide Next, Lawful, Onward, Serves, RunsRequest, Ladder, Inv, SentOn, Sends;
    var s, c, t := r.states[j - 1], r.steps[j - 1], At(r.states[j - 1], r.steps[j - 1].at);
    var u := r.states[j].conns[cid].udp.value;
    assert Lawful(cfg, s, c);
    RunOnward(cfg, r, j - 1, j - 1);
    QueueRuns.RunSorted(cfg, r, j - 1);
    if c.action.Arrived? {
      ArrivedNext(cfg, s, c);
      DatagramMoves(cfg, t, c.action);
      Safety.RunHolds(cfg, r, j - 1);
      QueueRuns.LawfulClock(cfg, r, j - 1);
      AtHolds(s, c.at);
      DatagramCounts(cfg, t, c.action, cid);
      o, w := CounterCountsPackets(cfg, r, j - 1, cid);
      LadderOn(cfg, r, o, j, cid);
    } else {
      var secret;
      secret, w := StepSession(cfg, s, c, cid);
      if cid in s.conns && s.conns[cid].udp == Some(u) {
        o, w := CounterCountsPackets(cfg, r, j - 1, cid);
        assert !Sends(cfg, t, c.action, cid) by { OnlyDatagramsSend(cfg, t, c.action, cid); }
        LadderOn(cfg, r, o, j, cid);
      } else {
        o := j - 1;
        FirstRung(cfg, r, j, cid);
      }
    }
  }

  lemma OnlyDatagramsSend(cfg: Config, s: State, c: Action, cid: nat)
    ensures Sends(cfg, s, c, cid) ==> c.Arrived?
  {
  }

  lemma LadderOn(cfg: Config, r: Run, o: nat, j: nat, cid: nat)
    requires |r.states| == |r.steps| + 1 && o + 1 < j < |r.states|
    requires cid in r.states[j].conns && r.states[j].conns[cid].udp.Some?
    requires cid in r.states[j - 1].conns && r.states[j - 1].conns[cid].udp.Some?
    requires var key := r.states[j - 1].conns[cid].udp.value.secret;
      Ladder(cfg, r, o, j - 1, cid, key) && r.states[j].conns[cid].udp.value.secret == key
    requires r.states[j].conns[cid].udp.value.outgoing == r.states[j - 1].conns[cid].udp.value.outgoing
      + if Sends(cfg, At(r.states[j - 1], r.steps[j - 1].at), r.steps[j - 1].action, cid) then 1 else 0
    ensures Ladder(cfg, r, o, j, cid, r.states[j].conns[cid].udp.value.secret)
  {
    hide Sends;
  }

  lemma FirstRung(cfg: Config, r: Run, j: nat, cid: nat)
    requires |r.states| == |r.steps| + 1 && 0 < j < |r.states|
    requires cid in r.states[j].conns && r.states[j].conns[cid].udp.Some? && r.states[j].conns[cid].udp.value.outgoing == 0
    ensures Ladder(cfg, r, j - 1, j, cid, r.states[j].conns[cid].udp.value.secret)
  {
    hide Sends;
  }

  /**
   * In every run a packet carries, on the wire, one more than the number of packets that were sent on its connection
   * since its session was opened: challenges, confirmations and data alike.
   */
  lemma NumberIsCount(cfg: Config, r: Run, j: nat, k: nat) returns (o: nat, cid: nat, w: State)
    requires IsRun(cfg, r) && j < |r.steps| && k < |Sent(cfg, r.states[j], r.steps[j])|
    ensures cid in r.states[j].conns && r.states[j].conns[cid].udp.Some?
    ensures var packet, key := Sent(cfg, r.states[j], r.steps[j])[k].1, r.states[j].conns[cid].udp.value.secret;
      && o < j && RunsRequest(cfg, r.states[o], r.steps[o], cid, OpenUdp(key), w) && Ladder(cfg, r, o, j, cid, key)
      && Sends(cfg, At(r.states[j], r.steps[j].at), r.steps[j].action, cid)
      && Written(cfg, packet, key, cid, SentOn(cfg, r, o + 1, j, cid) + 1)
      && |packet| >= HEADER && Number(packet) == SentOn(cfg, r, o + 1, j, cid) + 1
  {
    hide Next, Lawful, Inv, RunsRequest, SentOn, Sends, Written, Number, Datagram;
    var t := At(r.states[j], r.steps[j].at);
    Safety.RunHolds(cfg, r, j);
    QueueRuns.LawfulClock(cfg, r, j);
    AtHolds(r.states[j], r.steps[j].at);
    cid := PacketIsNumbered(cfg, t, r.steps[j].action, k);
    o, w := CounterCountsPackets(cfg, r, j, cid);
    WrittenNumber(cfg, Sent(cfg, r.states[j], r.steps[j])[k].1, r.states[j].conns[cid].udp.value.secret, cid,
                  r.states[j].conns[cid].udp.value.outgoing + 1);
  }

  /** No command from `i` to before `j` runs a request of the socket that supplies the key again. */
  ghost predicate NotSuppliedAgain(cfg: Config, r: Run, i: nat, j: nat, cid: nat, key: seq<byte>)
    requires |r.states| == |r.steps| + 1 && j < |r.states|
  {
    forall x, w :: i <= x < j ==> !RunsRequest(cfg, r.states[x], r.steps[x], cid, OpenUdp(key), w)
  }

  /** Packet `k` of command `i` is written for connection `cid`, under the key that it has then. */
  ghost predicate SentUnder(cfg: Config, r: Run, i: nat, k: nat, cid: nat, key: seq<byte>)
    requires |r.states| == |r.steps| + 1 && i < |r.steps| && k < |Sent(cfg, r.states[i], r.steps[i])|
  {
    var packet := Sent(cfg, r.states[i], r.steps[i])[k].1;
    && cid in r.states[i].conns && r.states[i].conns[cid].udp.Some? && r.states[i].conns[cid].udp.value.secret == key
    && |packet| >= HEADER && Written(cfg, packet, key, cid, Number(packet))
  }

  /**
   * So of two packets sent on one connection under one key the later one carries the larger number, unless the socket
   * supplied that key again in between. `a` and `b` are the connections of the two packets.
   */
  lemma LaterNumberIsLarger(cfg: Config, r: Run, i: nat, k: nat, j: nat, l: nat)
    returns (a: nat, b: nat, key: seq<byte>, later: seq<byte>)
    requires IsRun(cfg, r) && i < j < |r.steps|
    requires k < |Sent(cfg, r.states[i], r.steps[i])| && l < |Sent(cfg, r.states[j], r.steps[j])|
    ensures SentUnder(cfg, r, i, k, a, key) && SentUnder(cfg, r, j, l, b, later)
    ensures a == b && key == later && NotSuppliedAgain(cfg, r, i, j, a, key) ==>
      Number(Sent(cfg, r.states[i], r.steps[i])[k].1) < Number(Sent(cfg, r.states[j], r.steps[j])[l].1)
  {
    hide Next, Lawful, RunsRequest, SentOn, Sends, Written, Datagram, Number, Ladder;
    var o, w, p, v;
    o, a, w := NumberIsCount(cfg, r, i, k);
    p, b, v := NumberIsCount(cfg, r, j, l);
    key, later := r.states[i].conns[a].udp.value.secret, r.states[j].conns[b].udp.value.secret;
    if a == b && key == later && NotSuppliedAgain(cfg, r, i, j, a, key) {
      assert p < i;
      RungIs(cfg, r, p, i, j, a, key);
      RungIs(cfg, r, o, i, i, a, key);
      SentOnGrows(cfg, r, p + 1, i, i + 1, a);
      SentOnGrows(cfg, r, p + 1, i + 1, j, a);
      OneMore(cfg, r, i, a);
    }
  }

  lemma RungIs(cfg: Config, r: Run, o: nat, i: nat, j: nat, cid: nat, key: seq<byte>)
    requires |r.states| == |r.steps| + 1 && o < i <= j < |r.states| && Ladder(cfg, r, o, j, cid, key)
    ensures cid in r.states[i].conns && r.states[i].conns[cid].udp.Some?
    ensures r.states[i].conns[cid].udp.value.outgoing == SentOn(cfg, r, o + 1, i, cid)
  {
    hide Sends, SentOn;
  }

  lemma OneMore(cfg: Config, r: Run, i: nat, cid: nat)
    requires i < |r.steps| && |r.states| == |r.steps| + 1
    requires Sends(cfg, At(r.states[i], r.steps[i].at), r.steps[i].action, cid)
    ensures SentOn(cfg, r, i, i + 1, cid) == 1
  {
    hide Sends;
    assert SentOn(cfg, r, i, i, cid) == 0;
  }
}

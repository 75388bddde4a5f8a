/** What a taken datagram is answered with, and whom its payload reaches. */
module Reaching {
  import opened Model
  import opened Invariants
  import opened Udp
  import opened Channel
  import opened Keys
  import opened Provenance
  import AntiReplay
  import Limits
  import Meters
  import QueueRuns
  import Rates
  import Relay

  /** May the connection send one more packet now? */
  predicate MaySend(cfg: Config, c: Connection, now: nat)
    requires c.udp.Some?
  {
    Within(c.outgoing, now, cfg.udpOutgoing) && c.udp.value.outgoing + 1 < AntiReplay.WORD
  }

  /** The fixed window after one more event: a new one opens once the old one is a second old, and it counts to the limit. */
  function Moved(r: Rate, now: nat, limit: nat): Rate {
    if now >= r.at + 1000 then Rate(now, if limit > 0 then 1 else 0)
    else Rate(r.at, if r.count < limit then r.count + 1 else r.count)
  }

  /** A genuine datagram moves the incoming window of its connection by one event, and is taken if that had room. */
  lemma GenuineMovesWindow(cfg: Config, s: State, bytes: seq<byte>, source: Address, nonce: seq<byte>)
    requires Genuine(cfg, s, bytes) && Fields(bytes).cid in s.conns && s.conns[Fields(bytes).cid].incoming.at <= s.now
    ensures var cid := Fields(bytes).cid;
      var t := Datagram(cfg, s, bytes, source, nonce).0;
      && cid in t.conns && t.conns[cid].incoming == Moved(s.conns[cid].incoming, s.now, cfg.udpIncoming)
      && (Taken(cfg, s, bytes) <==> Within(s.conns[cid].incoming, s.now, cfg.udpIncoming))
  {
    hide Sensible, Signed, Live, AntiReplay.Admit, Emit, Data;
    Meters.GenuineLive(cfg, s, bytes);
    MeteredLive(cfg, s, bytes);
    var pk := Fields(bytes);
    var (m, ok) := Metered(cfg, s.conns[pk.cid], pk.sequence, s.now);
    if ok && pk.kind == DATA {
      DataMoves(cfg, s.(conns := s.conns[pk.cid := m]), pk.cid, source, pk.target, pk.payload);
    } else if ok && pk.kind == PROBE {
      EmitMovesWindow(cfg, m.(udp := Some(m.udp.value.(challenge := Some(Challenge(source, nonce, s.now))))),
                      pk.cid, CHALLENGE, 0, nonce, s.now);
    } else if ok && Answers(cfg, m.udp.value, source, pk.payload, s.now) {
      EmitMovesWindow(cfg, m.(udp := Some(m.udp.value.(challenge := None, endpoint := Some(Binding(source, s.now))))),
                      pk.cid, BOUND, 0, m.udp.value.challenge.value.nonce, s.now);
    }
  }

  /** An emission moves the outgoing window by one event and touches no other limit. */
  lemma EmitMovesWindow(cfg: Config, c: Connection, cid: nat, kind: byte, sender: Id, payload: seq<byte>, now: nat)
    requires c.udp.Some?
    ensures var d := Emit(cfg, c, cid, kind, sender, payload, now).0;
      d.incoming == c.incoming && (c.outgoing.at <= now ==> d.outgoing == Moved(c.outgoing, now, cfg.udpOutgoing))
  {
    hide Encode;
  }

  /** The packet that the connection sends next, if it may. */
  function Next(cfg: Config, c: Connection, cid: nat, kind: byte, sender: Id, payload: seq<byte>, now: nat)
    : Option<seq<byte>>
    requires c.udp.Some?
  {
    if MaySend(cfg, c, now) then
      Some(Encode(cfg, c.udp.value.secret, kind, cid, c.udp.value.outgoing + 1, sender, payload))
    else None
  }

  lemma EmitsNext(cfg: Config, c: Connection, cid: nat, kind: byte, sender: Id, payload: seq<byte>, now: nat)
    requires c.udp.Some? && c.outgoing.at <= now
    ensures Emit(cfg, c, cid, kind, sender, payload, now).1 == Next(cfg, c, cid, kind, sender, payload, now)
  {
    hide Encode;
  }

  /** A taken probe is answered, at its source and if the connection may send, with the challenge, and with nothing else. */
  lemma ProbeIsChallenged(cfg: Config, s: State, bytes: seq<byte>, a: Address, nonce: seq<byte>)
    requires Taken(cfg, s, bytes) && Fields(bytes).kind == PROBE && Fields(bytes).cid in s.conns
    requires s.conns[Fields(bytes).cid].udp.Some? && s.conns[Fields(bytes).cid].outgoing.at <= s.now
    ensures var cid := Fields(bytes).cid;
      var (t, out) := Datagram(cfg, s, bytes, a, nonce);
      var answer := Next(cfg, s.conns[cid], cid, CHALLENGE, 0, nonce, s.now);
      && out == (if answer.Some? then [(a, answer.value)] else [])
      && cid in t.conns && t.conns[cid].udp.Some? && t.conns[cid].udp.value.challenge == Some(Challenge(a, nonce, s.now))
      && t.conns[cid].udp.value.endpoint == s.conns[cid].udp.value.endpoint
  {
    hide Genuine, Encode, AntiReplay.Admit, Emit, Rates.Accept;
    Meters.GenuineLive(cfg, s, bytes);
    var pk := Fields(bytes);
    var m := Metered(cfg, s.conns[pk.cid], pk.sequence, s.now).0;
    var asked := m.(udp := Some(m.udp.value.(challenge := Some(Challenge(a, nonce, s.now)))));
    MeteredKeeps(cfg, s.conns[pk.cid], pk.sequence, s.now);
    EmitsNext(cfg, asked, pk.cid, CHALLENGE, 0, nonce, s.now);
    EmitKeeps(cfg, asked, pk.cid, CHALLENGE, 0, nonce, s.now);
  }

  lemma MeteredKeeps(cfg: Config, c: Connection, sequence: AntiReplay.Word, now: nat)
    requires c.udp.Some?
    ensures var m := Metered(cfg, c, sequence, now).0;
      && m.outgoing == c.outgoing && m.udp.Some? && m.udp.value == c.udp.value.(replay := m.udp.value.replay)
  {
    hide AntiReplay.Admit, Rates.Accept;
  }

  lemma EmitKeeps(cfg: Config, c: Connection, cid: nat, kind: byte, sender: Id, payload: seq<byte>, now: nat)
    requires c.udp.Some?
    ensures var d := Emit(cfg, c, cid, kind, sender, payload, now).0;
      d.udp.Some? && d.udp.value == c.udp.value.(outgoing := d.udp.value.outgoing)
  {
    hide Encode, Rates.Accept;
  }

  /** A taken echo that answers the challenge in time is confirmed to its source; any other echo is not answered at all. */
  lemma EchoIsConfirmed(cfg: Config, s: State, bytes: seq<byte>, a: Address, other: seq<byte>)
    requires Taken(cfg, s, bytes) && Fields(bytes).kind == ECHO && Fields(bytes).cid in s.conns
    requires s.conns[Fields(bytes).cid].udp.Some? && s.conns[Fields(bytes).cid].outgoing.at <= s.now
    ensures var cid := Fields(bytes).cid;
      var (t, out) := Datagram(cfg, s, bytes, a, other);
      var u := s.conns[cid].udp.value;
      && cid in t.conns && t.conns[cid].udp.Some?
      && if u.challenge.Some? && u.challenge.value.address == a && u.challenge.value.nonce == Fields(bytes).payload
            && s.now <= u.challenge.value.at + cfg.challengeTtl
         then
           var answer := Next(cfg, s.conns[cid], cid, BOUND, 0, u.challenge.value.nonce, s.now);
           && out == (if answer.Some? then [(a, answer.value)] else [])
           && t.conns[cid].udp.value.endpoint == Some(Binding(a, s.now)) && t.conns[cid].udp.value.challenge.None?
         else
           && out == [] && t.conns[cid].udp.value.endpoint == u.endpoint && t.conns[cid].udp.value.challenge == u.challenge
  {
    hide Genuine, Encode, AntiReplay.Admit, Emit, Rates.Accept;
    Meters.GenuineLive(cfg, s, bytes);
    var pk := Fields(bytes);
    var m := Metered(cfg, s.conns[pk.cid], pk.sequence, s.now).0;
    MeteredKeeps(cfg, s.conns[pk.cid], pk.sequence, s.now);
    var u := m.udp.value;
    if Answers(cfg, u, a, pk.payload, s.now) {
      var bound := m.(udp := Some(u.(challenge := None, endpoint := Some(Binding(a, s.now)))));
      EmitsNext(cfg, bound, pk.cid, BOUND, 0, u.challenge.value.nonce, s.now);
      EmitKeeps(cfg, bound, pk.cid, BOUND, 0, u.challenge.value.nonce, s.now);
    }
  }

  /** A data packet is addressed to member `q`, which is on an open socket with a fresh endpoint for its present stay. */
  predicate Awaits(cfg: Config, s: State, p: Id, target: Id, q: Id) {
    && q != p && (target == 0 || target == q) && q in s.players && s.players[q].connection.Some?
    && (var cid := s.players[q].connection.value;
        && cid in s.conns && !s.conns[cid].closing && s.conns[cid].udp.Some?
        && s.conns[cid].udp.value.version == s.players[q].version && s.conns[cid].udp.value.endpoint.Some?
        && s.now <= s.conns[cid].udp.value.endpoint.value.at + cfg.endpointTtl)
  }

  lemma CopyIsNext(cfg: Config, s: State, p: Id, target: Id, payload: seq<byte>, q: Id)
    requires Awaits(cfg, s, p, target, q) && s.conns[s.players[q].connection.value].outgoing.at <= s.now
    ensures var cid := s.players[q].connection.value;
      var packet := Next(cfg, s.conns[cid], cid, DELIVERED, p, payload, s.now);
      Copy(cfg, s.players, s.conns, q, p, target, payload, s.now)
      == (if packet.Some? then [(s.conns[cid].udp.value.endpoint.value.address, packet.value)] else [])
  {
    hide Encode, Emit;
    var cid := s.players[q].connection.value;
    EmitsNext(cfg, s.conns[cid], cid, DELIVERED, p, payload, s.now);
  }

  lemma {:induction false} AmongCopies(cfg: Config, players: map<Id, Player>, conns: map<nat, Connection>, ids: seq<Id>,
          p: Id, target: Id, payload: seq<byte>, now: nat, q: Id, sent: (Address, seq<byte>))
    requires q in ids && Copy(cfg, players, conns, q, p, target, payload, now) == [sent]
    ensures sent in Copies(cfg, players, conns, ids, p, target, payload, now)
  {
    hide Copy;
    var n := |ids| - 1;
    if ids[n] != q {
      assert q in ids[..n] by { var k :| 0 <= k < |ids| && ids[k] == q; assert ids[..n][k] == q; }
      AmongCopies(cfg, players, conns, ids[..n], p, target, payload, now, q, sent);
    }
  }

  /**
   * A taken data packet from the fresh endpoint of its sender reaches every other member of the sender's room that it
   * addresses and that has an open socket, a session for its present stay and a fresh endpoint: if that member's connection
   * may send, the payload goes to its endpoint under its key with its next number. From elsewhere nothing is sent.
   */
  lemma DataReachesMembers(cfg: Config, s: State, bytes: seq<byte>, source: Address, nonce: seq<byte>, p: Id, id: Id, q: Id)
    requires Inv(s) && Taken(cfg, s, bytes) && Fields(bytes).kind == DATA && Engaged(s, Fields(bytes).cid, p, id)
    requires forall x :: x in s.conns ==> s.conns[x].outgoing.at <= s.now
    ensures var pk := Fields(bytes);
      var out := Datagram(cfg, s, bytes, source, nonce).1;
      var from := s.conns[pk.cid].udp.value.endpoint;
      if from.Some? && from.value.address == source && s.now <= from.value.at + cfg.endpointTtl then
        q in s.rooms[id].active && Awaits(cfg, s, p, pk.target, q) ==>
          var cid := s.players[q].connection.value;
          MaySend(cfg, s.conns[cid], s.now) ==>
            (s.conns[cid].udp.value.endpoint.value.address,
             Encode(cfg, s.conns[cid].udp.value.secret, DELIVERED, cid, s.conns[cid].udp.value.outgoing + 1, p, pk.payload)) in out
      else out == []
  {
    hide Inv, Genuine, Datagram, Encode, Copy, Copies;
    TakenFramed(cfg, s, bytes);
    var pk := Fields(bytes);
    DataIsCopied(cfg, s, bytes, source, nonce);
    if Carried(cfg, s, bytes, source) && q in s.rooms[id].active && Awaits(cfg, s, p, pk.target, q) {
      CopyIsNext(cfg, s, p, pk.target, pk.payload, q);
      var cid := s.players[q].connection.value;
      if MaySend(cfg, s.conns[cid], s.now) {
        AmongCopies(cfg, s.players, s.conns, s.rooms[id].active, p, pk.target, pk.payload, s.now, q,
                    (s.conns[cid].udp.value.endpoint.value.address,
                     Encode(cfg, s.conns[cid].udp.value.secret, DELIVERED, cid, s.conns[cid].udp.value.outgoing + 1, p, pk.payload)));
      }
    }
  }

  lemma TakenFramed(cfg: Config, s: State, bytes: seq<byte>)
    requires Taken(cfg, s, bytes)
    ensures Framed(cfg, bytes) && Live(s, Fields(bytes).cid)
  {
  }

  /** In every run no rate window of a connection lies ahead of the command that comes next. */
  lemma WindowsAreTimely(cfg: Config, r: Relay.Run, j: nat)
    requires Relay.IsRun(cfg, r) && j < |r.steps|
    ensures forall x :: x in r.states[j].conns ==>
      r.states[j].conns[x].outgoing.at <= r.steps[j].at && r.states[j].conns[x].incoming.at <= r.steps[j].at
  {
    hide Relay.Next, Relay.Lawful;
    QueueRuns.LawfulClock(cfg, r, j);
    forall x | x in r.states[j].conns
      ensures r.states[j].conns[x].outgoing.at <= r.steps[j].at && r.states[j].conns[x].incoming.at <= r.steps[j].at
    {
      Limits.RunTimely(cfg, r, j, x);
    }
  }
}

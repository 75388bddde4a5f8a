/** The room-scoped datagram channel: packet layout, endpoint handshake and routing. */
module Udp {
  import opened Model
  import AntiReplay
  import Bytes
  import Rates

  const HEADER: nat := 37
  const TAG: nat := 32
  const MAGIC: seq<byte> := [78, 76, 85, 49]
  const PROBE: byte := 0
  const ECHO: byte := 1
  const DATA: byte := 2
  const CHALLENGE: byte := 3
  const BOUND: byte := 4
  const DELIVERED: byte := 5
  const BROADCAST: Id := 0

  datatype Packet = Packet(kind: byte, cid: nat, sequence: AntiReplay.Word, target: Id, payload: seq<byte>)

  // ---- layout

  function Plain(kind: byte, cid: nat, sequence: nat, address: Id, payload: seq<byte>): seq<byte> {
    MAGIC + [kind] + Bytes.BigEndian(cid, 8) + Bytes.BigEndian(sequence, 8) + Bytes.BigEndian(address, 16) + payload
  }

  function Encode(cfg: Config, secret: seq<byte>, kind: byte, cid: nat, sequence: nat, address: Id,
          payload: seq<byte>): seq<byte> {
    var plain := Plain(kind, cid, sequence, address, payload);
    plain + cfg.mac(secret, plain)
  }

  predicate Framed(cfg: Config, bytes: seq<byte>) {
    HEADER + TAG <= |bytes| <= cfg.udpMax && bytes[..4] == MAGIC
  }

  function Fields(bytes: seq<byte>): Packet
    requires HEADER + TAG <= |bytes|
  {
    Bytes.BigEndianOfValue(bytes[13..21]);
    Bytes.EightBytes();
    Packet(bytes[4], Bytes.Value(bytes[5..13]), Bytes.Value(bytes[13..21]), Bytes.Value(bytes[21..37]),
           bytes[HEADER..|bytes| - TAG])
  }

  /** The kinds a client may send, with their payload and target rules. */
  predicate Sensible(p: Packet) {
    && p.kind <= DATA
    && (p.kind != DATA ==> |p.payload| == 16 && p.target == BROADCAST)
    && (p.kind == DATA ==> p.payload != [])
  }

  predicate WellFormed(cfg: Config, bytes: seq<byte>) {
    Framed(cfg, bytes) && Sensible(Fields(bytes))
  }

  predicate Signed(cfg: Config, secret: seq<byte>, bytes: seq<byte>)
    requires |bytes| >= TAG
  {
    bytes[|bytes| - TAG..] == cfg.mac(secret, bytes[..|bytes| - TAG])
  }

  // ---- sessions

  /** Connection `cid` is an open socket of an active room member with a UDP session for its present stay. */
  predicate Live(s: State, cid: nat) {
    && cid in s.conns
    && !s.conns[cid].closing
    && s.conns[cid].player.Some?
    && s.conns[cid].player.value in s.players
    && (var pl := s.players[s.conns[cid].player.value];
        && pl.connection == Some(cid)
        && pl.room.Some?
        && pl.room.value in s.rooms
        && s.conns[cid].player.value in s.rooms[pl.room.value].active
        && s.conns[cid].udp.Some?
        && s.conns[cid].udp.value.version == pl.version)
  }

  /** The packet is well formed, signed under the session's secret and not a replay. */
  predicate Genuine(cfg: Config, s: State, bytes: seq<byte>) {
    && WellFormed(cfg, bytes)
    && Live(s, Fields(bytes).cid)
    && (var u := s.conns[Fields(bytes).cid].udp.value;
        && Signed(cfg, u.secret, bytes)
        && AntiReplay.Admit(u.replay, Fields(bytes).sequence).1)
  }

  /** The connection after its replay window and its input quota saw the packet, and the quota's verdict. */
  function Metered(cfg: Config, c: Connection, sequence: AntiReplay.Word, now: nat): (Connection, bool)
    requires c.udp.Some?
  {
    var (rate, ok) := Rates.Accept(c.incoming, now, cfg.udpIncoming);
    (c.(udp := Some(c.udp.value.(replay := AntiReplay.Admit(c.udp.value.replay, sequence).0)), incoming := rate), ok)
  }

  /** One outgoing packet, if the quota and the sequence counter allow it. */
  function Emit(cfg: Config, c: Connection, cid: nat, kind: byte, sender: Id, payload: seq<byte>, now: nat)
    : (Connection, Option<seq<byte>>)
    requires c.udp.Some?
  {
    var (rate, ok) := Rates.Accept(c.outgoing, now, cfg.udpOutgoing);
    var u := c.udp.value;
    if !ok || u.outgoing + 1 >= AntiReplay.WORD then (c.(outgoing := rate), None)
    else
      (c.(outgoing := rate, udp := Some(u.(outgoing := u.outgoing + 1))),
       Some(Encode(cfg, u.secret, kind, cid, u.outgoing + 1, sender, payload)))
  }

  type Output = seq<(Address, seq<byte>)>

  function To(address: Address, packet: Option<seq<byte>>): Output {
    if packet.Some? then [(address, packet.value)] else []
  }

  predicate Recent(b: Binding, ttl: nat, now: nat) {
    Minus(now, b.at) <= ttl
  }

  /** Kind 0: remember a challenge for the source and send it there. */
  function Probe(cfg: Config, c: Connection, cid: nat, source: Address, nonce: seq<byte>,
          now: nat): (Connection, Output)
    requires c.udp.Some?
  {
    var asked := c.(udp := Some(c.udp.value.(challenge := Some(Challenge(source, nonce, now)))));
    var (sent, packet) := Emit(cfg, asked, cid, CHALLENGE, 0, nonce, now);
    (sent, To(source, packet))
  }

  predicate Answers(cfg: Config, u: Session, source: Address, payload: seq<byte>, now: nat) {
    && u.challenge.Some?
    && u.challenge.value.address == source
    && Minus(now, u.challenge.value.at) <= cfg.challengeTtl
    && payload == u.challenge.value.nonce
  }

  /** Kind 1: a right answer from the challenged source binds it. */
  function Echo(cfg: Config, c: Connection, cid: nat, source: Address, payload: seq<byte>,
          now: nat): (Connection, Output)
    requires c.udp.Some?
  {
    var u := c.udp.value;
    if !Answers(cfg, u, source, payload, now) then (c, [])
    else
      var bound := c.(udp := Some(u.(challenge := None, endpoint := Some(Binding(source, now)))));
      var (sent, packet) := Emit(cfg, bound, cid, BOUND, 0, u.challenge.value.nonce, now);
      (sent, To(source, packet))
  }

  /** May data flow to the endpoint of connection `cid` on behalf of a member with `version`? */
  predicate Reachable(cfg: Config, conns: map<nat, Connection>, cid: nat, version: nat, now: nat) {
    && cid in conns
    && !conns[cid].closing
    && conns[cid].udp.Some?
    && conns[cid].udp.value.version == version
    && conns[cid].udp.value.endpoint.Some?
    && Recent(conns[cid].udp.value.endpoint.value, cfg.endpointTtl, now)
  }

  /** Is member `q` addressed by a packet of `p` to `target`, and through which socket? */
  predicate Addressee(players: map<Id, Player>, p: Id, target: Id, q: Id) {
    q != p && (target == BROADCAST || q == target) && q in players && players[q].connection.Some?
  }

  /** Delivery to the members `ids` in order: the connections afterwards and the packets sent. */
  function Spread(cfg: Config, players: map<Id, Player>, conns: map<nat, Connection>, ids: seq<Id>,
                  p: Id, target: Id, payload: seq<byte>, now: nat): (map<nat, Connection>, Output)
  {
    if ids == [] then (conns, [])
    else
      var (before, sent) := Spread(cfg, players, conns, ids[..|ids| - 1], p, target, payload, now);
      var q := ids[|ids| - 1];
      if !Addressee(players, p, target, q) then (before, sent)
      else
        var cid := players[q].connection.value;
        if !Reachable(cfg, before, cid, players[q].version, now) then (before, sent)
        else
          var (c, packet) := Emit(cfg, before[cid], cid, DELIVERED, p, payload, now);
          (before[cid := c], sent + To(before[cid].udp.value.endpoint.value.address, packet))
  }

  /** Does a data packet come from the bound endpoint? */
  predicate FromEndpoint(cfg: Config, u: Session, source: Address, now: nat) {
    u.endpoint.Some? && u.endpoint.value.address == source && Recent(u.endpoint.value, cfg.endpointTtl, now)
  }

  /** Kind 2: data for the other members of the sender's room. */
  function Data(cfg: Config, s: State, cid: nat, source: Address, target: Id, payload: seq<byte>): (State, Output)
    requires Live(s, cid)
  {
    var u := s.conns[cid].udp.value;
    if !FromEndpoint(cfg, u, source, s.now) then (s, [])
    else
      var p := s.conns[cid].player.value;
      var bound := s.conns[cid := s.conns[cid].(udp := Some(u.(endpoint := Some(Binding(source, s.now)))))];
      var (conns, out) := Spread(cfg, s.players, bound, s.rooms[s.players[p].room.value].active, p, target, payload, s.now);
      (s.(conns := conns), out)
  }

  /** `datagram_at`; `nonce` is the challenge drawn if the packet is a probe. */
  function Datagram(cfg: Config, s: State, bytes: seq<byte>, source: Address, nonce: seq<byte>): (State, Output) {
    if !Genuine(cfg, s, bytes) then (s, [])
    else
      var pk := Fields(bytes);
      var (c, ok) := Metered(cfg, s.conns[pk.cid], pk.sequence, s.now);
      var out := s.(conns := s.conns[pk.cid := c]);
      if !ok then (out, [])
      else if pk.kind == DATA then Data(cfg, out, pk.cid, source, pk.target, pk.payload)
      else
        var (d, sent) := if pk.kind == PROBE then Probe(cfg, c, pk.cid, source, nonce, s.now)
                         else Echo(cfg, c, pk.cid, source, pk.payload, s.now);
        (out.(conns := out.conns[pk.cid := d]), sent)
  }
}

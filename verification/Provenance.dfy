/** Where every data packet that the relay sends comes from and who may receive it. */
module Provenance {
  import opened Model
  import opened Rules
  import opened Invariants
  import opened Relay
  import opened Presence
  import opened Udp
  import opened Channel
  import opened Handling
  import IndexSet
  import AntiReplay
  import Safety
  import QueueRuns

  /** The room in which the sender of a live connection is. */
  function RoomOf(s: State, cid: nat): Room
    requires Live(s, cid)
  {
    s.rooms[s.players[s.conns[cid].player.value].room.value]
  }

  lemma CopyFrame(cfg: Config, players: map<Id, Player>, a: map<nat, Connection>, b: map<nat, Connection>, cid: nat,
                  q: Id, p: Id, target: Id, payload: seq<byte>, now: nat)
    requires q in players && players[q].connection == Some(cid) ==> q == p
    requires forall x :: x != cid ==> (x in a <==> x in b) && (x in a ==> a[x] == b[x])
    ensures Copy(cfg, players, a, q, p, target, payload, now) == Copy(cfg, players, b, q, p, target, payload, now)
  {
  }

  /** The sender's own connection is nobody else's, so what happened to it does not change the copies. */
  lemma {:induction false} CopiesFrame(cfg: Config, players: map<Id, Player>, a: map<nat, Connection>,
          b: map<nat, Connection>,
                                       cid: nat, ids: seq<Id>, p: Id, target: Id, payload: seq<byte>, now: nat)
    requires forall q :: q in players && players[q].connection == Some(cid) ==> q == p
    requires forall x :: x != cid ==> (x in a <==> x in b) && (x in a ==> a[x] == b[x])
    ensures Copies(cfg, players, a, ids, p, target, payload, now) == Copies(cfg, players, b, ids, p, target, payload, now)
  {
    if ids != [] {
      CopiesFrame(cfg, players, a, b, cid, ids[..|ids| - 1], p, target, payload, now);
      CopyFrame(cfg, players, a, b, cid, ids[|ids| - 1], p, target, payload, now);
    }
  }

  lemma BindPaired(players: map<Id, Player>, conns: map<nat, Connection>, cid: nat, c: Connection)
    requires Paired(players, conns) && cid in conns && c.player == conns[cid].player
    ensures Paired(players, conns[cid := c])
  {
  }

  lemma SpreadIsCopies(cfg: Config, s: State, cid: nat, c: Connection, target: Id, payload: seq<byte>)
    requires Core(s) && Paired(s.players, s.conns) && Live(s, cid) && c.player == s.conns[cid].player
    ensures var p := s.conns[cid].player.value;
      Spread(cfg, s.players, s.conns[cid := c], RoomOf(s, cid).active, p, target, payload, s.now).1
      == Copies(cfg, s.players, s.conns, RoomOf(s, cid).active, p, target, payload, s.now)
  {
    var p, ids := s.conns[cid].player.value, RoomOf(s, cid).active;
    BindPaired(s.players, s.conns, cid, c);
    assert RoomOk(RoomOf(s, cid));
    OneCopyEach(cfg, s.players, s.conns[cid := c], ids, p, target, payload, s.now);
    CopiesFrame(cfg, s.players, s.conns[cid := c], s.conns, cid, ids, p, target, payload, s.now);
  }

  /** The data packet came in time from the endpoint its sender had proven. */
  predicate Carried(cfg: Config, s: State, bytes: seq<byte>, source: Address) {
    Taken(cfg, s, bytes) && Fields(bytes).kind == DATA && FromEndpoint(cfg, s.conns[Fields(bytes).cid].udp.value, source, s.now)
  }

  /**
   * A data packet goes out as exactly one copy for each addressed member of the sender's room that can be
   * reached, in the order of the room's member list, when it is genuine, within quota and comes from the
   * sender's endpoint; otherwise nothing goes out.
   */
  lemma DataIsCopied(cfg: Config, s: State, bytes: seq<byte>, source: Address, nonce: seq<byte>)
    requires Inv(s) && Framed(cfg, bytes) && Fields(bytes).kind == DATA
    ensures var out := Datagram(cfg, s, bytes, source, nonce).1;
      if Carried(cfg, s, bytes, source) then
        var pk := Fields(bytes);
        var p := s.conns[pk.cid].player.value;
        out == Copies(cfg, s.players, s.conns, RoomOf(s, pk.cid).active, p, pk.target, pk.payload, s.now)
      else out == []
  {
    hide Inv, Sensible, Signed, AntiReplay.Admit, Spread, Copies;
    if Genuine(cfg, s, bytes) {
      var pk := Fields(bytes);
      MeteredLive(cfg, s, bytes);
      var (m, ok) := Metered(cfg, s.conns[pk.cid], pk.sequence, s.now);
      if ok && FromEndpoint(cfg, m.udp.value, source, s.now) {
        var c := m.(udp := Some(m.udp.value.(endpoint := Some(Binding(source, s.now)))));
        assert Core(s) && Paired(s.players, s.conns) by { InvParts(s); }
        SpreadIsCopies(cfg, s, pk.cid, c, pk.target, pk.payload);
        assert s.conns[pk.cid := m][pk.cid := c] == s.conns[pk.cid := c];
      }
    }
  }

  lemma InvParts(s: State)
    requires Inv(s)
    ensures Core(s) && Paired(s.players, s.conns)
  {
  }

  lemma AtHolds(s: State, t: nat)
    requires Inv(s) && s.now <= t
    ensures Inv(At(s, t))
  {
  }

  /** What makes member `q` the receiver of the packet `sent` that carries `pk`: its room, its socket and its key. */
  predicate Receives(cfg: Config, s: State, pk: Packet, q: Id, cid: nat, sent: (Address, seq<byte>)) {
    && Live(s, pk.cid)
    && (var p := s.conns[pk.cid].player.value;
        && q != p && q in RoomOf(s, pk.cid).active && (pk.target == BROADCAST || pk.target == q)
        && q in s.players && s.players[q].connection == Some(cid) && s.players[q].room == s.players[p].room
        && Reachable(cfg, s.conns, cid, s.players[q].version, s.now)
        && sent.0 == s.conns[cid].udp.value.endpoint.value.address
        && sent.1 == Encode(cfg, s.conns[cid].udp.value.secret, DELIVERED, cid, s.conns[cid].udp.value.outgoing + 1, p, pk.payload))
  }

  lemma CopyReceived(cfg: Config, s: State, pk: Packet, q: Id, sent: (Address, seq<byte>)) returns (cid: nat)
    requires Inv(s) && Live(s, pk.cid) && q in RoomOf(s, pk.cid).active
    requires Copy(cfg, s.players, s.conns, q, s.conns[pk.cid].player.value, pk.target, pk.payload, s.now) == [sent]
    ensures Receives(cfg, s, pk, q, cid, sent)
  {
    hide Encode;
    cid := s.players[q].connection.value;
  }

  /** From state `o` to state `j`, socket `cid` serves `q` in the room and the stay of `pl`. */
  ghost predicate Stays(r: Run, o: nat, j: nat, cid: nat, q: Id, pl: Player) {
    forall i :: o <= i <= j < |r.states| ==>
      && Serves(r.states[i], cid) && r.states[i].conns[cid].player == Some(q)
      && Holder(r.states[i], cid).room == pl.room && Holder(r.states[i], cid).entered == pl.entered
  }

  /**
   * Endpoint provenance and room isolation. Every data packet that any run sends goes to another member of the
   * sender's room. Its key is the one of a session that command `opened` ran a request of that member's socket to
   * open, in a state `w` in which the member was already in its present stay in that room, and the member stayed
   * ever since. Its address proved itself under that very key by a probe and, within the challenge lifetime, the
   * matching echo, and was last heard from within the endpoint lifetime.
   */
  lemma DataProvenance(cfg: Config, r: Run, j: nat, k: nat)
    returns (q: Id, cid: nat, probe: nat, echo: nat, last: nat, opened0: nat, w: State)
    requires IsRun(cfg, r) && j < |r.steps| && r.steps[j].action.Arrived?
    requires Framed(cfg, r.steps[j].action.bytes) && Fields(r.steps[j].action.bytes).kind == DATA
    requires k < |Sent(cfg, r.states[j], r.steps[j])|
    ensures var t, pk := At(r.states[j], r.steps[j].at), Fields(r.steps[j].action.bytes);
      var sent := Sent(cfg, r.states[j], r.steps[j])[k];
      && Receives(cfg, t, pk, q, cid, sent)
      && probe < echo <= last < j && ProvenBy(cfg, r, probe, echo, last, cid, sent.0) && OneKey(r, probe, j, cid)
      && Minus(r.steps[j].at, r.steps[last].at) <= cfg.endpointTtl
      && opened0 < j
      && RunsRequest(cfg, r.states[opened0], r.steps[opened0], cid, OpenUdp(t.conns[cid].udp.value.secret), w)
      && OneKey(r, opened0 + 1, j, cid)
      && Serves(w, cid) && w.conns[cid].player == Some(q)
      && Holder(w, cid).room == t.players[q].room && Holder(w, cid).entered == t.players[q].entered
      && Stays(r, opened0 + 1, j, cid, q, t.players[q])
  {
    hide Next, Lawful, Inv, Onward, Copies, ProvenBy, OneKey, Encode, RunsRequest, Stays;
    var c, t := r.steps[j].action, At(r.states[j], r.steps[j].at);
    var pk, sent := Fields(c.bytes), Sent(cfg, r.states[j], r.steps[j])[k];
    Safety.RunHolds(cfg, r, j);
    QueueRuns.LawfulClock(cfg, r, j);
    AtHolds(r.states[j], r.steps[j].at);
    DataIsCopied(cfg, t, c.bytes, c.source, c.nonce);
    CarriedLive(cfg, t, c.bytes, c.source);
    var m := CopyOf(cfg, t.players, t.conns, RoomOf(t, pk.cid).active, t.conns[pk.cid].player.value, pk.target, pk.payload, t.now, k);
    q := RoomOf(t, pk.cid).active[m];
    cid := CopyReceived(cfg, t, pk, q, sent);
    probe, echo, last := EndpointOrigin(cfg, r, j, cid);
    assert Minus(r.steps[j].at, r.steps[last].at) <= cfg.endpointTtl;
    opened0, w := SessionOrigin(cfg, r, j, cid);
    SocketServes(r.states[j], q, cid);
    StaysSince(cfg, r, opened0, w, j, cid, q);
  }

  /** Whoever has at the end the version that it had in `w` never moved in between. */
  lemma StaysSince(cfg: Config, r: Run, o: nat, w: State, j: nat, cid: nat, q: Id)
    requires IsRun(cfg, r) && o < j < |r.states| && Onward(w, r.states[o + 1])
    requires Serves(w, cid) && Serves(r.states[j], cid) && r.states[j].conns[cid].player == Some(q)
    requires Holder(w, cid).version == Holder(r.states[j], cid).version
    ensures w.conns[cid].player == Some(q)
    ensures Holder(w, cid).room == r.states[j].players[q].room && Holder(w, cid).entered == r.states[j].players[q].entered
    ensures Stays(r, o + 1, j, cid, q, r.states[j].players[q])
  {
    hide Next, Lawful, Onward;
    forall i | o + 1 <= i <= j
      ensures w.conns[cid].player == Some(q)
      ensures Holder(w, cid).room == r.states[j].players[q].room && Holder(w, cid).entered == r.states[j].players[q].entered
      ensures Serves(r.states[i], cid) && r.states[i].conns[cid].player == Some(q)
      ensures Holder(r.states[i], cid).room == r.states[j].players[q].room
      ensures Holder(r.states[i], cid).entered == r.states[j].players[q].entered
    {
      RunOnward(cfg, r, o + 1, i);
      RunOnward(cfg, r, i, j);
      OnwardOn(w, r.states[o + 1], r.states[i]);
      SameStay(w, r.states[i], r.states[j], cid, q);
    }
  }

  lemma CarriedLive(cfg: Config, s: State, bytes: seq<byte>, source: Address)
    requires Carried(cfg, s, bytes, source)
    ensures Live(s, Fields(bytes).cid)
  {
  }

  lemma SocketServes(s: State, q: Id, cid: nat)
    requires Inv(s) && q in s.players && s.players[q].connection == Some(cid)
    ensures Serves(s, cid) && s.conns[cid].player == Some(q)
  {
  }

  lemma SameStay(w: State, s: State, t: State, cid: nat, q: Id)
    requires Onward(w, s) && Onward(s, t) && Serves(w, cid) && Serves(t, cid) && t.conns[cid].player == Some(q)
    requires Holder(w, cid).version == Holder(t, cid).version
    ensures Serves(s, cid) && w.conns[cid].player == Some(q) && s.conns[cid].player == Some(q)
    ensures Holder(w, cid).room == t.players[q].room && Holder(w, cid).entered == t.players[q].entered
    ensures Holder(s, cid).room == t.players[q].room && Holder(s, cid).entered == t.players[q].entered
  {
    QueueRuns.ForthOnward(w, s, t, cid);
  }
}

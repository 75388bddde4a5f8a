/** Whole runs of the UDP channel: where endpoints come from, who receives, and what bad packets leave behind. */
module Channel {
  import opened Model
  import opened Rules
  import opened Invariants
  import opened Relay
  import opened Presence
  import opened Opening
  import opened Handling
  import opened Udp
  import IndexSet
  import Rates
  import AntiReplay
  import Safety
  import QueueRuns

  // ---- delivery

  /** Only the counters of outgoing packets moved. */
  predicate OnlySent(a: Connection, b: Connection) {
    && b == a.(udp := b.udp, outgoing := b.outgoing)
    && (a.udp.None? ==> b.udp.None?)
    && (a.udp.Some? ==> b.udp.Some? && b.udp.value == a.udp.value.(outgoing := b.udp.value.outgoing))
  }

  ghost predicate AllOnlySent(conns: map<nat, Connection>, after: map<nat, Connection>) {
    after.Keys == conns.Keys && forall cid :: cid in conns ==> OnlySent(conns[cid], after[cid])
  }

  lemma {:induction false} SpreadOnlySends(cfg: Config, players: map<Id, Player>, conns: map<nat, Connection>,
          ids: seq<Id>,
                                           p: Id, target: Id, payload: seq<byte>, now: nat)
    ensures AllOnlySent(conns, Spread(cfg, players, conns, ids, p, target, payload, now).0)
  {
    if ids != [] { SpreadOnlySends(cfg, players, conns, ids[..|ids| - 1], p, target, payload, now); }
  }

  /** The copy for member `q`, from the connections as they were before the packet came. */
  function Copy(cfg: Config, players: map<Id, Player>, conns: map<nat, Connection>, q: Id, p: Id, target: Id,
          payload: seq<byte>, now: nat): Output {
    if !Addressee(players, p, target, q) || !Reachable(cfg, conns, players[q].connection.value, players[q].version, now) then []
    else
      var cid := players[q].connection.value;
      To(conns[cid].udp.value.endpoint.value.address, Emit(cfg, conns[cid], cid, DELIVERED, p, payload, now).1)
  }

  function Copies(cfg: Config, players: map<Id, Player>, conns: map<nat, Connection>, ids: seq<Id>, p: Id,
          target: Id, payload: seq<byte>, now: nat): Output {
    if ids == [] then []
    else
      Copies(cfg, players, conns, ids[..|ids| - 1], p, target, payload, now)
      + Copy(cfg, players, conns, ids[|ids| - 1], p, target, payload, now)
  }

  /** Sockets of members not yet served are untouched. */
  lemma {:induction false} SpreadSpares(cfg: Config, players: map<Id, Player>, conns: map<nat, Connection>,
          ids: seq<Id>,
                                        p: Id, target: Id, payload: seq<byte>, now: nat, cid: nat)
    requires cid in conns && forall q :: q in ids && q in players ==> players[q].connection != Some(cid)
    ensures var after := Spread(cfg, players, conns, ids, p, target, payload, now).0; cid in after && after[cid] == conns[cid]
  {
    if ids != [] {
      assert ids[|ids| - 1] in ids;
      SpreadSpares(cfg, players, conns, ids[..|ids| - 1], p, target, payload, now, cid);
    }
  }

  /** Each member gets at most one copy, and what it gets does not depend on who was served before. */
  lemma {:induction false} OneCopyEach(cfg: Config, players: map<Id, Player>, conns: map<nat, Connection>, ids: seq<Id>,
                                       p: Id, target: Id, payload: seq<byte>, now: nat)
    requires IndexSet.Distinct(ids) && Paired(players, conns)
    ensures Spread(cfg, players, conns, ids, p, target, payload, now).1 == Copies(cfg, players, conns, ids, p, target, payload, now)
  {
    if ids != [] {
      var front, q := ids[..|ids| - 1], ids[|ids| - 1];
      OneCopyEach(cfg, players, conns, front, p, target, payload, now);
      if Addressee(players, p, target, q) {
        var cid := players[q].connection.value;
        forall x | x in front && x in players ensures players[x].connection != Some(cid) {
          assert x != q;
        }
        SpreadSpares(cfg, players, conns, front, p, target, payload, now, cid);
      }
    }
  }

  /** Every packet sent is the copy of some member, different packets of different members. */
  lemma {:induction false} CopyOf(cfg: Config, players: map<Id, Player>, conns: map<nat, Connection>, ids: seq<Id>,
                                  p: Id, target: Id, payload: seq<byte>, now: nat, k: nat) returns (m: nat)
    requires k < |Copies(cfg, players, conns, ids, p, target, payload, now)|
    ensures m < |ids|
    ensures Copy(cfg, players, conns, ids[m], p, target, payload, now) == [Copies(cfg, players, conns, ids, p, target, payload, now)[k]]
    ensures |Copies(cfg, players, conns, ids[..m], p, target, payload, now)| == k
  {
    var n := |ids| - 1;
    var before := Copies(cfg, players, conns, ids[..n], p, target, payload, now);
    if k < |before| {
      m := CopyOf(cfg, players, conns, ids[..n], p, target, payload, now, k);
      assert ids[..n][..m] == ids[..m];
    } else {
      m := n;
    }
  }

  // ---- how a datagram moves sessions

  /** The packet passes every check and the sender's quota. */
  predicate Taken(cfg: Config, s: State, bytes: seq<byte>) {
    Genuine(cfg, s, bytes) && Metered(cfg, s.conns[Fields(bytes).cid], Fields(bytes).sequence, s.now).1
  }

  /** A probe, an echo and a data packet from `a` on connection `cid`, taken in state `s`. */
  predicate ProbeFrom(cfg: Config, s: State, c: Action, cid: nat, a: Address, nonce: seq<byte>) {
    && c.Arrived? && c.source == a && c.nonce == nonce && Taken(cfg, s, c.bytes)
    && Fields(c.bytes).cid == cid && Fields(c.bytes).kind == PROBE
  }

  predicate EchoFrom(cfg: Config, s: State, c: Action, cid: nat, a: Address, nonce: seq<byte>) {
    && c.Arrived? && c.source == a && Taken(cfg, s, c.bytes) && Fields(c.bytes).cid == cid
    && Fields(c.bytes).kind == ECHO
    && Fields(c.bytes).payload == nonce
    && Answers(cfg, s.conns[cid].udp.value, a, nonce, s.now)
  }

  predicate DataFrom(cfg: Config, s: State, c: Action, cid: nat, a: Address) {
    && c.Arrived? && c.source == a && Taken(cfg, s, c.bytes) && Fields(c.bytes).cid == cid
    && Fields(c.bytes).kind == DATA
    && FromEndpoint(cfg, s.conns[cid].udp.value, a, s.now)
  }

  /** The sessions of a connection before and after a datagram. */
  predicate SessionMoves(cfg: Config, s: State, c: Action, cid: nat, u: Session, v: Session) {
    && v.secret == u.secret && v.version == u.version
    && ( || (v.endpoint == u.endpoint && v.challenge == u.challenge)
         || (c.Arrived? && ProbeFrom(cfg, s, c, cid, c.source, c.nonce)
             && v.endpoint == u.endpoint && v.challenge == Some(Challenge(c.source, c.nonce, s.now)))
         || (c.Arrived? && u.challenge.Some? && EchoFrom(cfg, s, c, cid, c.source, u.challenge.value.nonce)
             && v.endpoint == Some(Binding(c.source, s.now)) && v.challenge == None)
         || (c.Arrived? && DataFrom(cfg, s, c, cid, c.source)
             && v.endpoint == Some(Binding(c.source, s.now)) && v.challenge == u.challenge))
  }

  ghost predicate SessionsMove(cfg: Config, s: State, c: Action, t: State) {
    && t.conns.Keys == s.conns.Keys
    && forall cid :: cid in s.conns ==>
         && (s.conns[cid].udp.None? <==> t.conns[cid].udp.None?)
         && (s.conns[cid].udp.Some? ==> SessionMoves(cfg, s, c, cid, s.conns[cid].udp.value, t.conns[cid].udp.value))
  }

  lemma DataMoves(cfg: Config, s: State, cid: nat, source: Address, target: Id, payload: seq<byte>)
    requires Live(s, cid)
    ensures var t := Data(cfg, s, cid, source, target, payload).0;
      var u := s.conns[cid].udp.value;
      if FromEndpoint(cfg, u, source, s.now) then
        AllOnlySent(s.conns[cid := s.conns[cid].(udp := Some(u.(endpoint := Some(Binding(source, s.now)))))], t.conns)
      else t == s
  {
    var u := s.conns[cid].udp.value;
    if FromEndpoint(cfg, u, source, s.now) {
      var p := s.conns[cid].player.value;
      var bound := s.conns[cid := s.conns[cid].(udp := Some(u.(endpoint := Some(Binding(source, s.now)))))];
      SpreadOnlySends(cfg, s.players, bound, s.rooms[s.players[p].room.value].active, p, target, payload, s.now);
    }
  }

  lemma MeteredLive(cfg: Config, s: State, bytes: seq<byte>)
    requires Genuine(cfg, s, bytes)
    ensures var pk := Fields(bytes);
      var c := Metered(cfg, s.conns[pk.cid], pk.sequence, s.now).0;
      Live(s.(conns := s.conns[pk.cid := c]), pk.cid) && c.udp.Some?
      && c.udp.value == s.conns[pk.cid].udp.value.(replay := c.udp.value.replay)
  {
    hide WellFormed, Signed;
  }

  lemma DatagramMoves(cfg: Config, s: State, c: Action)
    requires c.Arrived?
    ensures SessionsMove(cfg, s, c, Datagram(cfg, s, c.bytes, c.source, c.nonce).0)
  {
    hide Sensible, Signed, Rates.Accept, AntiReplay.Admit, Spread;
    var bytes := c.bytes;
    if Genuine(cfg, s, bytes) {
      var pk := Fields(bytes);
      MeteredLive(cfg, s, bytes);
      var (m, ok) := Metered(cfg, s.conns[pk.cid], pk.sequence, s.now);
      var out := s.(conns := s.conns[pk.cid := m]);
      if ok && pk.kind == DATA {
        DataMoves(cfg, out, pk.cid, c.source, pk.target, pk.payload);
      } else if ok {
        assert Sensible(pk) ==> pk.kind == PROBE || pk.kind == ECHO by { SensibleKinds(pk); }
      }
    }
  }

  lemma SensibleKinds(pk: Packet)
    ensures Sensible(pk) && pk.kind != DATA ==> pk.kind == PROBE || pk.kind == ECHO
  {
  }

  // ---- the past of a session

  /** Connection `cid` held one session key from state `i` to state `j`. */
  ghost predicate OneKey(r: Run, i: nat, j: nat, cid: nat) {
    && i <= j < |r.states|
    && cid in r.states[j].conns && r.states[j].conns[cid].udp.Some?
    && forall x :: i <= x <= j ==>
         cid in r.states[x].conns && r.states[x].conns[cid].udp.Some?
         && r.states[x].conns[cid].udp.value.secret == r.states[j].conns[cid].udp.value.secret
  }

  lemma OneKeyOn(r: Run, i: nat, j: nat, cid: nat)
    requires i <= j && j + 1 < |r.states| && OneKey(r, i, j, cid)
    requires cid in r.states[j + 1].conns && r.states[j + 1].conns[cid].udp.Some?
    requires r.states[j + 1].conns[cid].udp.value.secret == r.states[j].conns[cid].udp.value.secret
    ensures OneKey(r, i, j + 1, cid)
  {
  }

  /** What one command did to a session that it neither dropped nor opened. */
  lemma SessionStep(cfg: Config, r: Run, j: nat, cid: nat)
    requires IsRun(cfg, r) && j < |r.steps|
    requires cid in r.states[j + 1].conns && r.states[j + 1].conns[cid].udp.Some?
    requires r.states[j + 1].conns[cid].udp.value.endpoint.Some? || r.states[j + 1].conns[cid].udp.value.challenge.Some?
    ensures cid in r.states[j].conns && r.states[j].conns[cid].udp.Some?
    ensures SessionMoves(cfg, At(r.states[j], r.steps[j].at), r.steps[j].action, cid,
                         r.states[j].conns[cid].udp.value, r.states[j + 1].conns[cid].udp.value)
  {
    hide Next, Lawful, Onward, Datagram, RunsRequest;
    assert Lawful(cfg, r.states[j], r.steps[j]);
    RunOnward(cfg, r, j, j);
    QueueRuns.RunSorted(cfg, r, j);
    if r.steps[j].action.Arrived? {
      ArrivedNext(cfg, r.states[j], r.steps[j]);
      DatagramMoves(cfg, At(r.states[j], r.steps[j].at), r.steps[j].action);
    } else {
      var secret, w := StepSession(cfg, r.states[j], r.steps[j], cid);
    }
  }

  lemma ArrivedNext(cfg: Config, s: State, c: Step)
    requires c.action.Arrived?
    ensures Next(cfg, s, c) == Datagram(cfg, At(s, c.at), c.action.bytes, c.action.source, c.action.nonce).0
  {
  }

  lemma {:induction false} ChallengeOrigin(cfg: Config, r: Run, j: nat, cid: nat) returns (i: nat)
    requires IsRun(cfg, r) && j < |r.states|
    requires cid in r.states[j].conns && r.states[j].conns[cid].udp.Some?
    requires r.states[j].conns[cid].udp.value.challenge.Some?
    ensures var ch := r.states[j].conns[cid].udp.value.challenge.value;
      i < j && ProbeFrom(cfg, At(r.states[i], r.steps[i].at), r.steps[i].action, cid, ch.address, ch.nonce)
      && r.steps[i].at == ch.at && OneKey(r, i, j, cid)
  {
    hide Next, Lawful, ProbeFrom, EchoFrom, DataFrom;
    SessionStep(cfg, r, j - 1, cid);
    var before := r.states[j - 1].conns[cid].udp.value;
    if before.challenge == r.states[j].conns[cid].udp.value.challenge {
      i := ChallengeOrigin(cfg, r, j - 1, cid);
      OneKeyOn(r, i, j - 1, cid);
    } else {
      i := j - 1;
    }
  }

  /** A bound endpoint answered a challenge sent to it, and was last heard from when the binding says. */
  lemma {:induction false} EndpointOrigin(cfg: Config, r: Run, j: nat, cid: nat)
    returns (probe: nat, echo: nat, last: nat)
    requires IsRun(cfg, r) && j < |r.states|
    requires cid in r.states[j].conns && r.states[j].conns[cid].udp.Some?
    requires r.states[j].conns[cid].udp.value.endpoint.Some?
    ensures var b := r.states[j].conns[cid].udp.value.endpoint.value;
      && probe < echo <= last < j
      && ProvenBy(cfg, r, probe, echo, last, cid, b.address)
      && r.steps[last].at == b.at
      && OneKey(r, probe, j, cid)
  {
    hide Next, Lawful, ProbeFrom, EchoFrom, DataFrom, OneKey, Answers, Live;
    SessionStep(cfg, r, j - 1, cid);
    var before, after := r.states[j - 1].conns[cid].udp.value, r.states[j].conns[cid].udp.value;
    var c := r.steps[j - 1].action;
    var t := At(r.states[j - 1], r.steps[j - 1].at);
    if before.endpoint == after.endpoint {
      probe, echo, last := EndpointOrigin(cfg, r, j - 1, cid);
      OneKeyOn(r, probe, j - 1, cid);
    } else if c.Arrived? && before.challenge.Some? && EchoFrom(cfg, t, c, cid, c.source, before.challenge.value.nonce) {
      probe := ChallengeOrigin(cfg, r, j - 1, cid);
      echo, last := j - 1, j - 1;
      OneKeyOn(r, probe, j - 1, cid);
      EchoAnswers(cfg, t, c, cid, c.source, before.challenge.value.nonce);
      ProbeNonce(cfg, At(r.states[probe], r.steps[probe].at), r.steps[probe].action, cid, c.source, before.challenge.value.nonce);
    } else {
      DataRefreshes(cfg, t, c, cid, c.source);
      probe, echo, last := EndpointOrigin(cfg, r, j - 1, cid);
      last := j - 1;
      OneKeyOn(r, probe, j - 1, cid);
    }
  }

  /** Commands `probe` and `echo` are the two halves of a handshake with `a`; at `last` it was heard from. */
  ghost predicate ProvenBy(cfg: Config, r: Run, probe: nat, echo: nat, last: nat, cid: nat, a: Address) {
    && probe < echo <= last < |r.steps| && |r.states| == |r.steps| + 1
    && r.steps[probe].action.Arrived?
    && ProbeFrom(cfg, At(r.states[probe], r.steps[probe].at), r.steps[probe].action, cid, a, r.steps[probe].action.nonce)
    && EchoFrom(cfg, At(r.states[echo], r.steps[echo].at), r.steps[echo].action, cid, a, r.steps[probe].action.nonce)
    && Minus(r.steps[echo].at, r.steps[probe].at) <= cfg.challengeTtl
    && (last == echo || DataFrom(cfg, At(r.states[last], r.steps[last].at), r.steps[last].action, cid, a))
  }

  lemma EchoAnswers(cfg: Config, s: State, c: Action, cid: nat, a: Address, nonce: seq<byte>)
    requires EchoFrom(cfg, s, c, cid, a, nonce)
    ensures Answers(cfg, s.conns[cid].udp.value, a, nonce, s.now)
  {
  }

  lemma ProbeNonce(cfg: Config, s: State, c: Action, cid: nat, a: Address, nonce: seq<byte>)
    requires ProbeFrom(cfg, s, c, cid, a, nonce)
    ensures c.Arrived? && c.nonce == nonce
  {
  }

  lemma DataRefreshes(cfg: Config, s: State, c: Action, cid: nat, a: Address)
    ensures DataFrom(cfg, s, c, cid, a) ==> cid in s.conns && s.conns[cid].udp.Some? && s.conns[cid].udp.value.endpoint.Some?
                                            && s.conns[cid].udp.value.endpoint.value.address == a
  {
  }

  /**
   * Every session goes back to a request: command `o` ran a request of the socket to open a session under the very
   * key that the session has, in a state `w` in which the account on the socket was in a room and had the version
   * that the session carries; and the socket held that key ever since.
   */
  lemma {:induction false} SessionOrigin(cfg: Config, r: Run, j: nat, cid: nat) returns (o: nat, w: State)
    requires IsRun(cfg, r) && j < |r.states| && cid in r.states[j].conns && r.states[j].conns[cid].udp.Some?
    ensures var u := r.states[j].conns[cid].udp.value;
      && o < j && RunsRequest(cfg, r.states[o], r.steps[o], cid, OpenUdp(u.secret), w)
      && Serves(w, cid) && Holder(w, cid).room.Some? && Holder(w, cid).version == u.version
      && OneKey(r, o + 1, j, cid)
      && Onward(r.states[o], w) && Onward(w, r.states[o + 1])
  {
    hide Next, Lawful, Onward, SessionMoves, Serves, RunsRequest, OneKey;
    var s, c, t := r.states[j - 1], r.steps[j - 1], At(r.states[j - 1], r.steps[j - 1].at);
    var u := r.states[j].conns[cid].udp.value;
    assert Lawful(cfg, s, c);
    RunOnward(cfg, r, j - 1, j - 1);
    QueueRuns.RunSorted(cfg, r, j - 1);
    if c.action.Arrived? {
      ArrivedNext(cfg, s, c);
      DatagramMoves(cfg, t, c.action);
      assert SessionMoves(cfg, t, c.action, cid, s.conns[cid].udp.value, u);
      MovesKeepVersion(cfg, t, c.action, cid, s.conns[cid].udp.value, u);
      o, w := SessionOrigin(cfg, r, j - 1, cid);
      OneKeyOn(r, o + 1, j - 1, cid);
    } else {
      var secret;
      secret, w := StepSession(cfg, s, c, cid);
      if cid in s.conns && s.conns[cid].udp == Some(u) {
        o, w := SessionOrigin(cfg, r, j - 1, cid);
        OneKeyOn(r, o + 1, j - 1, cid);
      } else {
        o := j - 1;
        QueueRuns.LawfulClock(cfg, r, j - 1);
        StillOnward(s, t);
        OnwardOn(s, t, w);
        OneKeySelf(r, j, cid);
      }
    }
  }

  lemma OneKeySelf(r: Run, j: nat, cid: nat)
    requires j < |r.states| && cid in r.states[j].conns && r.states[j].conns[cid].udp.Some?
    ensures OneKey(r, j, j, cid)
  {
  }

  lemma MovesKeepVersion(cfg: Config, s: State, c: Action, cid: nat, u: Session, v: Session)
    requires SessionMoves(cfg, s, c, cid, u, v)
    ensures v.version == u.version && v.secret == u.secret
  {
  }
}

/** How sockets and memberships move through every command: never back. */
module Presence {
  import opened Model
  import opened Rules
  import opened Invariants
  import opened Reach
  import opened Relay
  import opened Preservation
  import Safety
  import Udp

  function Holder(s: State, cid: nat): Player
    requires cid in s.conns && Current(s, cid)
  {
    s.players[s.conns[cid].player.value]
  }

  predicate Serves(s: State, cid: nat) { cid in s.conns && Current(s, cid) }

  /** A player's membership version grows with every change of room. */
  predicate Grows(a: Player, b: Player) {
    a.version <= b.version && (a.version == b.version ==> b.room == a.room && b.entered == a.entered)
  }

  /**
   * A socket that is gone stays gone, one with an account keeps it, one that lost its account never serves
   * it again, and while it serves it the player's membership version only grows.
   */
  ghost predicate Onward(s: State, t: State) {
    && s.now <= t.now
    && s.conns.Keys <= s.sockets && t.conns.Keys <= t.sockets && s.sockets <= t.sockets
    && (forall cid :: cid in s.sockets && cid in t.conns ==> cid in s.conns)
    && (forall cid :: cid in s.conns && cid in t.conns && s.conns[cid].player.Some? ==> t.conns[cid].player == s.conns[cid].player)
    && (forall cid :: cid in s.conns && s.conns[cid].player.Some? && Serves(t, cid) ==>
          Serves(s, cid) && Grows(Holder(s, cid), Holder(t, cid)))
  }

  lemma OnwardOn(s: State, t: State, u: State)
    requires Onward(s, t) && Onward(t, u)
    ensures Onward(s, u)
  {
    forall cid | cid in s.conns && s.conns[cid].player.Some? && Serves(u, cid)
      ensures Serves(s, cid) && Grows(Holder(s, cid), Holder(u, cid))
    {
      assert cid in t.sockets && cid in t.conns;
    }
  }

  /** Each player is as before or has a larger version; nobody comes, goes or changes sockets. */
  ghost predicate Moves(players: map<Id, Player>, after: map<Id, Player>) {
    && after.Keys == players.Keys
    && forall p :: p in players ==> after[p].connection == players[p].connection && Grows(players[p], after[p])
  }

  lemma MovesOnward(s: State, t: State)
    requires s.conns.Keys <= s.sockets && t.sockets == s.sockets && s.now <= t.now
    requires Moves(s.players, t.players) && SameOwners(s.conns, t.conns)
    ensures Onward(s, t)
  {
  }

  lemma LeaveOnward(cfg: Config, s: State, p: Id, disconnected: bool, io: Io)
    requires p in s.players
    ensures Moves(s.players, Leave(cfg, s, p, disconnected, io).players)
  {
    LeaveMoves(cfg, s, p, disconnected, io);
  }

  lemma EnterOnward(cfg: Config, s: State, p: Id, id: Id, password: Option<Json>, io: Io)
    requires p in s.players
    ensures Moves(s.players, Enter(cfg, s, p, id, password, io).players)
  {
    hide Enter;
    EnteredPlayers(cfg, s, p, id, password, io);
  }

  /** Entering changes at most the player's own record, by putting it inside. */
  lemma EnteredPlayers(cfg: Config, s: State, p: Id, id: Id, password: Option<Json>, io: Io)
    requires p in s.players
    ensures var t := Enter(cfg, s, p, id, password, io);
      t.players == s.players || t.players == s.players[p := Inside(s.players[p], id, s.now)]
  {
    hide Joined, Refusal, Load;
  }

  lemma HandleOnward(cfg: Config, s: State, cid: nat, p: Id, q: Request, io: Io)
    requires p in s.players && cid in s.conns
    ensures Moves(s.players, Handle(cfg, s, cid, p, q, io).players)
  {
    hide InRoom, Leave, Enter;
    if q.CreateRoom? {
      var begun := s.(rooms := s.rooms[q.id := NewRoom(q.info, p, q.max, q.password, s.now)], issued := s.issued + {q.id});
      EnterOnward(cfg, begun, p, q.id, q.password, io);
    }
    else if q.EnterRoom? { EnterOnward(cfg, s, p, q.id, q.password, io); }
    else if q.LeaveRoom? { LeaveOnward(cfg, s, p, false, io); }
    else { InRoomStays(cfg, s, p, q, io); }
  }

  lemma InRoomStays(cfg: Config, s: State, p: Id, q: Request, io: Io)
    requires p in s.players
    ensures InRoom(cfg, s, p, q, io).players == s.players
  {
  }

  lemma DispatchOnward(cfg: Config, s: State, cid: nat, frame: Frame)
    requires s.conns.Keys <= s.sockets
    ensures Onward(s, Dispatch(cfg, s, cid, frame))
  {
    hide Handle;
    var t := Dispatch(cfg, s, cid, frame);
    DispatchIsContained(cfg, s, cid, frame);
    if cid in s.conns && s.conns[cid].player.Some? && s.conns[cid].player.value in s.players && frame.body.RequestBody? {
      HandleOnward(cfg, s, cid, s.conns[cid].player.value, frame.body.request, frame.io);
    }
    MovesOnward(s, t);
  }

  lemma ExpireOnward(cfg: Config, s: State)
    requires s.conns.Keys <= s.sockets
    ensures Onward(s, Expire(cfg, s))
  {
  }

  /** A socket that just proved its account. */
  lemma BindOnward(cfg: Config, s: State, cid: nat, id: Id, io: Io)
    requires s.conns.Keys <= s.sockets && cid in s.conns && s.conns[cid].player.None? && id in s.players
    ensures Onward(s, Bind(cfg, s, cid, id, io))
  {
    hide WithoutFrames, Grows;
    var t := Bind(cfg, s, cid, id, io);
    assert t.conns.Keys == s.conns.Keys && t.sockets == s.sockets && t.now == s.now;
    assert forall c :: c in s.conns && c != cid ==> t.conns[c].player == s.conns[c].player;
    forall c | c in s.conns && s.conns[c].player.Some? && Serves(t, c)
      ensures Serves(s, c) && Grows(Holder(s, c), Holder(t, c))
    {
      BoundElsewhere(s, t, cid, id, c);
    }
  }

  lemma BoundElsewhere(s: State, t: State, cid: nat, id: Id, c: nat)
    requires cid in s.conns && s.conns[cid].player.None? && c in s.conns && s.conns[c].player.Some? && Serves(t, c)
    requires t.conns.Keys == s.conns.Keys && forall x :: x in s.conns && x != cid ==> t.conns[x].player == s.conns[x].player
    requires id in s.players && t.players == s.players[id := s.players[id].(connection := Some(cid), offline := None)]
    ensures Serves(s, c) && Grows(Holder(s, c), Holder(t, c))
  {
    assert c != cid;
  }

  lemma NewPlayerOnward(s: State, id: Id, pl: Player)
    requires s.conns.Keys <= s.sockets && ((id in s.players && s.players[id] == pl) || pl.connection.None?)
    ensures Onward(s, s.(players := s.players[id := pl]))
  {
  }

  lemma TakeOverOnward(cfg: Config, s: State, cid: nat, key: Id, io: Io)
    requires s.conns.Keys <= s.sockets && cid in s.conns && s.conns[cid].player.None? && key in s.players
    ensures Onward(s, TakeOver(cfg, s, cid, key, io))
  {
    hide Bind, Leave;
    if InFixedGame(s, key) {
      var left := Leave(cfg, s, key, true, io);
      LeaveOnward(cfg, s, key, true, io);
      LeaveIsContained(cfg, s, key, true, io);
      MovesOnward(s, left);
      BindOnward(cfg, left, cid, key, io);
      OnwardOn(s, left, TakeOver(cfg, s, cid, key, io));
    } else {
      BindOnward(cfg, s, cid, key, io);
    }
  }

  lemma ClosingOnward(s: State, cid: nat)
    requires s.conns.Keys <= s.sockets
    ensures Onward(s, Closing(s, cid))
  {
    MovesOnward(s, Closing(s, cid));
  }

  lemma AuthenticateOnward(cfg: Config, s: State, cid: nat, c: Credentials, io: Io)
    requires s.conns.Keys <= s.sockets && cid in s.conns && s.conns[cid].player.None?
    requires c.Guest? ==> c.id !in s.players
    ensures Onward(s, Authenticate(cfg, s, cid, c, io))
  {
    hide Expire, Bind, TakeOver, Closing, Onward;
    var known := Expire(cfg, s);
    var t := Authenticate(cfg, s, cid, c, io);
    ExpireOnward(cfg, s);
    assert known.conns == s.conns && known.sockets == s.sockets && known.players.Keys <= s.players.Keys by { ExpireIs(cfg, s); }
    ClosingOnward(known, cid);
    match c
    case Login(key, exact, password) =>
      var account := Account(cfg, known, key, exact, io);
      MovesOnward(known, known);
      if account.Some? {
        var u := known.(players := known.players[key := account.value]);
        NewPlayerOnward(known, key, account.value);
        TakeOverOnward(cfg, u, cid, key, io);
        OnwardOn(known, u, TakeOver(cfg, u, cid, key, io));
      }
      OnwardOn(s, known, t);
    case Guest(id, secret) =>
      var pl := Player(secret, None, None, None, Some(s.now), 0);
      var u := known.(players := known.players[id := pl]);
      NewPlayerOnward(known, id, pl);
      BindOnward(cfg, u, cid, id, io);
      OnwardOn(known, u, Bind(cfg, u, cid, id, io));
      OnwardOn(s, known, t);
  }

  lemma ExpireIs(cfg: Config, s: State)
    ensures var t := Expire(cfg, s);
      t.conns == s.conns && t.sockets == s.sockets && t.delayed == s.delayed && t.now == s.now && t.players.Keys <= s.players.Keys
  {
  }

  lemma DisconnectOnward(cfg: Config, s: State, cid: nat, io: Io)
    requires s.conns.Keys <= s.sockets
    ensures Onward(s, Disconnect(cfg, s, cid, io))
  {
    hide Leave;
    if cid in s.conns {
      var who := s.conns[cid].player;
      var out := s.(delayed := WithoutFrames(s.delayed, cid), conns := s.conns - {cid});
      assert Onward(s, out);
      if who.Some? && who.value in s.players && s.players[who.value].connection == Some(cid) {
        var gone := out.(players := s.players[who.value := s.players[who.value].(connection := None, offline := Some(s.now))]);
        assert Onward(s, gone);
        LeaveOnward(cfg, gone, who.value, true, io);
        LeaveIsContained(cfg, gone, who.value, true, io);
        MovesOnward(gone, Leave(cfg, gone, who.value, true, io));
        OnwardOn(s, gone, Disconnect(cfg, s, cid, io));
      }
    }
  }

  lemma AcceptOnward(cfg: Config, s: State, cid: nat, frame: Frame)
    requires s.conns.Keys <= s.sockets && Serves(s, cid)
    ensures Onward(s, Accept(cfg, s, cid, frame))
  {
    hide Dispatch, Onward, Grows;
    var t := Accept(cfg, s, cid, frame);
    if cfg.delay == 0 || frame.body == RequestBody(Pong) {
      DispatchOnward(cfg, s, cid, frame);
    } else {
      assert SameOwners(s.conns, t.conns);
      StillOnward(s, t);
    }
  }

  /** Only quotas, sessions and flags of sockets changed. */
  lemma StillOnward(s: State, t: State)
    requires s.conns.Keys <= s.sockets && t.sockets == s.sockets && s.now <= t.now
    requires t.players == s.players && SameOwners(s.conns, t.conns)
    ensures Onward(s, t)
  {
    MovesOnward(s, t);
  }

  lemma ProcessOnward(cfg: Config, s: State, cid: nat, frame: Frame)
    requires s.conns.Keys <= s.sockets && cid in s.conns && (s.conns[cid].player.Some? ==> Current(s, cid))
    requires frame.body.AuthBody? && frame.body.credentials.Guest? ==> frame.body.credentials.id !in s.players
    ensures Onward(s, Process(cfg, s, cid, frame))
  {
    hide Accept, Authenticate, Closing, Onward;
    StillOnward(s, s);
    ClosingOnward(s, cid);
    if s.conns[cid].player.None? {
      if frame.body.AuthBody? { AuthenticateOnward(cfg, s, cid, frame.body.credentials, frame.io); }
    } else {
      AcceptOnward(cfg, s, cid, frame);
    }
  }

  lemma ReceiveOnward(cfg: Config, s: State, cid: nat, frame: Frame)
    requires s.conns.Keys <= s.sockets && Admissible(s, frame)
    ensures Onward(s, Receive(cfg, s, cid, frame))
  {
    hide Process, Closing, Onward;
    StillOnward(s, s);
    if cid in s.conns && (s.conns[cid].player.Some? ==> Current(s, cid)) {
      var out := s.(conns := s.conns[cid := Counted(s.conns[cid], s.now)]);
      StillOnward(s, out);
      ClosingOnward(out, cid);
      ProcessOnward(cfg, out, cid, frame);
      OnwardOn(s, out, Closing(out, cid));
      OnwardOn(s, out, Process(cfg, out, cid, frame));
    }
  }

  function Discharged(s: State, d: Delayed): State
    requires d.cid in s.conns
  {
    var c := s.conns[d.cid];
    s.(conns := s.conns[d.cid := c.(delayed := Minus(c.delayed, d.frame.size), pending := Minus(c.pending, 1))])
  }

  lemma ReleaseOnward(cfg: Config, s: State, d: Delayed)
    requires s.conns.Keys <= s.sockets
    ensures Onward(s, Release(cfg, s, d))
  {
    hide Dispatch, Onward;
    StillOnward(s, s);
    if d.cid in s.conns {
      var out := Discharged(s, d);
      StillOnward(s, out);
      DispatchOnward(cfg, out, d.cid, d.frame);
      OnwardOn(s, out, Dispatch(cfg, out, d.cid, d.frame));
    }
  }

  lemma OnwardOpen(s: State, t: State)
    requires Onward(s, t)
    ensures t.conns.Keys <= t.sockets
  {
  }

  lemma {:induction false} DrainOnward(cfg: Config, s: State, queue: seq<Delayed>)
    requires s.conns.Keys <= s.sockets
    ensures Onward(s, Drain(cfg, s, queue))
    decreases |queue|
  {
    hide Release, Onward;
    StillOnward(s, s);
    if queue != [] {
      var u := if queue[0].at > s.now then s.(delayed := s.delayed + [queue[0]]) else Release(cfg, s, queue[0]);
      if queue[0].at > s.now { StillOnward(s, u); } else { ReleaseOnward(cfg, s, queue[0]); }
      OnwardOpen(s, u);
      DrainOnward(cfg, u, queue[1..]);
      OnwardOn(s, u, Drain(cfg, s, queue));
    }
  }

  lemma {:induction false} KeepAllStays(cfg: Config, s: State, order: seq<(Id, Io)>)
    ensures var t := KeepAll(cfg, s, order);
      t.players == s.players && t.conns == s.conns && t.delayed == s.delayed && t.sockets == s.sockets && t.now == s.now
    decreases |order|
  {
    if order != [] {
      var (id, io) := order[0];
      var out := if id in s.rooms && s.rooms[id].persistent && s.rooms[id].active == []
                 then Keep(cfg, s.(rooms := s.rooms - {id}), id, s.rooms[id], io) else s;
      KeepAllStays(cfg, out, order[1..]);
    }
  }

  lemma SweepOnward(cfg: Config, s: State, order: seq<(Id, Io)>)
    requires s.conns.Keys <= s.sockets
    ensures Onward(s, Sweep(cfg, s, order))
  {
    hide Drain, KeepAll, Expire, Onward;
    var start := s.(delayed := []);
    var drained := Drain(cfg, start, s.delayed);
    var tidy := drained.(rooms := Tidied(drained.rooms, s.now));
    var kept := KeepAll(cfg, tidy, order);
    StillOnward(s, start);
    DrainOnward(cfg, start, s.delayed);
    OnwardOpen(start, drained);
    KeepAllStays(cfg, tidy, order);
    StillOnward(drained, kept);
    OnwardOpen(drained, kept);
    ExpireOnward(cfg, kept);
    OnwardOn(s, start, drained);
    OnwardOn(s, drained, kept);
    OnwardOn(s, kept, Expire(cfg, kept));
  }

  lemma StepOnward(cfg: Config, s: State, c: Step)
    requires s.conns.Keys <= s.sockets && Lawful(cfg, s, c)
    ensures Onward(s, Next(cfg, s, c)) && c.at <= Next(cfg, s, c).now
  {
    hide Disconnect, Receive, Sweep, Closing, Onward;
    var t := At(s, c.at);
    StillOnward(s, t);
    match c.action {
    case Connected(cid) => ConnectOnward(t, cid);
    case Disconnected(cid, io) => DisconnectOnward(cfg, t, cid, io);
    case Received(cid, frame) => ReceiveOnward(cfg, t, cid, frame);
    case Arrived(bytes, source, nonce) =>
      Safety.DatagramChangesSessions(cfg, t, bytes, source, nonce);
      StillOnward(t, Udp.Datagram(cfg, t, bytes, source, nonce).0);
    case Closed(cid) => ClosingOnward(t, cid);
    case Swept(order) => SweepOnward(cfg, t, order);
    }
    OnwardClock(t, Next(cfg, s, c));
    OnwardOn(s, t, Next(cfg, s, c));
  }

  lemma OnwardClock(s: State, t: State)
    requires Onward(s, t)
    ensures s.now <= t.now
  {
  }

  lemma ConnectOnward(s: State, cid: nat)
    requires s.conns.Keys <= s.sockets && cid !in s.sockets
    ensures Onward(s, Connect(s, cid))
  {
  }

  /** In every run, sockets and memberships never move back from one state to a later one. */
  lemma {:induction false} RunOnward(cfg: Config, r: Run, i: nat, j: nat)
    requires IsRun(cfg, r) && i <= j < |r.states|
    ensures r.states[i].conns.Keys <= r.states[i].sockets
    ensures Onward(r.states[i], r.states[j])
    decreases j
  {
    hide Next, Onward, Lawful;
    if i < j {
      RunOnward(cfg, r, i, j - 1);
      OnwardOpen(r.states[i], r.states[j - 1]);
      StepOnward(cfg, r.states[j - 1], r.steps[j - 1]);
      OnwardOn(r.states[i], r.states[j - 1], r.states[j]);
    } else if i > 0 {
      RunOnward(cfg, r, i - 1, i - 1);
      StepOnward(cfg, r.states[i - 1], r.steps[i - 1]);
      OnwardOpen(r.states[i - 1], r.states[i]);
      StillOnward(r.states[i], r.states[i]);
    } else {
      StillOnward(r.states[0], r.states[0]);
    }
  }

  /** While a socket serves its account at both ends with one membership version, it did so throughout, in one stay. */
  lemma OneStay(cfg: Config, r: Run, i: nat, j: nat, k: nat, cid: nat)
    requires IsRun(cfg, r) && i <= j <= k < |r.states|
    requires Serves(r.states[i], cid) && Serves(r.states[k], cid)
    requires Holder(r.states[i], cid).version == Holder(r.states[k], cid).version
    ensures Serves(r.states[j], cid) && r.states[j].conns[cid].player == r.states[i].conns[cid].player
    ensures Holder(r.states[j], cid).version == Holder(r.states[i], cid).version
    ensures Holder(r.states[j], cid).room == Holder(r.states[i], cid).room
    ensures Holder(r.states[j], cid).entered == Holder(r.states[i], cid).entered
  {
    RunOnward(cfg, r, i, j);
    RunOnward(cfg, r, j, k);
  }
}

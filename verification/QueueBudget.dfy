/** The per-connection counters of the delayed queue against the queue itself. */
module QueueBudget {
  import opened Model
  import opened Rules
  import opened Invariants
  import opened Reach
  import opened Relay
  import opened Presence
  import opened Queue
  import opened QueueRuns
  import Preservation
  import Safety
  import Udp

  /** The payload bytes that socket `cid` has in the queue. */
  function Bytes(queue: seq<Delayed>, cid: nat): nat {
    if queue == [] then 0
    else Bytes(queue[..|queue| - 1], cid) + (if queue[|queue| - 1].cid == cid then queue[|queue| - 1].frame.size else 0)
  }

  /** The frames that socket `cid` has in the queue. */
  function Frames(queue: seq<Delayed>, cid: nat): nat {
    if queue == [] then 0
    else Frames(queue[..|queue| - 1], cid) + (if queue[|queue| - 1].cid == cid then 1 else 0)
  }

  lemma {:induction false} SumsConcat(a: seq<Delayed>, b: seq<Delayed>, cid: nat)
    ensures Bytes(a + b, cid) == Bytes(a, cid) + Bytes(b, cid)
    ensures Frames(a + b, cid) == Frames(a, cid) + Frames(b, cid)
  {
    if b == [] {
      assert a + b == a;
    } else {
      SumsConcat(a, b[..|b| - 1], cid);
      assert (a + b)[..|a + b| - 1] == a + b[..|b| - 1];
    }
  }

  lemma SumsOne(d: Delayed, cid: nat)
    ensures Bytes([d], cid) == (if d.cid == cid then d.frame.size else 0)
    ensures Frames([d], cid) == (if d.cid == cid then 1 else 0)
  {
    assert [d][..0] == [];
  }

  lemma {:induction false} SumsFiltered(queue: seq<Delayed>, gone: nat, cid: nat)
    ensures Bytes(WithoutFrames(queue, gone), cid) == (if cid == gone then 0 else Bytes(queue, cid))
    ensures Frames(WithoutFrames(queue, gone), cid) == (if cid == gone then 0 else Frames(queue, cid))
  {
    if queue != [] {
      var front, d := queue[..|queue| - 1], queue[|queue| - 1];
      SumsFiltered(front, gone, cid);
      var rest := WithoutFrames(front, gone);
      SumsConcat(rest, [d], cid);
      SumsOne(d, cid);
    }
  }

  lemma {:induction false} NothingQueued(queue: seq<Delayed>, cid: nat)
    requires forall d :: d in queue ==> d.cid != cid
    ensures Bytes(queue, cid) == 0 && Frames(queue, cid) == 0
  {
    if queue != [] {
      assert queue[|queue| - 1] in queue;
      NothingQueued(queue[..|queue| - 1], cid);
    }
  }

  /**
   * The counters of a socket cover what it has queued, exactly so unless the socket was replaced, and stay
   * within the limits.
   */
  ghost predicate Covers(cfg: Config, s: State, queue: seq<Delayed>, cid: nat)
    requires cid in s.conns
  {
    var c := s.conns[cid];
    && Bytes(queue, cid) <= c.delayed <= cfg.maxBuffered
    && Frames(queue, cid) <= c.pending <= cfg.maxMessages
    && (Unreplaced(s, cid) ==> c.delayed == Bytes(queue, cid) && c.pending == Frames(queue, cid))
  }

  ghost predicate Budgeted(cfg: Config, s: State, queue: seq<Delayed>) {
    && (forall cid :: cid in s.conns ==> Covers(cfg, s, queue, cid))
    && (forall d :: d in queue ==> d.cid in s.conns && s.conns[d.cid].player.Some?)
  }

  /** Surviving sockets kept their counters. */
  ghost predicate SameCounters(s: State, t: State) {
    forall cid :: cid in t.conns ==>
      cid in s.conns && t.conns[cid].delayed == s.conns[cid].delayed && t.conns[cid].pending == s.conns[cid].pending
  }

  lemma UnreplacedBefore(s: State, t: State, cid: nat)
    requires Onward(s, t) && cid in s.conns && Unreplaced(t, cid)
    ensures Unreplaced(s, cid)
  {
  }

  lemma StillBudgeted(cfg: Config, s: State, t: State, queue: seq<Delayed>)
    requires Budgeted(cfg, s, queue) && Onward(s, t) && SameCounters(s, t)
    requires forall d :: d in queue ==> d.cid in t.conns
    ensures Budgeted(cfg, t, queue)
  {
    forall cid | cid in t.conns ensures Covers(cfg, t, queue, cid) {
      assert Covers(cfg, s, queue, cid);
      if Unreplaced(t, cid) { UnreplacedBefore(s, t, cid); }
    }
    OnwardOwners(s, t);
  }

  lemma OnwardOwners(s: State, t: State)
    requires Onward(s, t)
    ensures forall cid :: cid in s.conns && cid in t.conns && s.conns[cid].player.Some? ==> t.conns[cid].player.Some?
  {
  }

  lemma FilteredBudgeted(cfg: Config, s: State, t: State, queue: seq<Delayed>, gone: nat)
    requires Budgeted(cfg, s, queue) && Onward(s, t) && SameCounters(s, t) && !Unreplaced(t, gone)
    requires forall d :: d in queue && d.cid != gone ==> d.cid in t.conns
    ensures Budgeted(cfg, t, WithoutFrames(queue, gone))
  {
    forall cid | cid in t.conns ensures Covers(cfg, t, WithoutFrames(queue, gone), cid) {
      assert Covers(cfg, s, queue, cid);
      SumsFiltered(queue, gone, cid);
      if Unreplaced(t, cid) { UnreplacedBefore(s, t, cid); }
    }
    OnwardOwners(s, t);
  }

  lemma JoinIs(cfg: Config, s: State, cid: nat, frame: Frame)
    requires cid in s.conns && Joins(cfg, s, cid, frame)
    ensures var c := Counted(s.conns[cid], s.now);
      Receive(cfg, s, cid, frame)
        == s.(conns := s.conns[cid := c.(delayed := c.delayed + frame.size, pending := c.pending + 1)],
              delayed := s.delayed + [Waiting(cfg, s, cid, frame)])
  {
    hide Dispatch, Introduce;
    var c := Counted(s.conns[cid], s.now);
    assert s.conns[cid := c][cid := c.(delayed := c.delayed + frame.size, pending := c.pending + 1)]
        == s.conns[cid := c.(delayed := c.delayed + frame.size, pending := c.pending + 1)];
  }

  lemma JoinBudgeted(cfg: Config, s: State, cid: nat, frame: Frame)
    requires Budgeted(cfg, s, s.delayed) && cid in s.conns && Joins(cfg, s, cid, frame)
    ensures var t := Receive(cfg, s, cid, frame); Budgeted(cfg, t, t.delayed)
  {
    hide Receive, Sorted;
    JoinIs(cfg, s, cid, frame);
    var t := Receive(cfg, s, cid, frame);
    var d := Waiting(cfg, s, cid, frame);
    forall x | x in t.conns ensures Covers(cfg, t, t.delayed, x) {
      assert Covers(cfg, s, s.delayed, x);
      SumsConcat(s.delayed, [d], x);
      SumsOne(d, x);
    }
  }

  /** The same sockets with the same counters. */
  ghost predicate CountersKept(s: State, t: State) {
    t.conns.Keys == s.conns.Keys && SameCounters(s, t)
  }

  lemma ClosingCounters(s: State, cid: nat)
    ensures CountersKept(s, Closing(s, cid))
  {
  }

  lemma AcceptCounters(cfg: Config, s: State, cid: nat, frame: Frame)
    requires cid in s.conns && Current(s, cid)
    requires cfg.delay > 0 && frame.body != RequestBody(Pong) ==>
      s.conns[cid].delayed + frame.size > cfg.maxBuffered || s.conns[cid].pending >= cfg.maxMessages
    ensures CountersKept(s, Accept(cfg, s, cid, frame))
  {
    hide Dispatch;
    DispatchIsContained(cfg, s, cid, frame);
  }

  lemma ProcessCounters(cfg: Config, s: State, cid: nat, frame: Frame)
    requires cid in s.conns && (s.conns[cid].player.Some? ==> Current(s, cid))
    requires s.conns[cid].player.Some? && cfg.delay > 0 && frame.body != RequestBody(Pong)
             && frame.size <= cfg.maxPayload
             && (frame.body.RequestBody? || (frame.body.BinaryBody? && cfg.Fits(frame.size))) ==>
      s.conns[cid].delayed + frame.size > cfg.maxBuffered || s.conns[cid].pending >= cfg.maxMessages
    ensures CountersKept(s, Process(cfg, s, cid, frame))
  {
    hide Accept, Authenticate, Closing;
    ClosingCounters(s, cid);
    if s.conns[cid].player.None? {
      if frame.body.AuthBody? { AuthenticateCounters(cfg, s, cid, frame.body.credentials, frame.io); }
    } else if frame.size <= cfg.maxPayload && (frame.body.RequestBody? || (frame.body.BinaryBody? && cfg.Fits(frame.size))) {
      AcceptCounters(cfg, s, cid, frame);
    }
  }

  lemma ReceiveCounters(cfg: Config, s: State, cid: nat, frame: Frame)
    requires cid in s.conns ==> !Joins(cfg, s, cid, frame)
    ensures CountersKept(s, Receive(cfg, s, cid, frame))
  {
    hide Process, Closing;
    if cid in s.conns && !s.conns[cid].closing && (s.conns[cid].player.Some? ==> Current(s, cid)) {
      var out := s.(conns := s.conns[cid := Counted(s.conns[cid], s.now)]);
      ClosingCounters(out, cid);
      if out.conns[cid].messages <= cfg.maxMessages { ProcessCounters(cfg, out, cid, frame); }
    }
  }

  lemma BindCounters(cfg: Config, s: State, cid: nat, id: Id, io: Io)
    requires cid in s.conns && id in s.players
    ensures CountersKept(s, Bind(cfg, s, cid, id, io))
  {
    hide WithoutFrames, Closing;
    var before := s.players[id].connection;
    if before.Some? { ClosingCounters(s, before.value); ClosingPlayers(s, before.value); }
  }

  lemma ClosingPlayers(s: State, cid: nat)
    ensures Closing(s, cid).players == s.players
  {
  }

  lemma TakeOverCounters(cfg: Config, s: State, cid: nat, key: Id, io: Io)
    requires cid in s.conns && key in s.players
    ensures CountersKept(s, TakeOver(cfg, s, cid, key, io))
  {
    hide Leave, Bind;
    if InFixedGame(s, key) {
      LeaveIsContained(cfg, s, key, true, io);
      BindCounters(cfg, Leave(cfg, s, key, true, io), cid, key, io);
    } else {
      BindCounters(cfg, s, cid, key, io);
    }
  }

  lemma AuthenticateCounters(cfg: Config, s: State, cid: nat, c: Credentials, io: Io)
    requires cid in s.conns
    ensures CountersKept(s, Authenticate(cfg, s, cid, c, io))
  {
    hide TakeOver, Bind, Expire, Closing;
    var known := Expire(cfg, s);
    ExpireIs(cfg, s);
    ClosingCounters(known, cid);
    match c
    case Login(key, exact, password) =>
      var account := Account(cfg, known, key, exact, io);
      if account.Some? { TakeOverCounters(cfg, known.(players := known.players[key := account.value]), cid, key, io); }
    case Guest(id, secret) =>
      BindCounters(cfg, known.(players := known.players[id := Player(secret, None, None, None, Some(s.now), 0)]), cid, id, io);
  }

  lemma ReceiveBudgeted(cfg: Config, s: State, cid: nat, frame: Frame)
    requires Budgeted(cfg, s, s.delayed) && Inv(s) && Admissible(s, frame) && s.conns.Keys <= s.sockets
    ensures var t := Receive(cfg, s, cid, frame); Budgeted(cfg, t, t.delayed)
  {
    hide Receive, Budgeted, Joins, Inv, Onward;
    var t := Receive(cfg, s, cid, frame);
    if cid in s.conns && Joins(cfg, s, cid, frame) {
      JoinBudgeted(cfg, s, cid, frame);
    } else if cid in s.conns {
      InvPaired(s);
      ReceiveQueue(cfg, s, cid, frame);
      ReceiveCounters(cfg, s, cid, frame);
      ReceiveOnward(cfg, s, cid, frame);
      BudgetedSockets(cfg, s, s.delayed);
      if t.delayed == s.delayed {
        StillBudgeted(cfg, s, t, s.delayed);
      } else {
        var gone :| t.delayed == WithoutFrames(s.delayed, gone) && !Unreplaced(t, gone);
        FilteredBudgeted(cfg, s, t, s.delayed, gone);
      }
    } else {
      ReceiveUnknown(cfg, s, cid, frame);
    }
  }

  lemma BudgetedSockets(cfg: Config, s: State, queue: seq<Delayed>)
    requires Budgeted(cfg, s, queue)
    ensures forall d :: d in queue ==> d.cid in s.conns
  {
  }

  // ---- the sweep

  /** The subtractions of a release never stop at zero, and they keep the counters exact. */
  lemma ReleaseBudgeted(cfg: Config, s: State, d: Delayed, rest: seq<Delayed>)
    requires Budgeted(cfg, s, [d] + rest) && s.conns.Keys <= s.sockets
    ensures d.cid in s.conns && d.frame.size <= s.conns[d.cid].delayed && 1 <= s.conns[d.cid].pending
    ensures Budgeted(cfg, Release(cfg, s, d), rest)
  {
    hide Dispatch, Onward;
    assert d in [d] + rest;
    assert Covers(cfg, s, [d] + rest, d.cid);
    SumsConcat([d], rest, d.cid);
    SumsOne(d, d.cid);
    var out := Discharged(s, d);
    DischargedBudgeted(cfg, s, d, rest);
    ReleaseKeepsQueue(cfg, s, d);
    DispatchOnward(cfg, out, d.cid, d.frame);
    DispatchIsContained(cfg, out, d.cid, d.frame);
    BudgetedSockets(cfg, out, rest);
    StillBudgeted(cfg, out, Dispatch(cfg, out, d.cid, d.frame), rest);
  }

  lemma DischargedBudgeted(cfg: Config, s: State, d: Delayed, rest: seq<Delayed>)
    requires Budgeted(cfg, s, [d] + rest) && d.cid in s.conns
    requires d.frame.size <= s.conns[d.cid].delayed && 1 <= s.conns[d.cid].pending
    ensures Budgeted(cfg, Discharged(s, d), rest)
  {
    var out := Discharged(s, d);
    forall x | x in out.conns ensures Covers(cfg, out, rest, x) {
      assert Covers(cfg, s, [d] + rest, x);
      SumsConcat([d], rest, x);
      SumsOne(d, x);
    }
    assert forall e :: e in rest ==> e in [d] + rest;
  }

  lemma {:induction false} ReleasedBudgeted(cfg: Config, s: State, queue: seq<Delayed>, n: nat)
    requires n <= |queue| && Budgeted(cfg, s, queue) && s.conns.Keys <= s.sockets
    ensures Budgeted(cfg, Released(cfg, s, queue, n), queue[n..])
  {
    hide Release, Budgeted, Onward;
    if n == 0 {
      assert queue[0..] == queue;
    } else {
      ReleasedBudgeted(cfg, s, queue, n - 1);
      ReleasedOnward(cfg, s, queue, n - 1);
      var mid := Released(cfg, s, queue, n - 1);
      OnwardOpen(s, mid);
      assert queue[n - 1..] == [queue[n - 1]] + queue[n..];
      ReleaseBudgeted(cfg, mid, queue[n - 1], queue[n..]);
    }
  }

  lemma SweepBudgeted(cfg: Config, s: State, order: seq<(Id, Io)>)
    requires Budgeted(cfg, s, s.delayed) && s.conns.Keys <= s.sockets && Sorted(s.delayed)
    ensures var t := Sweep(cfg, s, order); Budgeted(cfg, t, t.delayed)
  {
    hide Drain, KeepAll, Expire, Budgeted, Onward, Released;
    var start := s.(delayed := []);
    var n := Due(s.delayed, s.now);
    DrainSplits(cfg, start, s.delayed);
    assert [] + s.delayed[n..] == s.delayed[n..];
    BudgetedAlike(cfg, s, start, s.delayed);
    ReleasedBudgeted(cfg, start, s.delayed, n);
    ReleasedOnward(cfg, start, s.delayed, n);
    var mid := Released(cfg, start, s.delayed, n);
    var drained := Drain(cfg, start, s.delayed);
    BudgetedAlike(cfg, mid, drained, s.delayed[n..]);
    var tidy := drained.(rooms := Tidied(drained.rooms, s.now));
    var kept := KeepAll(cfg, tidy, order);
    KeepAllStays(cfg, tidy, order);
    BudgetedAlike(cfg, drained, kept, s.delayed[n..]);
    OnwardOpen(start, mid);
    ExpireIs(cfg, kept);
    ExpireOnward(cfg, kept);
    BudgetedSockets(cfg, kept, s.delayed[n..]);
    StillBudgeted(cfg, kept, Expire(cfg, kept), s.delayed[n..]);
  }

  lemma BudgetedAlike(cfg: Config, s: State, t: State, queue: seq<Delayed>)
    requires Budgeted(cfg, s, queue) && t.conns == s.conns && t.players == s.players
    ensures Budgeted(cfg, t, queue)
  {
    forall cid | cid in t.conns ensures Covers(cfg, t, queue, cid) { assert Covers(cfg, s, queue, cid); }
  }

  // ---- every command

  lemma DisconnectBudgeted(cfg: Config, s: State, cid: nat, io: Io)
    requires Budgeted(cfg, s, s.delayed) && s.conns.Keys <= s.sockets
    ensures var t := Disconnect(cfg, s, cid, io); Budgeted(cfg, t, t.delayed)
  {
    hide Budgeted, Onward, Disconnect, Leave;
    var t := Disconnect(cfg, s, cid, io);
    DisconnectQueue(cfg, s, cid, io);
    DisconnectCounters(cfg, s, cid, io);
    DisconnectOnward(cfg, s, cid, io);
    BudgetedSockets(cfg, s, s.delayed);
    if cid in s.conns { FilteredBudgeted(cfg, s, t, s.delayed, cid); } else { StillBudgeted(cfg, s, t, s.delayed); }
  }

  lemma DisconnectCounters(cfg: Config, s: State, cid: nat, io: Io)
    ensures var t := Disconnect(cfg, s, cid, io); SameCounters(s, t) && t.conns.Keys == s.conns.Keys - {cid}
  {
    hide Leave;
    if cid in s.conns && s.conns[cid].player.Some? && s.conns[cid].player.value in s.players {
      var p := s.conns[cid].player.value;
      var out := s.(delayed := WithoutFrames(s.delayed, cid), conns := s.conns - {cid});
      LeaveIsContained(cfg, out.(players := s.players[p := s.players[p].(connection := None, offline := Some(s.now))]), p, true, io);
    }
  }

  lemma ConnectBudgeted(cfg: Config, s: State, cid: nat)
    requires Budgeted(cfg, s, s.delayed) && cid !in s.conns
    ensures Budgeted(cfg, Connect(s, cid), s.delayed)
  {
    var t := Connect(s, cid);
    NothingQueued(s.delayed, cid);
    forall x | x in t.conns ensures Covers(cfg, t, s.delayed, x) {
      if x != cid { assert Covers(cfg, s, s.delayed, x); }
    }
  }

  lemma {:induction false} SpreadCounters(cfg: Config, players: map<Id, Player>, conns: map<nat, Connection>,
          ids: seq<Id>,
                                          p: Id, target: Id, payload: seq<byte>, now: nat)
    ensures var after := Udp.Spread(cfg, players, conns, ids, p, target, payload, now).0;
      after.Keys == conns.Keys
      && forall cid :: cid in conns ==> after[cid] == conns[cid].(udp := after[cid].udp, outgoing := after[cid].outgoing)
  {
    if ids != [] { SpreadCounters(cfg, players, conns, ids[..|ids| - 1], p, target, payload, now); }
  }

  lemma DataCounters(cfg: Config, s: State, cid: nat, source: Address, target: Id, payload: seq<byte>)
    requires Udp.Live(s, cid)
    ensures CountersKept(s, Udp.Data(cfg, s, cid, source, target, payload).0)
  {
    var u := s.conns[cid].udp.value;
    if Udp.FromEndpoint(cfg, u, source, s.now) {
      var p := s.conns[cid].player.value;
      var bound := s.conns[cid := s.conns[cid].(udp := Some(u.(endpoint := Some(Binding(source, s.now)))))];
      SpreadCounters(cfg, s.players, bound, s.rooms[s.players[p].room.value].active, p, target, payload, s.now);
    }
  }

  lemma DatagramCounters(cfg: Config, s: State, bytes: seq<byte>, source: Address, nonce: seq<byte>)
    ensures CountersKept(s, Udp.Datagram(cfg, s, bytes, source, nonce).0)
  {
    hide Udp.Data, Udp.Signed;
    if Udp.Genuine(cfg, s, bytes) {
      var pk := Udp.Fields(bytes);
      var (c, ok) := Udp.Metered(cfg, s.conns[pk.cid], pk.sequence, s.now);
      if ok && pk.kind == Udp.DATA {
        DataCounters(cfg, s.(conns := s.conns[pk.cid := c]), pk.cid, source, pk.target, pk.payload);
      }
    }
  }

  lemma ClosingBudgeted(cfg: Config, s: State, cid: nat)
    requires Budgeted(cfg, s, s.delayed) && s.conns.Keys <= s.sockets
    ensures Budgeted(cfg, Closing(s, cid), s.delayed) && Closing(s, cid).delayed == s.delayed
  {
    hide Budgeted, Onward;
    BudgetedSockets(cfg, s, s.delayed);
    ClosingOnward(s, cid);
    StillBudgeted(cfg, s, Closing(s, cid), s.delayed);
  }

  lemma StepBudgeted(cfg: Config, s: State, c: Step)
    requires Inv(s) && Budgeted(cfg, s, s.delayed) && s.conns.Keys <= s.sockets && Sorted(s.delayed)
    requires Lawful(cfg, s, c)
    ensures Budgeted(cfg, Next(cfg, s, c), Next(cfg, s, c).delayed)
  {
    hide Rules.Sweep, Rules.Receive, Rules.Disconnect, Udp.Datagram, Budgeted, Inv, Onward, Rules.Connect;
    hide DrainAdmissible, Sorted, Rules.Closing;
    var t := At(s, c.at);
    assert Inv(t) by { InvAt(s, c.at); }
    BudgetedAlike(cfg, s, t, s.delayed);
    BudgetedSockets(cfg, t, t.delayed);
    match c.action {
      case Connected(cid) => ConnectBudgeted(cfg, t, cid);
        assert Rules.Connect(t, cid).delayed == t.delayed by { ConnectQueue(t, cid); }
      case Disconnected(cid, io) => DisconnectBudgeted(cfg, t, cid, io);
      case Received(cid, frame) => ReceiveBudgeted(cfg, t, cid, frame);
      case Arrived(bytes, source, nonce) =>
        var u := Udp.Datagram(cfg, t, bytes, source, nonce).0;
        Safety.DatagramChangesSessions(cfg, t, bytes, source, nonce);
        DatagramCounters(cfg, t, bytes, source, nonce);
        StillOnward(t, u);
        StillBudgeted(cfg, t, u, t.delayed);
      case Closed(cid) => ClosingBudgeted(cfg, t, cid);
      case Swept(order) => SweepBudgeted(cfg, t, order);
    }
  }

  lemma InvAt(s: State, t: nat)
    requires Inv(s) && s.now <= t
    ensures Inv(At(s, t))
  {
  }

  lemma ConnectQueue(s: State, cid: nat)
    ensures Connect(s, cid).delayed == s.delayed
  {
  }

  /** In every state of every run the counters cover the queue, and exactly so for every socket not replaced. */
  lemma {:induction false} RunBudgeted(cfg: Config, r: Run, i: nat)
    requires IsRun(cfg, r) && i < |r.states|
    ensures Budgeted(cfg, r.states[i], r.states[i].delayed)
  {
    hide Next, Lawful, Inv, Onward;
    if i > 0 {
      RunBudgeted(cfg, r, i - 1);
      RunSorted(cfg, r, i - 1);
      RunOnward(cfg, r, i - 1, i - 1);
      Safety.RunHolds(cfg, r, i - 1);
      StepBudgeted(cfg, r.states[i - 1], r.steps[i - 1]);
    }
  }
}

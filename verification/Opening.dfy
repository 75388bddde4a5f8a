/** Where UDP sessions come from: every command but a datagram keeps a session, drops it or runs a request that opens one. */
module Opening {
  import opened Model
  import opened Rules
  import opened Invariants
  import opened Reach
  import opened Relay
  import opened Presence
  import opened Queue
  import opened Handling
  import QueueRuns

  /** In state `w` a request to open a session under `secret` gives socket `cid` the session `u`. */
  ghost predicate OpensIn(cfg: Config, w: State, cid: nat, secret: seq<byte>, u: Session) {
    && cfg.udpEnabled && Serves(w, cid) && Holder(w, cid).room.Some?
    && u == NewSession(secret, Holder(w, cid).version)
  }

  lemma DispatchSession(cfg: Config, w: State, who: nat, frame: Frame, cid: nat)
    requires Serves(w, who) && cid in w.conns
    ensures var t := Dispatch(cfg, w, who, frame);
      && cid in t.conns
      && ( || t.conns[cid].udp.None? || t.conns[cid].udp == w.conns[cid].udp
           || (who == cid && frame.body.RequestBody? && frame.body.request.OpenUdp?
               && OpensIn(cfg, w, cid, frame.body.request.secret, t.conns[cid].udp.value)))
  {
    hide Create, Enter, Leave, InRoom;
    var p := w.conns[who].player.value;
    if frame.body.RequestBody? {
      var q, io := frame.body.request, frame.io;
      RoomsKeepSessions(cfg, w, p, q, io);
      LeaveMoves(cfg, w, p, false, io);
    }
  }

  lemma RoomsKeepSessions(cfg: Config, s: State, p: Id, q: Request, io: Io)
    requires p in s.players
    ensures q.EnterRoom? ==> Enter(cfg, s, p, q.id, q.password, io).conns == s.conns
    ensures q.CreateRoom? ==> Create(cfg, s, p, q.id, q.info, q.max, q.password, q.fits, io).conns == s.conns
    ensures InRoom(cfg, s, p, q, io).conns == s.conns
  {
    hide Joined, Refusal, Load, JobsAfter, RoomRequest;
  }

  /** Sockets that are still there kept their sessions. */
  ghost predicate SameSessions(s: State, t: State) {
    forall cid :: cid in t.conns ==> cid in s.conns && t.conns[cid].udp == s.conns[cid].udp
  }

  lemma BindSessions(cfg: Config, s: State, cid: nat, id: Id, io: Io)
    requires cid in s.conns && id in s.players
    ensures SameSessions(s, Bind(cfg, s, cid, id, io))
  {
  }

  lemma AuthenticateSessions(cfg: Config, s: State, cid: nat, c: Credentials, io: Io)
    requires cid in s.conns
    ensures SameSessions(s, Authenticate(cfg, s, cid, c, io))
  {
    hide Bind, Expire, Leave;
    var known := Expire(cfg, s);
    ExpireIs(cfg, s);
    match c
    case Login(key, exact, password) =>
      var account := Account(cfg, known, key, exact, io);
      if account.Some? {
        var u := known.(players := known.players[key := account.value]);
        if InFixedGame(u, key) {
          LeaveMoves(cfg, u, key, true, io);
          BindSessions(cfg, Leave(cfg, u, key, true, io), cid, key, io);
        } else { BindSessions(cfg, u, cid, key, io); }
      }
    case Guest(id, secret) =>
      BindSessions(cfg, known.(players := known.players[id := Player(secret, None, None, None, Some(s.now), 0)]), cid, id, io);
  }

  lemma DisconnectSessions(cfg: Config, s: State, cid: nat, io: Io)
    ensures SameSessions(s, Disconnect(cfg, s, cid, io))
  {
    hide Leave;
    if cid in s.conns && s.conns[cid].player.Some? && s.conns[cid].player.value in s.players {
      var p := s.conns[cid].player.value;
      var out := s.(delayed := WithoutFrames(s.delayed, cid), conns := s.conns - {cid});
      LeaveMoves(cfg, out.(players := s.players[p := s.players[p].(connection := None, offline := Some(s.now))]), p, true, io);
    }
  }

  // ---- one release after the other

  /** The `m`-th entry of the queue opens the session `u` when it is released. */
  ghost predicate OpensAt(cfg: Config, s: State, queue: seq<Delayed>, m: nat, cid: nat, u: Session) {
    && m < |queue| && queue[m].cid == cid
    && QueueRuns.Runs(Released(cfg, s, queue, m), queue[m])
    && queue[m].frame.body.RequestBody? && queue[m].frame.body.request.OpenUdp?
    && OpensIn(cfg, Discharged(Released(cfg, s, queue, m), queue[m]), cid, queue[m].frame.body.request.secret, u)
  }

  lemma ReleaseSession(cfg: Config, s: State, d: Delayed, cid: nat)
    requires cid in s.conns
    ensures var t := Release(cfg, s, d);
      && cid in t.conns
      && ( || t.conns[cid].udp.None? || t.conns[cid].udp == s.conns[cid].udp
           || (d.cid == cid && QueueRuns.Runs(s, d) && d.frame.body.RequestBody? && d.frame.body.request.OpenUdp?
               && OpensIn(cfg, Discharged(s, d), cid, d.frame.body.request.secret, t.conns[cid].udp.value)))
  {
    hide Dispatch, Release;
    if d.cid in s.conns {
      QueueRuns.RunsIsDispatch(cfg, s, d);
      if QueueRuns.Runs(s, d) {
        RunsServes(s, d);
        DispatchSession(cfg, Discharged(s, d), d.cid, d.frame, cid);
      }
    } else {
      ReleaseNothing(cfg, s, d);
    }
  }

  lemma ReleaseNothing(cfg: Config, s: State, d: Delayed)
    requires d.cid !in s.conns
    ensures Release(cfg, s, d) == s
  {
  }

  lemma {:induction false} ReleasedSockets(cfg: Config, s: State, queue: seq<Delayed>, n: nat)
    requires n <= |queue|
    ensures Released(cfg, s, queue, n).conns.Keys == s.conns.Keys
  {
    hide Release;
    if n > 0 {
      ReleasedSockets(cfg, s, queue, n - 1);
      ReleaseKeepsQueue(cfg, Released(cfg, s, queue, n - 1), queue[n - 1]);
    }
  }

  /** The session of a socket after some releases is the one from before or was opened by the last opening among them. */
  lemma {:induction false} ReleasedSession(cfg: Config, s: State, queue: seq<Delayed>, n: nat, cid: nat)
    returns (m: nat)
    requires n <= |queue| && cid in Released(cfg, s, queue, n).conns && Released(cfg, s, queue, n).conns[cid].udp.Some?
    ensures cid in s.conns
    ensures var udp := Released(cfg, s, queue, n).conns[cid].udp;
      udp == s.conns[cid].udp || (m < n && OpensAt(cfg, s, queue, m, cid, udp.value))
  {
    hide Release, OpensIn, QueueRuns.Runs;
    m := 0;
    ReleasedSockets(cfg, s, queue, n);
    if n > 0 {
      var t := Released(cfg, s, queue, n - 1);
      ReleaseKeepsQueue(cfg, t, queue[n - 1]);
      ReleaseSession(cfg, t, queue[n - 1], cid);
      if Released(cfg, s, queue, n).conns[cid].udp == t.conns[cid].udp { m := ReleasedSession(cfg, s, queue, n - 1, cid); }
      else { m := n - 1; }
    }
  }

  /** The state in which an entry's frame runs lies on the way to every later one. */
  lemma {:induction false} RunsOnTheWay(cfg: Config, s: State, queue: seq<Delayed>, m: nat, n: nat)
    requires m < n <= |queue| && s.conns.Keys <= s.sockets
    requires QueueRuns.Runs(Released(cfg, s, queue, m), queue[m])
    ensures var w := Discharged(Released(cfg, s, queue, m), queue[m]); Onward(s, w) && Onward(w, Released(cfg, s, queue, n))
    decreases n
  {
    hide Release, Dispatch, Onward;
    var mid := Released(cfg, s, queue, m);
    var w := Discharged(mid, queue[m]);
    RunsServes(mid, queue[m]);
    QueueRuns.ReleasedOnward(cfg, s, queue, m);
    OnwardOpen(s, mid);
    StillOnward(mid, w);
    OnwardOn(s, mid, w);
    if n == m + 1 {
      QueueRuns.RunsIsDispatch(cfg, mid, queue[m]);
      DispatchOnward(cfg, w, queue[m].cid, queue[m].frame);
    } else {
      RunsOnTheWay(cfg, s, queue, m, n - 1);
      var t := Released(cfg, s, queue, n - 1);
      OnwardOpen(w, t);
      ReleaseOnward(cfg, t, queue[n - 1]);
      OnwardOn(w, t, Released(cfg, s, queue, n));
    }
  }

  // ---- one command

  /** Command `c` after `s` runs, in state `w`, a request of socket `cid` that opens the session `u` under `secret`. */
  ghost predicate Opens(cfg: Config, s: State, c: Step, cid: nat, u: Session, secret: seq<byte>, w: State) {
    && RunsRequest(cfg, s, c, cid, OpenUdp(secret), w) && OpensIn(cfg, w, cid, secret, u)
    && Onward(At(s, c.at), w) && Onward(w, Next(cfg, s, c))
  }

  ghost predicate KeptOrOpened(cfg: Config, s: State, c: Step, cid: nat, u: Session, secret: seq<byte>, w: State) {
    (cid in s.conns && s.conns[cid].udp == Some(u)) || Opens(cfg, s, c, cid, u, secret, w)
  }

  lemma ReceivedSession(cfg: Config, s: State, c: Step, cid: nat) returns (secret: seq<byte>, w: State)
    requires s.conns.Keys <= s.sockets && Lawful(cfg, s, c) && c.action.Received?
    requires cid in Next(cfg, s, c).conns && Next(cfg, s, c).conns[cid].udp.Some?
    ensures KeptOrOpened(cfg, s, c, cid, Next(cfg, s, c).conns[cid].udp.value, secret, w)
  {
    hide Onward, Rules.Receive, Dispatch, Authenticate, AtOnce, Introduces, Lawful, Serves, OpensIn, Counted;
    var t, who, frame := At(s, c.at), c.action.cid, c.action.frame;
    secret, w := [], t;
    ReceiveCases(cfg, t, who, frame);
    if AtOnce(cfg, t, who, frame) {
      AtOnceServes(cfg, t, who, frame);
      w := CountedState(t, who);
      CountedCalm(t, who);
      StillOnward(t, w);
      DispatchOnward(cfg, w, who, frame);
      DispatchIsContained(cfg, w, who, frame);
      DispatchSession(cfg, w, who, frame, cid);
      if frame.body.RequestBody? && frame.body.request.OpenUdp? { secret := frame.body.request.secret; }
      assert Hands(cfg, s, c, who, frame, w);
    } else if Introduces(cfg, t, who, frame) {
      IntroducesHeard(cfg, t, who, frame);
      CountedCalm(t, who);
      AuthenticateSessions(cfg, CountedState(t, who), who, frame.body.credentials, frame.io);
    }
  }

  lemma AtOnceServes(cfg: Config, s: State, cid: nat, frame: Frame)
    requires AtOnce(cfg, s, cid, frame)
    ensures Serves(s, cid) && Serves(CountedState(s, cid), cid)
  {
  }

  lemma IntroducesHeard(cfg: Config, s: State, cid: nat, frame: Frame)
    requires Introduces(cfg, s, cid, frame)
    ensures cid in s.conns && frame.body.AuthBody? && s.conns[cid].player.None?
  {
  }

  lemma SweptSession(cfg: Config, s: State, c: Step, cid: nat) returns (secret: seq<byte>, w: State)
    requires s.conns.Keys <= s.sockets && Lawful(cfg, s, c) && Sorted(s.delayed) && c.action.Swept?
    requires cid in Next(cfg, s, c).conns && Next(cfg, s, c).conns[cid].udp.Some?
    ensures KeptOrOpened(cfg, s, c, cid, Next(cfg, s, c).conns[cid].udp.value, secret, w)
  {
    hide Onward, Released, KeepAll, Expire, Rules.Sweep, Tidied, QueueRuns.Runs, OpensIn;
    var t := At(s, c.at);
    var start, n := t.(delayed := []), Due(s.delayed, c.at);
    secret, w := [], t;
    SweepIs(cfg, t, c.action.order);
    var mid := Released(cfg, start, s.delayed, n);
    var tidy := mid.(delayed := s.delayed[n..], rooms := Tidied(mid.rooms, t.now));
    KeepAllStays(cfg, tidy, c.action.order);
    ExpireIs(cfg, KeepAll(cfg, tidy, c.action.order));
    var m := ReleasedSession(cfg, start, s.delayed, n, cid);
    if mid.conns[cid].udp != s.conns[cid].udp {
      var d := s.delayed[m];
      RunsServes(Released(cfg, start, s.delayed, m), d);
      w, secret := Discharged(Released(cfg, start, s.delayed, m), d), d.frame.body.request.secret;
      assert HandsQueued(cfg, s, c, m, cid, d.frame, w);
      RunsOnTheWay(cfg, start, s.delayed, m, n);
      StillOnward(t, start);
      OnwardOn(t, start, w);
      OnwardOpen(w, mid);
      HouseOnward(cfg, mid, tidy, c.action.order);
      OnwardOn(w, mid, Next(cfg, s, c));
    }
  }

  /** Keeping house moves nobody back. */
  lemma HouseOnward(cfg: Config, mid: State, tidy: State, order: seq<(Id, Io)>)
    requires mid.conns.Keys <= mid.sockets && tidy == mid.(delayed := tidy.delayed, rooms := tidy.rooms)
    ensures Onward(mid, Expire(cfg, KeepAll(cfg, tidy, order)))
  {
    hide Onward, KeepAll, Expire;
    var kept := KeepAll(cfg, tidy, order);
    KeepAllStays(cfg, tidy, order);
    StillOnward(mid, kept);
    OnwardOpen(mid, kept);
    ExpireOnward(cfg, kept);
    OnwardOn(mid, kept, Expire(cfg, kept));
  }

  /** A command that is not a datagram keeps or drops the session of a socket, or runs a request that opens one. */
  lemma StepSession(cfg: Config, s: State, c: Step, cid: nat) returns (secret: seq<byte>, w: State)
    requires s.conns.Keys <= s.sockets && Lawful(cfg, s, c) && Sorted(s.delayed) && !c.action.Arrived?
    requires cid in Next(cfg, s, c).conns && Next(cfg, s, c).conns[cid].udp.Some?
    ensures KeptOrOpened(cfg, s, c, cid, Next(cfg, s, c).conns[cid].udp.value, secret, w)
  {
    hide Rules.Disconnect, Rules.Receive, Rules.Sweep, Opens;
    var t := At(s, c.at);
    secret, w := [], t;
    match c.action {
      case Connected(x) =>
      case Disconnected(x, io) => DisconnectSessions(cfg, t, x, io);
      case Received(x, frame) => secret, w := ReceivedSession(cfg, s, c, cid);
      case Closed(x) =>
      case Swept(order) => secret, w := SweptSession(cfg, s, c, cid);
    }
  }
}

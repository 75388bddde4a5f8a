/** When a UDP session serves: from the request that opens it to the request that closes it, and no longer. */
module Keys {
  import opened Model
  import opened Rules
  import opened Invariants
  import opened Relay
  import opened Presence
  import opened Queue
  import opened Handling
  import opened Udp
  import opened Channel
  import opened Meters
  import opened Opening
  import AntiReplay
  import Bytes
  import Packets
  import Provenance
  import QueueRuns
  import Uploads

  /** The session of socket `cid` after one frame was dispatched: opened, closed, or as it was. */
  lemma DispatchSessionExactly(cfg: Config, w: State, who: nat, frame: Frame, cid: nat)
    requires Serves(w, who) && cid in w.conns
    ensures var t := Dispatch(cfg, w, who, frame);
      && cid in t.conns
      && t.conns[cid].udp ==
           if who == cid && frame.body == RequestBody(CloseUdp) then None
           else if who == cid && frame.body.RequestBody? && frame.body.request.OpenUdp? && cfg.udpEnabled && Holder(w, cid).room.Some?
             then Some(NewSession(frame.body.request.secret, Holder(w, cid).version))
           else w.conns[cid].udp
  {
    hide Create, Enter, Leave, InRoom;
    var p := w.conns[who].player.value;
    if frame.body.RequestBody? {
      var q, io := frame.body.request, frame.io;
      RoomsKeepSessions(cfg, w, p, q, io);
      LeaveMoves(cfg, w, p, false, io);
    }
  }

  // ---- one sweep

  /** The `m`-th entry of the queue is a frame of `cid` that runs when it is released. */
  ghost predicate RunsAt(cfg: Config, s: State, queue: seq<Delayed>, m: nat, cid: nat) {
    m < |queue| && queue[m].cid == cid && QueueRuns.Runs(Released(cfg, s, queue, m), queue[m])
  }

  predicate Opener(b: Body) { b.RequestBody? && b.request.OpenUdp? }

  predicate Closer(b: Body) { b == RequestBody(CloseUdp) }

  /** No entry after the `m`-th and before the `n`-th opens or closes the channel of `cid`. */
  ghost predicate QuietAfter(cfg: Config, s: State, queue: seq<Delayed>, m: int, n: nat, cid: nat) {
    forall k: nat :: m < k < n && RunsAt(cfg, s, queue, k, cid) ==> !Opener(queue[k].frame.body) && !Closer(queue[k].frame.body)
  }

  lemma ReleaseSessionExactly(cfg: Config, s: State, d: Delayed, cid: nat)
    requires cid in s.conns
    ensures var t := Release(cfg, s, d);
      && cid in t.conns
      && t.conns[cid].udp ==
           if d.cid == cid && QueueRuns.Runs(s, d) && Closer(d.frame.body) then None
           else if d.cid == cid && QueueRuns.Runs(s, d) && Opener(d.frame.body) && cfg.udpEnabled && Holder(s, cid).room.Some?
             then Some(NewSession(d.frame.body.request.secret, Holder(s, cid).version))
           else s.conns[cid].udp
  {
    hide Dispatch, Release;
    if d.cid in s.conns {
      QueueRuns.RunsIsDispatch(cfg, s, d);
      if QueueRuns.Runs(s, d) {
        RunsServes(s, d);
        DispatchSessionExactly(cfg, Discharged(s, d), d.cid, d.frame, cid);
      }
    } else {
      ReleaseNothing(cfg, s, d);
    }
  }

  /** While no entry opens or closes the channel, it stays as it is. */
  lemma {:induction false} QuietKeeps(cfg: Config, s: State, queue: seq<Delayed>, m: nat, n: nat, cid: nat)
    requires m <= n <= |queue| && cid in s.conns && QuietAfter(cfg, s, queue, m - 1, n, cid)
    ensures cid in Released(cfg, s, queue, m).conns && cid in Released(cfg, s, queue, n).conns
    ensures Released(cfg, s, queue, n).conns[cid].udp == Released(cfg, s, queue, m).conns[cid].udp
    decreases n
  {
    hide Release, QueueRuns.Runs;
    ReleasedSockets(cfg, s, queue, m);
    ReleasedSockets(cfg, s, queue, n);
    if m < n {
      QuietKeeps(cfg, s, queue, m, n - 1, cid);
      ReleaseSessionExactly(cfg, Released(cfg, s, queue, n - 1), queue[n - 1], cid);
    }
  }

  // ---- one command

  /** The last frame of `cid` that the command runs and that opens or closes its channel has the body `b` and runs in `w`. */
  ghost predicate LastSays(cfg: Config, s: State, c: Step, cid: nat, b: Body, w: State) {
    || (c.action.Received? && c.action.cid == cid && c.action.frame.body == b
        && AtOnce(cfg, At(s, c.at), cid, c.action.frame) && w == CountedState(At(s, c.at), cid))
    || (c.action.Swept? && exists m: nat :: LastInSweep(cfg, s, c, m, cid, b, w))
  }

  ghost predicate LastInSweep(cfg: Config, s: State, c: Step, m: nat, cid: nat, b: Body, w: State) {
    var start, n := At(s, c.at).(delayed := []), Due(s.delayed, c.at);
    && m < n <= |s.delayed| && RunsAt(cfg, start, s.delayed, m, cid) && s.delayed[m].frame.body == b
    && w == Discharged(Released(cfg, start, s.delayed, m), s.delayed[m])
    && QuietAfter(cfg, start, s.delayed, m, n, cid)
  }

  /** After the command the channel of a socket is as its last word says. */
  lemma LastWordHolds(cfg: Config, s: State, c: Step, cid: nat, b: Body, w: State)
    requires Sorted(s.delayed) && LastSays(cfg, s, c, cid, b, w) && (Opener(b) || Closer(b))
    ensures Serves(w, cid) && cid in Next(cfg, s, c).conns
    ensures Closer(b) ==> Next(cfg, s, c).conns[cid].udp.None?
    ensures Opener(b) && cfg.udpEnabled && Holder(w, cid).room.Some? ==>
      Next(cfg, s, c).conns[cid].udp == Some(NewSession(b.request.secret, Holder(w, cid).version))
  {
    hide Receive, Dispatch, Authenticate, AtOnce, Released, Rules.Sweep, QueueRuns.Runs, Sorted, Serves;
    if c.action.Received? {
      AtOnceServes(cfg, At(s, c.at), cid, c.action.frame);
      ReceiveCases(cfg, At(s, c.at), cid, c.action.frame);
      DispatchSessionExactly(cfg, w, cid, c.action.frame, cid);
    } else {
      var m: nat :| LastInSweep(cfg, s, c, m, cid, b, w);
      LastInSweepHolds(cfg, s, c, m, cid, b, w);
    }
  }

  lemma LastInSweepHolds(cfg: Config, s: State, c: Step, m: nat, cid: nat, b: Body, w: State)
    requires Sorted(s.delayed) && c.action.Swept? && LastInSweep(cfg, s, c, m, cid, b, w) && (Opener(b) || Closer(b))
    ensures Serves(w, cid) && cid in Next(cfg, s, c).conns
    ensures Closer(b) ==> Next(cfg, s, c).conns[cid].udp.None?
    ensures Opener(b) && cfg.udpEnabled && Holder(w, cid).room.Some? ==>
      Next(cfg, s, c).conns[cid].udp == Some(NewSession(b.request.secret, Holder(w, cid).version))
  {
    hide Released, Rules.Sweep, QueueRuns.Runs, Sorted, QuietAfter, Serves;
    var start, n := At(s, c.at).(delayed := []), Due(s.delayed, c.at);
    var mid, d := Released(cfg, start, s.delayed, m), s.delayed[m];
    RunsServes(mid, d);
    ReleasedSockets(cfg, start, s.delayed, m);
    ReleaseSessionExactly(cfg, mid, d, cid);
    DischargedHolder(mid, d);
    ReleasedNext(cfg, start, s.delayed, m);
    QuietSame(cfg, start, s.delayed, m, n, cid);
    QuietKeeps(cfg, start, s.delayed, m + 1, n, cid);
    SweptSockets(cfg, s, c);
  }

  lemma QuietSame(cfg: Config, s: State, queue: seq<Delayed>, m: nat, n: nat, cid: nat)
    requires QuietAfter(cfg, s, queue, m, n, cid)
    ensures QuietAfter(cfg, s, queue, (m + 1) - 1, n, cid)
  {
  }

  lemma ReleasedNext(cfg: Config, s: State, queue: seq<Delayed>, m: nat)
    requires m < |queue|
    ensures Released(cfg, s, queue, m + 1) == Release(cfg, Released(cfg, s, queue, m), queue[m])
  {
    hide Release;
  }

  lemma DischargedHolder(s: State, d: Delayed)
    requires Serves(s, d.cid) && Serves(Discharged(s, d), d.cid)
    ensures Holder(Discharged(s, d), d.cid) == Holder(s, d.cid)
  {
  }

  /** A sweep leaves sockets as its releases left them. */
  lemma SweptSockets(cfg: Config, s: State, c: Step)
    requires Sorted(s.delayed) && c.action.Swept?
    ensures Due(s.delayed, c.at) <= |s.delayed|
    ensures Next(cfg, s, c).conns == Released(cfg, At(s, c.at).(delayed := []), s.delayed, Due(s.delayed, c.at)).conns
  {
    hide Released, KeepAll, Expire, Rules.Sweep, Tidied, Sorted;
    var t := At(s, c.at);
    SweepIs(cfg, t, c.action.order);
    var n := Due(s.delayed, c.at);
    var mid := Released(cfg, t.(delayed := []), s.delayed, n);
    var tidy := mid.(delayed := s.delayed[n..], rooms := Tidied(mid.rooms, t.now));
    KeepAllStays(cfg, tidy, c.action.order);
    ExpireIs(cfg, KeepAll(cfg, tidy, c.action.order));
  }

  /** The command runs no frame of `cid` that opens or closes its channel. */
  ghost predicate NoWord(cfg: Config, s: State, c: Step, cid: nat) {
    forall frame, w :: Hands(cfg, s, c, cid, frame, w) ==> !Opener(frame.body) && !Closer(frame.body)
  }

  /** Such a command keeps the session of the socket, but for what datagrams do to it. */
  lemma NoWordKeeps(cfg: Config, s: State, c: Step, cid: nat)
    requires Sorted(s.delayed) && Lawful(cfg, s, c) && NoWord(cfg, s, c, cid) && cid in s.conns && cid in Next(cfg, s, c).conns
    ensures s.conns[cid].udp.Some? <==> Next(cfg, s, c).conns[cid].udp.Some?
    ensures s.conns[cid].udp.Some? ==>
      var u, v := s.conns[cid].udp.value, Next(cfg, s, c).conns[cid].udp.value;
      v.secret == u.secret && v.version == u.version && (!c.action.Arrived? ==> v == u)
  {
    hide Receive, Disconnect, Rules.Sweep, Datagram, Connect, Sorted;
    var t := At(s, c.at);
    match c.action {
      case Connected(x) => ConnectKeeps(t, x, cid);
      case Disconnected(x, io) => DisconnectSessions(cfg, t, x, io);
      case Received(x, frame) => ReceivedKeeps(cfg, s, c, cid);
      case Arrived(bytes, source, nonce) => ArrivedKeeps(cfg, t, c.action, cid);
      case Closed(x) =>
      case Swept(order) => SweptKeeps(cfg, s, c, cid);
    }
  }

  lemma ArrivedKeeps(cfg: Config, s: State, c: Action, cid: nat)
    requires c.Arrived? && cid in s.conns
    ensures var t := Datagram(cfg, s, c.bytes, c.source, c.nonce).0;
      && cid in t.conns && (s.conns[cid].udp.Some? <==> t.conns[cid].udp.Some?)
      && (s.conns[cid].udp.Some? ==>
            t.conns[cid].udp.value.secret == s.conns[cid].udp.value.secret
            && t.conns[cid].udp.value.version == s.conns[cid].udp.value.version)
  {
    hide Datagram, ProbeFrom, EchoFrom, DataFrom;
    DatagramMoves(cfg, s, c);
  }

  lemma ReceivedKeeps(cfg: Config, s: State, c: Step, cid: nat)
    requires c.action.Received? && NoWord(cfg, s, c, cid) && cid in s.conns && cid in Next(cfg, s, c).conns
    ensures Next(cfg, s, c).conns[cid].udp == s.conns[cid].udp
  {
    hide Receive, Dispatch, Authenticate, AtOnce, Introduces, Counted, Serves;
    var t, who, frame := At(s, c.at), c.action.cid, c.action.frame;
    ReceiveCases(cfg, t, who, frame);
    if AtOnce(cfg, t, who, frame) {
      AtOnceServes(cfg, t, who, frame);
      CountedCalm(t, who);
      assert Hands(cfg, s, c, who, frame, CountedState(t, who));
      DispatchSessionExactly(cfg, CountedState(t, who), who, frame, cid);
    } else if Introduces(cfg, t, who, frame) {
      IntroducesHeard(cfg, t, who, frame);
      CountedCalm(t, who);
      AuthenticateSessions(cfg, CountedState(t, who), who, frame.body.credentials, frame.io);
    }
  }

  lemma SweptKeeps(cfg: Config, s: State, c: Step, cid: nat)
    requires Sorted(s.delayed) && c.action.Swept? && NoWord(cfg, s, c, cid) && cid in s.conns
    ensures cid in Next(cfg, s, c).conns && Next(cfg, s, c).conns[cid].udp == s.conns[cid].udp
  {
    hide Released, Rules.Sweep, QueueRuns.Runs, Sorted, Due;
    SweptSockets(cfg, s, c);
    var start, n := At(s, c.at).(delayed := []), Due(s.delayed, c.at);
    forall k: nat | -1 < k < n && RunsAt(cfg, start, s.delayed, k, cid)
      ensures !Opener(s.delayed[k].frame.body) && !Closer(s.delayed[k].frame.body)
    {
      Uploads.HandsReleased(cfg, s, c, k);
    }
    assert QuietAfter(cfg, start, s.delayed, 0 - 1, n, cid);
    QuietKeeps(cfg, start, s.delayed, 0, n, cid);
    NoneReleased(cfg, start, s.delayed);
  }


  lemma NoneReleased(cfg: Config, s: State, queue: seq<Delayed>)
    ensures Released(cfg, s, queue, 0) == s
  {
  }

  lemma ConnectKeeps(s: State, x: nat, cid: nat)
    requires cid in s.conns && x !in s.conns
    ensures cid in Connect(s, x).conns && Connect(s, x).conns[cid] == s.conns[cid]
  {
  }

  // ---- runs

  /** No command from `i` to before `j` runs a request of the socket that opens its channel. */
  ghost predicate NeverOpened(cfg: Config, r: Run, i: nat, j: nat, cid: nat)
    requires |r.states| == |r.steps| + 1 && j < |r.states|
  {
    forall x, secret, w :: i <= x < j ==> !RunsRequest(cfg, r.states[x], r.steps[x], cid, OpenUdp(secret), w)
  }

  /** Once the channel of a socket was closed it stays closed until a request of the socket opens it. */
  lemma {:induction false} StaysClosed(cfg: Config, r: Run, i: nat, j: nat, cid: nat)
    requires IsRun(cfg, r) && i <= j < |r.states| && cid in r.states[i].sockets
    requires cid in r.states[i].conns ==> r.states[i].conns[cid].udp.None?
    requires NeverOpened(cfg, r, i, j, cid)
    ensures cid in r.states[j].conns ==> r.states[j].conns[cid].udp.None?
    decreases j
  {
    hide Next, Lawful, Onward, RunsRequest, Sorted;
    if i < j {
      var s, c := r.states[j - 1], r.steps[j - 1];
      StaysClosed(cfg, r, i, j - 1, cid);
      assert Lawful(cfg, s, c);
      RunOnward(cfg, r, i, j);
      StillKnown(r.states[i], r.states[j], cid);
      RunOnward(cfg, r, i, j - 1);
      RunOnward(cfg, r, j - 1, j);
      KnownOn(r.states[i], s, cid);
      StillKnown(s, r.states[j], cid);
      QueueRuns.RunSorted(cfg, r, j - 1);
      if cid in r.states[j].conns && r.states[j].conns[cid].udp.Some? {
        if c.action.Arrived? {
          ArrivedNext(cfg, s, c);
          ArrivedKeeps(cfg, At(s, c.at), c.action, cid);
        } else {
          var secret, w := StepSession(cfg, s, c, cid);
        }
      }
    }
  }

  lemma StillKnown(s: State, t: State, cid: nat)
    requires Onward(s, t) && cid in s.sockets
    ensures cid in t.conns ==> cid in s.conns
  {
  }

  lemma KnownOn(s: State, t: State, cid: nat)
    requires Onward(s, t) && cid in s.sockets
    ensures cid in t.sockets
  {
  }

  /**
   * Closing the channel closes it: when the last word of a socket in command `i` is to close it, then until some command
   * runs a request of the socket to open it, no datagram that names the socket is taken and none is sent to it.
   */
  lemma ClosedChannelIsSilent(cfg: Config, r: Run, i: nat, j: nat, cid: nat, w: State)
    requires IsRun(cfg, r) && i < j < |r.steps| && LastSays(cfg, r.states[i], r.steps[i], cid, RequestBody(CloseUdp), w)
    requires NeverOpened(cfg, r, i + 1, j, cid)
    ensures cid in r.states[j].conns ==> r.states[j].conns[cid].udp.None?
    ensures var c := r.steps[j].action;
      && (c.Arrived? && Taken(cfg, At(r.states[j], r.steps[j].at), c.bytes) ==> Fields(c.bytes).cid != cid)
      && !Sends(cfg, At(r.states[j], r.steps[j].at), c, cid)
  {
    hide Next, Lawful, LastSays, Onward, Sorted, NeverOpened, Taken, Sends, Serves;
    QueueRuns.RunSorted(cfg, r, i);
    LastWordHolds(cfg, r.states[i], r.steps[i], cid, RequestBody(CloseUdp), w);
    RunOnward(cfg, r, i + 1, i + 1);
    StaysClosed(cfg, r, i + 1, j, cid);
    SilentWithout(cfg, At(r.states[j], r.steps[j].at), r.steps[j].action, cid);
  }

  lemma SilentWithout(cfg: Config, s: State, c: Action, cid: nat)
    requires cid in s.conns ==> s.conns[cid].udp.None?
    ensures c.Arrived? && Taken(cfg, s, c.bytes) ==> Fields(c.bytes).cid != cid
    ensures !Sends(cfg, s, c, cid)
  {
    hide Emit, Sensible, Signed, AntiReplay.Admit, Probe, Echo, Data;
  }

  /** A key that was closed serves again only after a later request of the socket supplied it again. */
  lemma ClosedKeyIsSuppliedAgain(cfg: Config, r: Run, i: nat, j: nat, cid: nat, v: State) returns (o: nat, w: State)
    requires IsRun(cfg, r) && i < j < |r.states| && LastSays(cfg, r.states[i], r.steps[i], cid, RequestBody(CloseUdp), v)
    requires cid in r.states[j].conns && r.states[j].conns[cid].udp.Some?
    ensures i < o < j && RunsRequest(cfg, r.states[o], r.steps[o], cid, OpenUdp(r.states[j].conns[cid].udp.value.secret), w)
  {
    hide Next, Lawful, LastSays, Onward, Sorted, RunsRequest, Serves;
    QueueRuns.RunSorted(cfg, r, i);
    LastWordHolds(cfg, r.states[i], r.steps[i], cid, RequestBody(CloseUdp), v);
    o, w := SessionOrigin(cfg, r, j, cid);
    KeyAt(r, o + 1, i + 1, j, cid);
  }

  lemma KeyAt(r: Run, o: nat, i: nat, j: nat, cid: nat)
    requires OneKey(r, o, j, cid) && i <= j
    ensures o <= i ==> cid in r.states[i].conns && r.states[i].conns[cid].udp.Some?
  {
  }

  ghost predicate NoWords(cfg: Config, r: Run, i: nat, j: nat, cid: nat)
    requires |r.states| == |r.steps| + 1 && j < |r.states|
  {
    forall x :: i <= x < j ==> NoWord(cfg, r.states[x], r.steps[x], cid)
  }

  lemma {:induction false} KeyStays(cfg: Config, r: Run, i: nat, j: nat, cid: nat)
    requires IsRun(cfg, r) && i <= j < |r.states| && cid in r.states[i].conns && cid in r.states[j].conns
    requires r.states[i].conns[cid].udp.Some? && NoWords(cfg, r, i, j, cid)
    ensures r.states[j].conns[cid].udp.Some?
    ensures r.states[j].conns[cid].udp.value.secret == r.states[i].conns[cid].udp.value.secret
    ensures r.states[j].conns[cid].udp.value.version == r.states[i].conns[cid].udp.value.version
    decreases j
  {
    hide Next, Lawful, Onward, NoWord, Sorted;
    if i < j {
      assert Lawful(cfg, r.states[j - 1], r.steps[j - 1]);
      RunOnward(cfg, r, i, j - 1);
      RunOnward(cfg, r, j - 1, j);
      KnownOpen(r.states[i], r.states[j - 1], r.states[j], cid);
      KeyStays(cfg, r, i, j - 1, cid);
      QueueRuns.RunSorted(cfg, r, j - 1);
      NoWordKeeps(cfg, r.states[j - 1], r.steps[j - 1], cid);
    }
  }

  lemma KnownOpen(s: State, t: State, u: State, cid: nat)
    requires Onward(s, t) && Onward(t, u) && cid in s.conns && cid in u.conns
    ensures cid in t.conns
  {
  }

  /**
   * Opening the channel opens it: when the last word of a socket in command `i` is to open it under `key` while its account
   * is in a room, then as long as the socket is there and runs no further request to open or close, its session has that
   * key and the membership version of that moment.
   */
  lemma OpenedChannelServes(cfg: Config, r: Run, i: nat, j: nat, cid: nat, key: seq<byte>, w: State)
    requires IsRun(cfg, r) && i < j < |r.states| && LastSays(cfg, r.states[i], r.steps[i], cid, RequestBody(OpenUdp(key)), w)
    requires cfg.udpEnabled && Serves(w, cid) && Holder(w, cid).room.Some?
    requires cid in r.states[j].conns && NoWords(cfg, r, i + 1, j, cid)
    ensures r.states[j].conns[cid].udp.Some?
    ensures r.states[j].conns[cid].udp.value.secret == key
    ensures r.states[j].conns[cid].udp.value.version == Holder(w, cid).version
  {
    hide Next, Lawful, LastSays, Onward, Sorted, NoWords, Serves;
    QueueRuns.RunSorted(cfg, r, i);
    LastWordHolds(cfg, r.states[i], r.steps[i], cid, RequestBody(OpenUdp(key)), w);
    KeyStays(cfg, r, i + 1, j, cid);
  }

  // ---- what a session takes and sends

  /** The account on socket `cid` is a member of a room, the socket is open, and its session is for the present stay. */
  predicate Engaged(s: State, cid: nat, q: Id, id: Id) {
    && cid in s.conns && !s.conns[cid].closing && s.conns[cid].player == Some(q)
    && q in s.players && s.players[q].connection == Some(cid) && s.players[q].room == Some(id)
    && id in s.rooms && q in s.rooms[id].active
    && s.conns[cid].udp.Some? && s.conns[cid].udp.value.version == s.players[q].version
  }

  /** Is there room in the fixed window for one more at this time? */
  predicate Within(r: Rate, now: nat, limit: nat) {
    if now >= r.at + 1000 then limit > 0 else r.count < limit
  }

  /**
   * A datagram is taken exactly when it is of a legal size, names the socket of a member with a session for its present
   * stay, was written under that session's key, has a legal kind, target and payload, a number not seen before, and the
   * connection's incoming window has room.
   */
  lemma TakenExactly(cfg: Config, s: State, bytes: seq<byte>)
    requires forall key, m :: |cfg.mac(key, m)| == TAG
    requires forall x :: x in s.conns ==> s.conns[x].incoming.at <= s.now
    ensures Taken(cfg, s, bytes) <==>
      && HEADER + TAG <= |bytes| <= cfg.udpMax
      && (var p := Fields(bytes);
          && (exists q, id :: Engaged(s, p.cid, q, id))
          && (var c := s.conns[p.cid];
              && bytes == Packets.Write(cfg, c.udp.value.secret, p)
              && (if p.kind == DATA then p.payload != [] else p.kind < DATA && p.target == 0 && |p.payload| == 16)
              && AntiReplay.Admit(c.udp.value.replay, p.sequence).1
              && Within(c.incoming, s.now, cfg.udpIncoming)))
  {
    hide Bytes.Value, AntiReplay.Admit, Encode;
    if HEADER + TAG <= |bytes| <= cfg.udpMax {
      var p := Fields(bytes);
      LiveIsEngaged(s, p.cid);
      if exists q, id :: Engaged(s, p.cid, q, id) {
        var key := s.conns[p.cid].udp.value.secret;
        SignedIsWritten(cfg, key, bytes);
      }
    }
  }

  lemma LiveIsEngaged(s: State, cid: nat)
    ensures Live(s, cid) <==> exists q, id :: Engaged(s, cid, q, id)
  {
    if Live(s, cid) { assert Engaged(s, cid, s.conns[cid].player.value, s.players[s.conns[cid].player.value].room.value); }
  }

  lemma SignedIsWritten(cfg: Config, key: seq<byte>, bytes: seq<byte>)
    requires forall k, m :: |cfg.mac(k, m)| == TAG
    requires HEADER + TAG <= |bytes| <= cfg.udpMax
    ensures Framed(cfg, bytes) && Signed(cfg, key, bytes) <==> bytes == Packets.Write(cfg, key, Fields(bytes))
  {
    if Framed(cfg, bytes) && Signed(cfg, key, bytes) { Packets.OnlyWrittenVerifies(cfg, key, bytes); }
    if bytes == Packets.Write(cfg, key, Fields(bytes)) {
      Packets.FieldsFit(bytes);
      Packets.WrittenReadsBack(cfg, key, Fields(bytes));
    }
  }
}

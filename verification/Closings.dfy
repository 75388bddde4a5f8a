/** Which commands make a socket close, exactly, and that a closing socket is no longer heard. */
module Closings {
  import opened Model
  import opened Rules
  import opened Invariants
  import opened Relay
  import opened Presence
  import opened Handling
  import opened Absence
  import AntiReplay
  import Channel
  import Keys
  import Meters
  import Opening
  import Preservation
  import Queue
  import QueueRuns
  import Rates
  import Reach
  import Safety
  import Udp

  // ---- authentication

  /** The account is in memory and stays there over the expiry that comes first. */
  predicate Remembered(cfg: Config, s: State, key: Id) {
    key in s.players && !Overdue(cfg, s, key)
  }

  /** The secret to give: of the account in memory, for its own spelling, or else of the stored one. */
  predicate SecretIs(cfg: Config, s: State, c: Credentials, io: Io, secret: Json)
    requires c.Login?
  {
    if c.exact && Remembered(cfg, s, c.key) then s.players[c.key].secret == secret
    else cfg.stored && io.readable && c.key in s.accounts && s.accounts[c.key] == secret
  }

  /** The stored record that the login needs cannot be read. */
  predicate Unreadable(cfg: Config, s: State, c: Credentials, io: Io)
    requires c.Login?
  {
    !(c.exact && Remembered(cfg, s, c.key)) && cfg.stored && c.key in s.accounts && !io.readable
  }

  /** An unknown account or a wrong secret, or a new account while as many accounts as are allowed are remembered. */
  predicate Refused(cfg: Config, s: State, c: Credentials, io: Io) {
    match c
    case Login(_, _, password) => !Unreadable(cfg, s, c, io) && !SecretIs(cfg, s, c, io, password)
    case Guest(_, _) => |set p | p in s.players && Remembered(cfg, s, p)| >= cfg.maxAccounts
  }

  /** The login moves an account away from the socket `x`. */
  predicate MovesFrom(cfg: Config, s: State, c: Credentials, io: Io, x: nat) {
    && c.Login? && c.exact && Remembered(cfg, s, c.key) && s.players[c.key].secret == c.password
    && s.players[c.key].connection == Some(x)
  }

  lemma BindCloses(cfg: Config, s: State, cid: nat, id: Id, io: Io, x: nat)
    requires cid in s.conns && id in s.players && x in s.conns
    ensures var t := Bind(cfg, s, cid, id, io);
      x in t.conns && (t.conns[x].closing <==> s.conns[x].closing || s.players[id].connection == Some(x))
  {
  }

  lemma TakeOverCloses(cfg: Config, s: State, cid: nat, key: Id, io: Io, x: nat)
    requires cid in s.conns && key in s.players && x in s.conns
    ensures var t := TakeOver(cfg, s, cid, key, io);
      x in t.conns && (t.conns[x].closing <==> s.conns[x].closing || s.players[key].connection == Some(x))
  {
    hide Leave, Bind;
    if InFixedGame(s, key) {
      LeaveStamps(cfg, s, key, true, io);
      LeaveMoves(cfg, s, key, true, io);
      BindCloses(cfg, Leave(cfg, s, key, true, io), cid, key, io, x);
    } else {
      BindCloses(cfg, s, cid, key, io, x);
    }
  }

  lemma LogInCloses(cfg: Config, s: State, cid: nat, c: Credentials, io: Io, x: nat)
    requires Stamped(s) && cid in s.conns && x in s.conns && c.Login?
    requires Paired(s.players, s.conns) && s.conns[cid].player.None?
    ensures var t := LogIn(cfg, Expire(cfg, s), cid, c.key, c.exact, c.password, io);
      x in t.conns && (t.conns[x].closing <==> s.conns[x].closing || (x == cid && Refused(cfg, s, c, io)) || MovesFrom(cfg, s, c, io, x))
  {
    hide Expire, Overdue, TakeOver, Stamped, Paired, Account, Closing;
    var known := Expire(cfg, s);
    ExpireForgets(cfg, s) by { StampsPast(s); }
    var account := Account(cfg, known, c.key, c.exact, io);
    NotItsOwn(s, cid);
    AccountIs(cfg, s, known, c, io);
    ClosingCloses(known, cid, x);
    if account.Some? && account.value.secret == c.password {
      TakeOverCloses(cfg, known.(players := known.players[c.key := account.value]), cid, c.key, io, x);
    }
  }

  lemma StampsPast(s: State)
    requires Stamped(s)
    ensures forall p :: p in s.players && s.players[p].offline.Some? ==> s.players[p].offline.value <= s.now
  {
  }

  /** What the login finds once the overdue accounts are forgotten. */
  lemma AccountIs(cfg: Config, s: State, known: State, c: Credentials, io: Io)
    requires c.Login? && known.accounts == s.accounts
    requires forall p :: p in s.players ==> (p !in known.players <==> Overdue(cfg, s, p))
    requires forall p :: p in known.players ==> p in s.players && known.players[p] == s.players[p]
    ensures var account := Account(cfg, known, c.key, c.exact, io);
      && (c.exact && c.key in known.players <==> c.exact && Remembered(cfg, s, c.key))
      && (if c.exact && Remembered(cfg, s, c.key) then account == Some(s.players[c.key])
          else if cfg.stored && io.readable && c.key in s.accounts then
            account.Some? && account.value.secret == s.accounts[c.key] && account.value.connection.None?
          else account.None?)
  {
    hide Overdue;
  }

  lemma NotItsOwn(s: State, cid: nat)
    requires Paired(s.players, s.conns) && cid in s.conns && s.conns[cid].player.None?
    ensures forall p :: p in s.players ==> s.players[p].connection != Some(cid)
  {
  }

  lemma RememberedAre(cfg: Config, s: State)
    requires Stamped(s)
    ensures Expire(cfg, s).players.Keys == set p | p in s.players && Remembered(cfg, s, p)
    ensures |Expire(cfg, s).players| == |set p | p in s.players && Remembered(cfg, s, p)|
  {
    hide Expire, Overdue;
    ExpireForgets(cfg, s);
    var t := Expire(cfg, s);
    assert t.players.Keys == set p | p in s.players && Remembered(cfg, s, p);
    assert |t.players| == |t.players.Keys|;
  }

  lemma GuestCloses(cfg: Config, s: State, cid: nat, c: Credentials, io: Io, x: nat)
    requires Stamped(s) && cid in s.conns && x in s.conns && c.Guest?
    ensures var t := Authenticate(cfg, s, cid, c, io);
      x in t.conns && (t.conns[x].closing <==> s.conns[x].closing || (x == cid && Refused(cfg, s, c, io)))
  {
    hide Expire, Bind, Overdue, Remembered;
    var known := Expire(cfg, s);
    ExpireForgets(cfg, s);
    RememberedAre(cfg, s);
    if |known.players| < cfg.maxAccounts {
      BindCloses(cfg, known.(players := known.players[c.id := Player(c.secret, None, None, None, Some(s.now), 0)]), cid, c.id, io, x);
    }
  }

  /**
   * A message that authenticates leaves its socket closing exactly when it is refused: the account is unknown or the
   * secret is wrong, or a new account meets the limit; an unreadable record is neither. Of the other sockets it closes
   * exactly the one from which it moves the account.
   */
  lemma AuthenticateCloses(cfg: Config, s: State, cid: nat, c: Credentials, io: Io, x: nat)
    requires Stamped(s) && Paired(s.players, s.conns) && cid in s.conns && s.conns[cid].player.None? && x in s.conns
    ensures var t := Authenticate(cfg, s, cid, c, io);
      x in t.conns && (t.conns[x].closing <==> s.conns[x].closing || (x == cid && Refused(cfg, s, c, io)) || MovesFrom(cfg, s, c, io, x))
  {
    hide LogIn, Expire, Refused, MovesFrom, Bind;
    if c.Login? { LogInCloses(cfg, s, cid, c, io, x); } else { GuestCloses(cfg, s, cid, c, io, x); NoGuestMoves(cfg, s, c, io, x); }
  }

  lemma NoGuestMoves(cfg: Config, s: State, c: Credentials, io: Io, x: nat)
    ensures c.Guest? ==> !MovesFrom(cfg, s, c, io, x)
  {
  }

  // ---- messages

  /** One message too many in the present second. */
  predicate Floods(cfg: Config, s: State, cid: nat)
    requires cid in s.conns
  {
    (if s.now >= s.conns[cid].rateAt + 1000 then 1 else s.conns[cid].messages + 1) > cfg.maxMessages
  }

  /** A frame that would wait but for which the queue has no room. */
  predicate Overflows(cfg: Config, s: State, cid: nat, frame: Frame)
    requires cid in s.conns
  {
    && s.conns[cid].player.Some? && cfg.delay > 0
    && (if frame.body.RequestBody? then frame.body.request != Pong
        else frame.body.BinaryBody? && frame.size <= cfg.maxPayload && frame.size + 10 <= cfg.maxBuffered)
    && (s.conns[cid].delayed + frame.size > cfg.maxBuffered || s.conns[cid].pending >= cfg.maxMessages)
  }

  /** The message on socket `cid`, which is heard, makes the socket close. */
  predicate Offends(cfg: Config, s: State, cid: nat, frame: Frame)
    requires cid in s.conns
  {
    || Floods(cfg, s, cid)
    || (!frame.body.Ping? && !frame.body.PongFrame?
        && ( || frame.size > cfg.maxPayload
             || (frame.body.AuthBody? && s.conns[cid].player.None? && Refused(cfg, s, frame.body.credentials, frame.io))
             || Overflows(cfg, s, cid, frame)))
  }

  lemma ClosingCloses(s: State, cid: nat, x: nat)
    requires x in s.conns
    ensures x in Closing(s, cid).conns && (Closing(s, cid).conns[x].closing <==> s.conns[x].closing || x == cid)
  {
  }

  lemma DispatchCloses(cfg: Config, s: State, cid: nat, frame: Frame, x: nat)
    requires x in s.conns
    ensures x in Dispatch(cfg, s, cid, frame).conns && Dispatch(cfg, s, cid, frame).conns[x].closing == s.conns[x].closing
  {
    hide Dispatch;
    Reach.DispatchIsContained(cfg, s, cid, frame);
  }

  /** The message logs an account in and moves it away from socket `x`. */
  predicate Supersedes(cfg: Config, s: State, cid: nat, frame: Frame, x: nat) {
    Introduces(cfg, s, cid, frame) && MovesFrom(cfg, s, frame.body.credentials, frame.io, x)
  }

  lemma SameRefused(cfg: Config, s: State, cid: nat, c: Connection, who: Credentials, io: Io, x: nat)
    ensures var t := s.(conns := s.conns[cid := c]);
      (Refused(cfg, t, who, io) <==> Refused(cfg, s, who, io)) && (MovesFrom(cfg, t, who, io, x) <==> MovesFrom(cfg, s, who, io, x))
  {
    var t := s.(conns := s.conns[cid := c]);
    forall p | p in s.players ensures Overdue(cfg, t, p) <==> Overdue(cfg, s, p) {}
    assert (set p | p in t.players && Remembered(cfg, t, p)) == set p | p in s.players && Remembered(cfg, s, p);
  }

  lemma ProcessCloses(cfg: Config, s: State, cid: nat, frame: Frame, x: nat)
    requires Stamped(s) && Paired(s.players, s.conns) && x in s.conns && cid in s.conns
    requires s.conns[cid].player.Some? ==> Current(s, cid)
    ensures var t := Process(cfg, s, cid, frame);
      && x in t.conns
      && (t.conns[x].closing <==>
            || s.conns[x].closing
            || (x == cid && !frame.body.Ping? && !frame.body.PongFrame?
                && ( || frame.size > cfg.maxPayload
                     || (frame.body.AuthBody? && s.conns[cid].player.None? && Refused(cfg, s, frame.body.credentials, frame.io))
                     || Overflows(cfg, s, cid, frame)))
            || (s.conns[cid].player.None? && frame.body.AuthBody? && frame.size <= cfg.maxPayload
                && MovesFrom(cfg, s, frame.body.credentials, frame.io, x)))
  {
    hide Dispatch, Authenticate, Refused, MovesFrom, Waiting, Stamped, Paired;
    ClosingCloses(s, cid, x);
    DispatchCloses(cfg, s, cid, frame, x);
    if s.conns[cid].player.None? && frame.body.AuthBody? {
      AuthenticateCloses(cfg, s, cid, frame.body.credentials, frame.io, x);
    }
  }

  /** Which sockets a message leaves closing. */
  lemma ReceiveCloses(cfg: Config, s: State, cid: nat, frame: Frame, x: nat)
    requires Stamped(s) && Paired(s.players, s.conns) && x in s.conns
    ensures var t := Receive(cfg, s, cid, frame);
      && x in t.conns
      && (t.conns[x].closing <==>
            s.conns[x].closing || (x == cid && Heard(s, cid) && Offends(cfg, s, cid, frame)) || Supersedes(cfg, s, cid, frame, x))
  {
    hide Process, Refused, MovesFrom, Stamped, Paired;
    if Heard(s, cid) {
      var out := CountedState(s, cid);
      ClosingCloses(out, cid, x);
      if frame.body.AuthBody? { SameRefused(cfg, s, cid, out.conns[cid], frame.body.credentials, frame.io, x); }
      if out.conns[cid].messages <= cfg.maxMessages {
        CountedPaired(s, cid);
        ProcessCloses(cfg, out, cid, frame, x);
      }
    }
  }

  lemma CountedPaired(s: State, cid: nat)
    requires Paired(s.players, s.conns) && Stamped(s) && cid in s.conns
    ensures Paired(CountedState(s, cid).players, CountedState(s, cid).conns) && Stamped(CountedState(s, cid))
  {
  }

  // ---- one command

  /** What makes socket `x` close. */
  ghost predicate Closes(cfg: Config, s: State, c: Step, x: nat) {
    match c.action
    case Closed(cid) => cid == x
    case Received(cid, frame) =>
      var t := At(s, c.at);
      (cid == x && Heard(t, cid) && Offends(cfg, t, cid, frame)) || Supersedes(cfg, t, cid, frame, x)
    case _ => false
  }

  lemma {:induction false} ReleasedCloses(cfg: Config, s: State, queue: seq<Delayed>, n: nat, x: nat)
    requires n <= |queue| && x in s.conns
    ensures x in Queue.Released(cfg, s, queue, n).conns
    ensures Queue.Released(cfg, s, queue, n).conns[x].closing == s.conns[x].closing
  {
    hide Release;
    if n > 0 {
      ReleasedCloses(cfg, s, queue, n - 1, x);
      ReleaseCloses(cfg, Queue.Released(cfg, s, queue, n - 1), queue[n - 1], x);
    }
  }

  lemma ReleaseCloses(cfg: Config, s: State, d: Delayed, x: nat)
    requires x in s.conns
    ensures x in Release(cfg, s, d).conns && Release(cfg, s, d).conns[x].closing == s.conns[x].closing
  {
    hide Dispatch;
    if d.cid in s.conns { DispatchCloses(cfg, Discharged(s, d), d.cid, d.frame, x); }
  }

  /** A command leaves a socket closing exactly when it was closing or the command makes it close. */
  lemma StepCloses(cfg: Config, s: State, c: Step, x: nat)
    requires Stamped(s) && Paired(s.players, s.conns) && Lawful(cfg, s, c) && Queue.Sorted(s.delayed)
    requires x in s.conns && x in Next(cfg, s, c).conns
    ensures Next(cfg, s, c).conns[x].closing <==> s.conns[x].closing || Closes(cfg, s, c, x)
  {
    hide Rules.Sweep, Receive, Disconnect, Udp.Datagram, Paired, Queue.Sorted, Stamped, Offends, Supersedes, Queue.Released;
    var t := At(s, c.at);
    match c.action {
      case Connected(cid) =>
      case Disconnected(cid, io) => DisconnectCloses(cfg, t, cid, io, x);
      case Received(cid, frame) =>
        LaterStamped(s, c.at);
        ReceiveCloses(cfg, t, cid, frame, x);
      case Arrived(bytes, source, nonce) => DatagramCloses(cfg, t, c.action, x);
      case Closed(cid) => ClosingCloses(t, cid, x);
      case Swept(order) =>
        Keys.SweptSockets(cfg, s, c);
        ReleasedCloses(cfg, t.(delayed := []), s.delayed, Queue.Due(s.delayed, c.at), x);
    }
  }

  lemma LaterStamped(s: State, t: nat)
    requires Stamped(s) && s.now <= t
    ensures Stamped(At(s, t))
  {
  }

  lemma DisconnectCloses(cfg: Config, s: State, cid: nat, io: Io, x: nat)
    requires x in s.conns && x in Disconnect(cfg, s, cid, io).conns
    ensures Disconnect(cfg, s, cid, io).conns[x].closing == s.conns[x].closing
  {
    hide Leave, WithoutFrames;
    if cid in s.conns && s.conns[cid].player.Some? && s.conns[cid].player.value in s.players {
      var p := s.conns[cid].player.value;
      var out := s.(delayed := WithoutFrames(s.delayed, cid), conns := s.conns - {cid});
      LeaveMoves(cfg, out.(players := s.players[p := s.players[p].(connection := None, offline := Some(s.now))]), p, true, io);
    }
  }

  /** Datagrams move sessions and rates, and nothing else of a connection. */
  lemma DatagramCloses(cfg: Config, s: State, c: Action, x: nat)
    requires c.Arrived? && x in s.conns
    ensures var t := Udp.Datagram(cfg, s, c.bytes, c.source, c.nonce).0;
      x in t.conns && t.conns[x].closing == s.conns[x].closing
  {
    hide Udp.Sensible, Udp.Signed, Udp.Live, Rates.Accept, AntiReplay.Admit, Udp.Spread, Udp.Data;
    if Udp.Genuine(cfg, s, c.bytes) {
      var pk := Udp.Fields(c.bytes);
      Channel.MeteredLive(cfg, s, c.bytes);
      Meters.GenuineLive(cfg, s, c.bytes);
      LiveSession(s, pk.cid);
      var (m, ok) := Udp.Metered(cfg, s.conns[pk.cid], pk.sequence, s.now);
      if ok && pk.kind == Udp.DATA {
        DataCloses(cfg, s.(conns := s.conns[pk.cid := m]), pk.cid, c.source, pk.target, pk.payload, x);
      }
    }
  }

  lemma LiveSession(s: State, cid: nat)
    requires Udp.Live(s, cid)
    ensures cid in s.conns && s.conns[cid].udp.Some?
  {
  }

  lemma DataCloses(cfg: Config, s: State, cid: nat, source: Address, target: Id, payload: seq<byte>, x: nat)
    requires Udp.Live(s, cid) && x in s.conns
    ensures var t := Udp.Data(cfg, s, cid, source, target, payload).0;
      x in t.conns && t.conns[x].closing == s.conns[x].closing
  {
    Channel.DataMoves(cfg, s, cid, source, target, payload);
    hide Udp.Data;
  }

  // ---- runs

  /**
   * In every run a socket is closing exactly when some earlier command, since it was opened, made it close: the server's
   * own closing, a message that offends, or a login that moved its account to another socket.
   */
  lemma {:induction false} ClosingExactly(cfg: Config, r: Run, j: nat, x: nat)
    requires IsRun(cfg, r) && j < |r.states| && x in r.states[j].conns
    ensures r.states[j].conns[x].closing <==>
      exists i :: 0 <= i < j && x in r.states[i].conns && Closes(cfg, r.states[i], r.steps[i], x)
  {
    hide Next, Lawful, Stamped, Paired, Queue.Sorted, Closes, Onward;
    var s, c := r.states[j - 1], r.steps[j - 1];
    RunStamped(cfg, r, j - 1);
    assert Lawful(cfg, s, c);
    if x in s.conns {
      ClosingExactly(cfg, r, j - 1, x);
      StepCloses(cfg, s, c, x);
    } else {
      FreshSocket(cfg, r, j, x);
    }
  }

  /** A socket that was not there before is a new one. */
  lemma FreshSocket(cfg: Config, r: Run, j: nat, x: nat)
    requires IsRun(cfg, r) && 0 < j < |r.states| && x in r.states[j].conns && x !in r.states[j - 1].conns
    ensures !r.states[j].conns[x].closing
    ensures forall i :: 0 <= i < j ==> x !in r.states[i].conns
  {
    hide Next, Lawful, Onward;
    assert Lawful(cfg, r.states[j - 1], r.steps[j - 1]);
    NewSocket(cfg, r.states[j - 1], r.steps[j - 1], x);
    forall i | 0 <= i < j ensures x !in r.states[i].conns {
      RunOnward(cfg, r, i, j - 1);
      RunOnward(cfg, r, i, j);
      NotBack(r.states[i], r.states[j - 1], x);
    }
  }

  /** Only a connecting client brings a socket, and it is open. */
  lemma NewSocket(cfg: Config, s: State, c: Step, x: nat)
    requires Lawful(cfg, s, c) && x !in s.conns && x in Next(cfg, s, c).conns
    ensures x !in s.sockets && !Next(cfg, s, c).conns[x].closing
  {
    hide Rules.Sweep, Receive, Disconnect, Udp.Datagram;
    var t := At(s, c.at);
    match c.action {
      case Connected(cid) =>
      case Disconnected(cid, io) => Meters.DisconnectMeters(cfg, t, cid, io);
      case Received(cid, frame) => Meters.ReceiveMeters(cfg, t, cid, frame);
      case Arrived(bytes, source, nonce) => Safety.DatagramChangesSessions(cfg, t, bytes, source, nonce);
      case Closed(cid) =>
      case Swept(order) => Meters.SweepMeters(cfg, t, order);
    }
  }

  lemma NotBack(s: State, t: State, x: nat)
    requires Onward(s, t) && x !in t.sockets
    ensures x !in s.conns
  {
  }

  /** From the command on that makes a socket close, no message on it changes anything and no frame of it is handed over. */
  lemma ClosingIsDeaf(cfg: Config, r: Run, i: nat, j: nat, x: nat)
    requires IsRun(cfg, r) && i < j < |r.steps| && x in r.states[i].conns && Closes(cfg, r.states[i], r.steps[i], x)
    ensures var s, c := r.states[j], r.steps[j];
      && (c.action.Received? && c.action.cid == x ==> Next(cfg, s, c) == At(s, c.at))
      && forall frame, w :: !Hands(cfg, s, c, x, frame, w)
  {
    hide Next, Lawful, Closes, Stamped, Paired, Onward;
    var s, c := r.states[j], r.steps[j];
    RunOnward(cfg, r, i, j);
    RunStamped(cfg, r, j);
    if x in s.conns { ClosingExactly(cfg, r, j, x); }
    DeafNow(cfg, s, c, x);
  }

  lemma DeafNow(cfg: Config, s: State, c: Step, x: nat)
    requires x in s.conns ==> s.conns[x].closing
    ensures c.action.Received? && c.action.cid == x ==> Next(cfg, s, c) == At(s, c.at)
    ensures forall frame, w :: !Hands(cfg, s, c, x, frame, w)
  {
    hide Queue.Released, Process;
    forall frame, w ensures !Hands(cfg, s, c, x, frame, w) {
      if c.action.Swept? && exists m :: HandsQueued(cfg, s, c, m, x, frame, w) {
        var m :| HandsQueued(cfg, s, c, m, x, frame, w);
        DeafHalfway(cfg, s, c, m, x);
      }
    }
  }

  lemma DeafHalfway(cfg: Config, s: State, c: Step, m: nat, x: nat)
    requires (x in s.conns ==> s.conns[x].closing) && m < |s.delayed| && s.delayed[m].cid == x
    ensures !QueueRuns.Runs(Halfway(cfg, s, c, m), s.delayed[m])
  {
    hide Queue.Released;
    var start := At(s, c.at).(delayed := []);
    Opening.ReleasedSockets(cfg, start, s.delayed, m);
    if x in s.conns { ReleasedCloses(cfg, start, s.delayed, m, x); }
  }
}

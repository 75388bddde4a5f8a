/** Accounts without a socket: since when they are offline, and exactly when they are forgotten. */
module Absence {
  import opened Model
  import opened Rules
  import opened Invariants
  import opened Relay
  import opened Presence
  import opened Handling
  import Opening
  import Preservation
  import Queue
  import QueueRuns
  import Reach
  import Safety
  import Udp

  /** The same accounts, each on its socket or offline since the same time. */
  ghost predicate SameStamps(players: map<Id, Player>, after: map<Id, Player>) {
    && after.Keys == players.Keys
    && forall p :: p in players ==> after[p].connection == players[p].connection && after[p].offline == players[p].offline
  }

  lemma StampsOn(a: map<Id, Player>, b: map<Id, Player>, c: map<Id, Player>)
    requires SameStamps(a, b) && SameStamps(b, c)
    ensures SameStamps(a, c)
  {
  }

  lemma LeaveStamps(cfg: Config, s: State, p: Id, disconnected: bool, io: Io)
    requires p in s.players
    ensures SameStamps(s.players, Leave(cfg, s, p, disconnected, io).players)
  {
    LeaveMoves(cfg, s, p, disconnected, io);
  }

  lemma DispatchStamps(cfg: Config, s: State, cid: nat, frame: Frame)
    ensures SameStamps(s.players, Dispatch(cfg, s, cid, frame).players)
  {
    hide Create, Enter, Leave, InRoom, Binary;
    if cid in s.conns && s.conns[cid].player.Some? && s.conns[cid].player.value in s.players {
      var p := s.conns[cid].player.value;
      if frame.body.RequestBody? {
        var q, io := frame.body.request, frame.io;
        if q.CreateRoom? { CreateStamps(cfg, s, p, q, io); }
        else if q.EnterRoom? { EnteredPlayers(cfg, s, p, q.id, q.password, io); }
        else if q.LeaveRoom? { LeaveStamps(cfg, s, p, false, io); }
        else { InRoomStays(cfg, s, p, q, io); }
      } else if frame.body.BinaryBody? {
        BinaryStays(s, p, frame.body.bytes);
      }
    }
  }

  lemma CreateStamps(cfg: Config, s: State, p: Id, q: Request, io: Io)
    requires p in s.players && q.CreateRoom?
    ensures SameStamps(s.players, Create(cfg, s, p, q.id, q.info, q.max, q.password, q.fits, io).players)
  {
    hide Enter;
    var begun := s.(rooms := s.rooms[q.id := NewRoom(q.info, p, q.max, q.password, s.now)], issued := s.issued + {q.id});
    EnteredPlayers(cfg, begun, p, q.id, q.password, io);
  }

  lemma BinaryStays(s: State, p: Id, bytes: seq<byte>)
    requires p in s.players
    ensures Binary(s, p, bytes).players == s.players
  {
  }

  lemma {:induction false} ReleasedStamps(cfg: Config, s: State, queue: seq<Delayed>, n: nat)
    requires n <= |queue|
    ensures SameStamps(s.players, Queue.Released(cfg, s, queue, n).players)
  {
    hide Release;
    if n > 0 {
      var t := Queue.Released(cfg, s, queue, n - 1);
      ReleasedStamps(cfg, s, queue, n - 1);
      ReleaseStamps(cfg, t, queue[n - 1]);
      StampsOn(s.players, t.players, Queue.Released(cfg, s, queue, n).players);
    }
  }

  lemma ReleaseStamps(cfg: Config, s: State, d: Delayed)
    ensures SameStamps(s.players, Release(cfg, s, d).players)
  {
    hide Dispatch;
    if d.cid in s.conns { DispatchStamps(cfg, Discharged(s, d), d.cid, d.frame); }
  }

  // ---- one command

  /** At its expiry: offline for the account lifetime, and on no roster of a fixed game in memory. */
  predicate Overdue(cfg: Config, s: State, p: Id)
    requires p in s.players
  {
    && s.players[p].connection.None? && s.players[p].offline.Some?
    && s.now >= s.players[p].offline.value + cfg.accountTtl
    && forall id | id in s.rooms :: s.rooms[id].fixed ==> p !in s.rooms[id].players
  }

  lemma ExpireForgets(cfg: Config, s: State)
    requires forall p :: p in s.players && s.players[p].offline.Some? ==> s.players[p].offline.value <= s.now
    ensures var t := Expire(cfg, s);
      && (forall p :: p in s.players ==> (p !in t.players <==> Overdue(cfg, s, p)))
      && (forall p :: p in t.players ==> p in s.players && t.players[p] == s.players[p])
      && t.accounts == s.accounts && t.conns == s.conns && t.now == s.now
  {
  }

  /** Is the message the account's own login, which finds its stored record? */
  predicate LogsBackIn(cfg: Config, s: State, c: Credentials, io: Io, p: Id) {
    && c.Login? && c.key == p && cfg.stored && io.readable && p in s.accounts && s.accounts[p] == c.password
  }

  /** Stamps never lie ahead of the clock, and whoever has a socket carries none. */
  ghost predicate Stamped(s: State) {
    forall p :: p in s.players ==>
      if s.players[p].connection.Some? then s.players[p].offline.None?
      else s.players[p].offline.Some? && s.players[p].offline.value <= s.now
  }

  lemma BindStamps(cfg: Config, s: State, cid: nat, key: Id, io: Io)
    requires cid in s.conns && key in s.players
    ensures Bind(cfg, s, cid, key, io).players == s.players[key := s.players[key].(connection := Some(cid), offline := None)]
  {
  }

  lemma TakeOverStamps(cfg: Config, s: State, cid: nat, key: Id, io: Io)
    requires cid in s.conns && key in s.players
    ensures var t := TakeOver(cfg, s, cid, key, io);
      && t.players.Keys == s.players.Keys
      && t.players[key].connection == Some(cid) && t.players[key].offline.None?
      && forall p :: p in s.players && p != key ==>
           t.players[p].connection == s.players[p].connection && t.players[p].offline == s.players[p].offline
  {
    hide Leave, Bind;
    if InFixedGame(s, key) {
      LeaveStamps(cfg, s, key, true, io);
      Reach.LeaveIsContained(cfg, s, key, true, io);
      BindStamps(cfg, Leave(cfg, s, key, true, io), cid, key, io);
    } else {
      BindStamps(cfg, s, cid, key, io);
    }
  }

  /** The accounts after one of them, `key`, moved to a socket. */
  ghost predicate OnlyMoved(players: map<Id, Player>, after: map<Id, Player>, key: Id) {
    && after.Keys == players.Keys + {key}
    && after[key].connection.Some? && after[key].offline.None?
    && forall p :: p in players && p != key ==>
         after[p].connection == players[p].connection && after[p].offline == players[p].offline
  }

  lemma LogInMoves(cfg: Config, s: State, cid: nat, key: Id, exact: bool, password: Json, io: Io)
    requires cid in s.conns
    ensures var t := LogIn(cfg, s, cid, key, exact, password, io);
      && t.now == s.now
      && if Account(cfg, s, key, exact, io).Some? && Account(cfg, s, key, exact, io).value.secret == password then
           OnlyMoved(s.players, t.players, key)
         else t.players == s.players
  {
    hide TakeOver;
    var account := Account(cfg, s, key, exact, io);
    if account.Some? && account.value.secret == password {
      var u := s.(players := s.players[key := account.value]);
      TakeOverStamps(cfg, u, cid, key, io);
      TakeOverClock(cfg, u, cid, key, io);
    }
  }

  lemma GuestMoves(cfg: Config, s: State, cid: nat, id: Id, secret: Json, io: Io)
    requires cid in s.conns
    ensures var t := Bind(cfg, s.(players := s.players[id := Player(secret, None, None, None, Some(s.now), 0)]), cid, id, io);
      t.now == s.now && OnlyMoved(s.players, t.players, id)
  {
    hide Bind;
    var u := s.(players := s.players[id := Player(secret, None, None, None, Some(s.now), 0)]);
    BindStamps(cfg, u, cid, id, io);
    BindClock(cfg, u, cid, id, io);
  }

  lemma MovedAt(players: map<Id, Player>, after: map<Id, Player>, key: Id, p: Id)
    requires OnlyMoved(players, after, key)
    ensures p == key ==> p in after && after[p].connection.Some? && after[p].offline.None?
    ensures p != key ==> (p in after <==> p in players)
    ensures p != key && p in players ==> after[p].connection == players[p].connection && after[p].offline == players[p].offline
  {
  }

  /** What a message that authenticates does to account `p`: it forgets it if it is overdue, and stamps nobody. */
  ghost predicate Greeted(cfg: Config, s: State, t: State, c: Credentials, io: Io, p: Id) {
    && (p in s.players ==> (p !in t.players <==> Overdue(cfg, s, p) && !LogsBackIn(cfg, s, c, io, p)))
    && (p in t.players && t.players[p].connection.None? ==>
          p in s.players && s.players[p].connection.None? && t.players[p].offline == s.players[p].offline)
    && (p in t.players && t.players[p].connection.Some? ==>
          t.players[p].offline.None?
          || (p in s.players && s.players[p].connection.Some? && t.players[p].offline == s.players[p].offline))
  }

  lemma LogInGreets(cfg: Config, s: State, cid: nat, c: Credentials, io: Io, p: Id)
    requires Stamped(s) && cid in s.conns && c.Login?
    ensures Greeted(cfg, s, LogIn(cfg, Expire(cfg, s), cid, c.key, c.exact, c.password, io), c, io, p)
  {
    hide Expire, LogIn, Overdue, OnlyMoved;
    var known := Expire(cfg, s);
    ExpireForgets(cfg, s);
    LogInMoves(cfg, known, cid, c.key, c.exact, c.password, io);
    var account := Account(cfg, known, c.key, c.exact, io);
    if account.Some? && account.value.secret == c.password {
      MovedAt(known.players, LogIn(cfg, known, cid, c.key, c.exact, c.password, io).players, c.key, p);
    }
  }

  lemma GuestGreets(cfg: Config, s: State, cid: nat, c: Credentials, io: Io, p: Id)
    requires Stamped(s) && cid in s.conns && c.Guest? && c.id !in s.players
    ensures Greeted(cfg, s, Authenticate(cfg, s, cid, c, io), c, io, p)
  {
    hide Expire, Bind, Overdue, OnlyMoved, Closing;
    var known := Expire(cfg, s);
    ExpireForgets(cfg, s);
    ClosingKeeps(known, cid);
    if |known.players| < cfg.maxAccounts {
      GuestMoves(cfg, known, cid, c.id, c.secret, io);
      MovedAt(known.players, Authenticate(cfg, s, cid, c, io).players, c.id, p);
    }
  }

  lemma AuthenticateStamps(cfg: Config, s: State, cid: nat, c: Credentials, io: Io, p: Id)
    requires Stamped(s) && cid in s.conns && (c.Guest? ==> c.id !in s.players)
    ensures Greeted(cfg, s, Authenticate(cfg, s, cid, c, io), c, io, p)
  {
    hide Expire, LogIn, Bind, Overdue, Closing, Greeted;
    if c.Login? { LogInGreets(cfg, s, cid, c, io, p); } else { GuestGreets(cfg, s, cid, c, io, p); }
  }

  lemma ClosingKeeps(s: State, cid: nat)
    ensures Closing(s, cid).players == s.players
  {
  }

  lemma TakeOverClock(cfg: Config, s: State, cid: nat, key: Id, io: Io)
    requires cid in s.conns && key in s.players
    ensures TakeOver(cfg, s, cid, key, io).now == s.now
  {
    hide Leave, Bind;
    if InFixedGame(s, key) {
      Reach.LeaveIsContained(cfg, s, key, true, io);
      BindClock(cfg, Leave(cfg, s, key, true, io), cid, key, io);
    } else {
      BindClock(cfg, s, cid, key, io);
    }
  }

  lemma BindClock(cfg: Config, s: State, cid: nat, key: Id, io: Io)
    requires cid in s.conns && key in s.players
    ensures Bind(cfg, s, cid, key, io).now == s.now
  {
  }

  /** The account loses the socket that it is on. */
  ghost predicate LosesSocket(s: State, c: Step, p: Id) {
    && c.action.Disconnected? && p in s.players && s.players[p].connection == Some(c.action.cid)
    && c.action.cid in s.conns && s.conns[c.action.cid].player == Some(p)
  }

  /** The state in which the command runs its expiry, if it runs one. */
  ghost function AtExpiry(cfg: Config, s: State, c: Step): State
  {
    if c.action.Swept? && Queue.Due(s.delayed, c.at) <= |s.delayed| then
      var n := Queue.Due(s.delayed, c.at);
      var mid := Halfway(cfg, s, c, n);
      KeepAll(cfg, mid.(delayed := s.delayed[n..], rooms := Tidied(mid.rooms, c.at)), c.action.order)
    else At(s, c.at)
  }

  predicate Expires(cfg: Config, s: State, c: Step) {
    c.action.Swept? || (c.action.Received? && Introduces(cfg, At(s, c.at), c.action.cid, c.action.frame))
  }

  /** The account is overdue when command `c` runs its expiry, and the command is not its own login from disk. */
  ghost predicate Forgets(cfg: Config, s: State, c: Step, p: Id) {
    && Expires(cfg, s, c) && p in AtExpiry(cfg, s, c).players && Overdue(cfg, AtExpiry(cfg, s, c), p)
    && (c.action.Received? ==> !LogsBackIn(cfg, s, c.action.frame.body.credentials, c.action.frame.io, p))
  }

  /** What one command does to the presence of account `p`. */
  ghost predicate Marks(cfg: Config, s: State, c: Step, t: State, p: Id) {
    && (p in s.players ==> (p !in t.players <==> Forgets(cfg, s, c, p)))
    && (p in t.players && t.players[p].connection.None? ==>
          || (p in s.players && s.players[p].connection.None? && t.players[p].offline == s.players[p].offline)
          || (LosesSocket(s, c, p) && t.players[p].offline == Some(c.at)))
    && (p in t.players && t.players[p].connection.Some? ==>
          t.players[p].offline.None? || (p in s.players && s.players[p].connection.Some? && t.players[p].offline == s.players[p].offline))
  }

  lemma SameMarks(cfg: Config, s: State, c: Step, t: State, p: Id)
    requires SameStamps(s.players, t.players) && !Expires(cfg, s, c)
    ensures Marks(cfg, s, c, t, p)
  {
    hide AtExpiry;
  }

  lemma DisconnectMarks(cfg: Config, s: State, c: Step, p: Id)
    requires Paired(s.players, s.conns) && c.action.Disconnected?
    ensures Marks(cfg, s, c, Next(cfg, s, c), p)
  {
    hide Leave, WithoutFrames, AtExpiry;
    var t, cid, io := At(s, c.at), c.action.cid, c.action.io;
    if cid in s.conns && s.conns[cid].player.Some? && s.conns[cid].player.value in s.players
       && s.players[s.conns[cid].player.value].connection == Some(cid) {
      var q := s.conns[cid].player.value;
      var gone := t.(delayed := WithoutFrames(s.delayed, cid), conns := s.conns - {cid},
                     players := s.players[q := s.players[q].(connection := None, offline := Some(c.at))]);
      LeaveStamps(cfg, gone, q, true, io);
    }
  }

  lemma ReceivedMarks(cfg: Config, s: State, c: Step, p: Id)
    requires Stamped(s) && s.now <= c.at && c.action.Received? && Lawful(cfg, s, c)
    ensures Marks(cfg, s, c, Next(cfg, s, c), p)
  {
    hide Dispatch, Authenticate, AtOnce, Introduces, Receive, Overdue, Counted, Displacing;
    var t, cid, frame := At(s, c.at), c.action.cid, c.action.frame;
    ReceiveCases(cfg, t, cid, frame);
    if AtOnce(cfg, t, cid, frame) {
      NotBoth(cfg, t, cid, frame);
      DispatchStamps(cfg, CountedState(t, cid), cid, frame);
      SameMarks(cfg, s, c, Next(cfg, s, c), p);
    } else if Introduces(cfg, t, cid, frame) {
      Opening.IntroducesHeard(cfg, t, cid, frame);
      AuthenticateStamps(cfg, CountedState(t, cid), cid, frame.body.credentials, frame.io, p);
      SameOverdue(cfg, t, CountedState(t, cid), p);
    } else {
      SameMarks(cfg, s, c, Next(cfg, s, c), p);
    }
  }

  lemma NotBoth(cfg: Config, s: State, cid: nat, frame: Frame)
    requires AtOnce(cfg, s, cid, frame)
    ensures !Introduces(cfg, s, cid, frame) && cid in s.conns
  {
  }

  lemma SameOverdue(cfg: Config, s: State, t: State, p: Id)
    requires t.players == s.players && t.rooms == s.rooms && t.now == s.now
    ensures p in s.players ==> (Overdue(cfg, s, p) <==> Overdue(cfg, t, p))
  {
  }

  lemma SweptMarks(cfg: Config, s: State, c: Step, p: Id)
    requires Stamped(s) && s.now <= c.at && c.action.Swept? && Queue.Sorted(s.delayed)
    ensures Marks(cfg, s, c, Next(cfg, s, c), p)
  {
    hide Queue.Released, KeepAll, Expire, Sweep, Tidied, Overdue, Queue.Sorted;
    var t := At(s, c.at);
    var start, n := t.(delayed := []), Queue.Due(s.delayed, c.at);
    SweepIs(cfg, t, c.action.order);
    var mid := Queue.Released(cfg, start, s.delayed, n);
    ReleasedStamps(cfg, start, s.delayed, n);
    Queue.ReleasedKeepsQueue(cfg, start, s.delayed, n);
    var tidy := mid.(delayed := s.delayed[n..], rooms := Tidied(mid.rooms, t.now));
    KeepAllStays(cfg, tidy, c.action.order);
    ExpireForgets(cfg, KeepAll(cfg, tidy, c.action.order));
  }

  lemma StepMarks(cfg: Config, s: State, c: Step, p: Id)
    requires Stamped(s) && Paired(s.players, s.conns) && Lawful(cfg, s, c) && Queue.Sorted(s.delayed)
    ensures Marks(cfg, s, c, Next(cfg, s, c), p)
  {
    hide Sweep, Receive, Disconnect, Udp.Datagram, Marks, Paired, Queue.Sorted, Stamped;
    var t := At(s, c.at);
    match c.action {
      case Connected(cid) => SameMarks(cfg, s, c, Next(cfg, s, c), p);
      case Disconnected(cid, io) => DisconnectMarks(cfg, s, c, p);
      case Received(cid, frame) => ReceivedMarks(cfg, s, c, p);
      case Arrived(bytes, source, nonce) =>
        Safety.DatagramChangesSessions(cfg, t, bytes, source, nonce);
        SameMarks(cfg, s, c, Next(cfg, s, c), p);
      case Closed(cid) => SameMarks(cfg, s, c, Next(cfg, s, c), p);
      case Swept(order) => SweptMarks(cfg, s, c, p);
    }
  }

  // ---- runs

  lemma {:induction false} RunStamped(cfg: Config, r: Run, i: nat)
    requires IsRun(cfg, r) && i < |r.states|
    ensures Stamped(r.states[i]) && Queue.Sorted(r.states[i].delayed) && Paired(r.states[i].players, r.states[i].conns)
  {
    hide Next, Lawful, Paired, Queue.Sorted;
    QueueRuns.RunSorted(cfg, r, i);
    if i > 0 {
      RunStamped(cfg, r, i - 1);
      assert Lawful(cfg, r.states[i - 1], r.steps[i - 1]);
      QueueRuns.LawfulClock(cfg, r, i - 1);
      QueueRuns.StepClock(cfg, r, i - 1);
      forall p | p in r.states[i].players
        ensures if r.states[i].players[p].connection.Some? then r.states[i].players[p].offline.None?
                else r.states[i].players[p].offline.Some? && r.states[i].players[p].offline.value <= r.states[i].now
      {
        StepMarks(cfg, r.states[i - 1], r.steps[i - 1], p);
      }
    }
  }

  /**
   * In every run a player without a socket is stamped with the time of the command that took its last socket from it,
   * and has been without one ever since.
   */
  lemma {:induction false} OfflineSince(cfg: Config, r: Run, j: nat, p: Id) returns (i: nat)
    requires IsRun(cfg, r) && j < |r.states| && p in r.states[j].players && r.states[j].players[p].connection.None?
    ensures i < j && LosesSocket(r.states[i], r.steps[i], p)
    ensures r.states[j].players[p].offline == Some(r.steps[i].at)
    ensures forall x :: i < x <= j ==> p in r.states[x].players && r.states[x].players[p].connection.None?
  {
    hide Next, Lawful, Stamped, Paired, Queue.Sorted, Forgets, LosesSocket;
    RunStamped(cfg, r, j - 1);
    assert Lawful(cfg, r.states[j - 1], r.steps[j - 1]);
    StepMarks(cfg, r.states[j - 1], r.steps[j - 1], p);
    if LosesSocket(r.states[j - 1], r.steps[j - 1], p) && r.states[j].players[p].offline == Some(r.steps[j - 1].at) {
      i := j - 1;
    } else {
      i := OfflineSince(cfg, r, j - 1, p);
    }
  }

  /**
   * In every run an account goes from memory with command `j` exactly when the command runs an expiry, the account
   * lost its last socket the account lifetime or longer ago, it is on no roster of a fixed game in memory, and it is
   * not logging in with that very command. `i` is the command that took its last socket, if it has none.
   */
  lemma ForgottenInTime(cfg: Config, r: Run, j: nat, p: Id) returns (i: nat)
    requires IsRun(cfg, r) && j < |r.steps| && p in r.states[j].players
    ensures var s, c := r.states[j], r.steps[j];
      if s.players[p].connection.Some? then p in r.states[j + 1].players
      else
        && i < j && LosesSocket(r.states[i], r.steps[i], p)
        && (p !in r.states[j + 1].players <==>
              && Expires(cfg, s, c) && c.at >= r.steps[i].at + cfg.accountTtl
              && (forall id :: id in AtExpiry(cfg, s, c).rooms && AtExpiry(cfg, s, c).rooms[id].fixed ==>
                    p !in AtExpiry(cfg, s, c).rooms[id].players)
              && (c.action.Received? ==> !LogsBackIn(cfg, s, c.action.frame.body.credentials, c.action.frame.io, p)))
  {
    hide Next, Lawful, Stamped, Paired, Queue.Sorted, LosesSocket, Expires, LogsBackIn, AtExpiry;
    i := 0;
    RunStamped(cfg, r, j);
    assert Lawful(cfg, r.states[j], r.steps[j]);
    StepMarks(cfg, r.states[j], r.steps[j], p);
    ExpiryKeepsStamps(cfg, r.states[j], r.steps[j]);
    if r.states[j].players[p].connection.None? { i := OfflineSince(cfg, r, j, p); }
  }

  /** Up to its expiry a sweep keeps every account and its stamp. */
  lemma ExpiryKeepsStamps(cfg: Config, s: State, c: Step)
    ensures SameStamps(s.players, AtExpiry(cfg, s, c).players) && AtExpiry(cfg, s, c).now == c.at
  {
    hide Queue.Released, KeepAll, Tidied;
    if c.action.Swept? && Queue.Due(s.delayed, c.at) <= |s.delayed| {
      var start, n := At(s, c.at).(delayed := []), Queue.Due(s.delayed, c.at);
      ReleasedStamps(cfg, start, s.delayed, n);
      Queue.ReleasedKeepsQueue(cfg, start, s.delayed, n);
      var mid := Queue.Released(cfg, start, s.delayed, n);
      KeepAllStays(cfg, mid.(delayed := s.delayed[n..], rooms := Tidied(mid.rooms, c.at)), c.action.order);
    }
  }
}

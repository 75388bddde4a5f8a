/** The delayed queue over whole runs: order, fencing and exact accounting. */
module Queue {
  import opened Model
  import opened Rules
  import opened Invariants
  import opened Reach
  import opened Relay
  import opened Presence
  import Preservation
  import Safety
  import Udp

  // ---- who touches the queue

  lemma ReleaseKeepsQueue(cfg: Config, s: State, d: Delayed)
    ensures Release(cfg, s, d).delayed == s.delayed && Release(cfg, s, d).now == s.now
    ensures SameButUdp(if d.cid in s.conns then Discharged(s, d).conns else s.conns, Release(cfg, s, d).conns)
    ensures SameHolders(s, Release(cfg, s, d))
  {
    hide Dispatch;
    if d.cid in s.conns { DispatchIsContained(cfg, Discharged(s, d), d.cid, d.frame); }
  }

  /** The entries at the head of the queue that are due. */
  function Due(queue: seq<Delayed>, now: nat): nat {
    if queue == [] || queue[0].at > now then 0 else 1 + Due(queue[1..], now)
  }

  predicate Sorted(queue: seq<Delayed>) {
    forall i, j :: 0 <= i < j < |queue| ==> queue[i].at <= queue[j].at
  }

  lemma {:induction false} DueBounds(queue: seq<Delayed>, now: nat)
    ensures Due(queue, now) <= |queue|
  {
    if queue != [] { DueBounds(queue[1..], now); }
  }

  /** Entries that are not due are put back in order. */
  lemma {:induction false} PutBack(cfg: Config, s: State, queue: seq<Delayed>)
    requires forall i :: 0 <= i < |queue| ==> queue[i].at > s.now
    ensures Drain(cfg, s, queue) == s.(delayed := s.delayed + queue)
    decreases |queue|
  {
    if queue == [] {
      assert s.delayed + queue == s.delayed;
    } else {
      var t := s.(delayed := s.delayed + [queue[0]]);
      PutBack(cfg, t, queue[1..]);
      assert t.delayed + queue[1..] == s.delayed + queue;
    }
  }

  /** The state after the first `n` entries of the queue were released, in order. */
  ghost function Released(cfg: Config, s: State, queue: seq<Delayed>, n: nat): State
    requires n <= |queue|
  {
    if n == 0 then s else Release(cfg, Released(cfg, s, queue, n - 1), queue[n - 1])
  }

  lemma {:induction false} ReleasedShift(cfg: Config, s: State, queue: seq<Delayed>, n: nat)
    requires 0 < n <= |queue|
    ensures Released(cfg, s, queue, n) == Released(cfg, Release(cfg, s, queue[0]), queue[1..], n - 1)
  {
    hide Release;
    if n > 1 { ReleasedShift(cfg, s, queue, n - 1); }
  }

  lemma {:induction false} ReleasedKeepsQueue(cfg: Config, s: State, queue: seq<Delayed>, n: nat)
    requires n <= |queue|
    ensures Released(cfg, s, queue, n).delayed == s.delayed && Released(cfg, s, queue, n).now == s.now
  {
    hide Release;
    if n > 0 {
      ReleasedKeepsQueue(cfg, s, queue, n - 1);
      ReleaseKeepsQueue(cfg, Released(cfg, s, queue, n - 1), queue[n - 1]);
    }
  }

  /** Draining a sorted queue releases its due head in order and leaves the rest as it was. */
  lemma {:induction false} DrainSplits(cfg: Config, s: State, queue: seq<Delayed>)
    requires Sorted(queue)
    ensures Due(queue, s.now) <= |queue|
    ensures var n := Due(queue, s.now);
      && Drain(cfg, s, queue) == Released(cfg, s, queue, n).(delayed := s.delayed + queue[n..])
      && (forall i :: 0 <= i < n ==> queue[i].at <= s.now)
      && (forall i :: n <= i < |queue| ==> queue[i].at > s.now)
    decreases |queue|
  {
    hide Release;
    DueBounds(queue, s.now);
    var n := Due(queue, s.now);
    if queue == [] {
    } else if queue[0].at > s.now {
      PutBack(cfg, s, queue);
      assert queue[0..] == queue;
    } else {
      var t := Release(cfg, s, queue[0]);
      ReleaseKeepsQueue(cfg, s, queue[0]);
      DrainSplits(cfg, t, queue[1..]);
      ReleasedShift(cfg, s, queue, n);
      assert queue[1..][n - 1..] == queue[n..];
      forall i | 0 <= i < |queue| ensures i < n ==> queue[i].at <= s.now {
        if i > 0 { assert queue[i] == queue[1..][i - 1]; }
      }
      forall i | n <= i < |queue| ensures queue[i].at > s.now { assert queue[i] == queue[1..][i - 1]; }
    }
  }

  // ---- one command

  /** The entry that the command puts at the end of the queue. */
  ghost function Queued(cfg: Config, before: State, c: Step): seq<Delayed> {
    var s := At(before, c.at);
    if c.action.Received? && c.action.cid in s.conns && Joins(cfg, s, c.action.cid, c.action.frame) then
      [Waiting(cfg, s, c.action.cid, c.action.frame)]
    else []
  }

  /** Is the frame queued rather than refused, answered or dispatched at once? */
  predicate Joins(cfg: Config, s: State, cid: nat, frame: Frame)
    requires cid in s.conns
  {
    var c := s.conns[cid];
    && !c.closing && c.player.Some? && Current(s, cid)
    && Counted(c, s.now).messages <= cfg.maxMessages
    && frame.size <= cfg.maxPayload
    && (frame.body.RequestBody? || (frame.body.BinaryBody? && cfg.Fits(frame.size)))
    && cfg.delay > 0 && frame.body != RequestBody(Pong)
    && c.delayed + frame.size <= cfg.maxBuffered && c.pending < cfg.maxMessages
  }

  /** The entries that the command takes from the head of the queue to release them. */
  function Leaving(s: State, c: Step): seq<Delayed>
  {
    DueBounds(s.delayed, c.at);
    if c.action.Swept? then s.delayed[..Due(s.delayed, c.at)] else []
  }

  /** `a` is `b` with some entries left out. */
  predicate Within(a: seq<Delayed>, b: seq<Delayed>) {
    || a == []
    || (b != [] && (Within(a, b[..|b| - 1]) || (a[|a| - 1] == b[|b| - 1] && Within(a[..|a| - 1], b[..|b| - 1]))))
  }

  lemma {:induction false} WithinSelf(a: seq<Delayed>)
    ensures Within(a, a)
  {
    if a != [] { WithinSelf(a[..|a| - 1]); }
  }

  lemma {:induction false} WithinOn(a: seq<Delayed>, b: seq<Delayed>, c: seq<Delayed>)
    requires Within(a, b) && Within(b, c)
    ensures Within(a, c)
    decreases |c|
  {
    if a != [] {
      var c' := c[..|c| - 1];
      if Within(b, c') {
        WithinOn(a, b, c');
      } else {
        var b' := b[..|b| - 1];
        if Within(a, b') { WithinOn(a, b', c'); } else { WithinOn(a[..|a| - 1], b', c'); }
      }
    }
  }

  lemma {:induction false} WithinPrefixed(x: seq<Delayed>, a: seq<Delayed>, b: seq<Delayed>)
    requires Within(a, b)
    ensures Within(x + a, x + b)
    decreases |b|
  {
    if a == [] {
      assert x + a == x;
      if b == [] { assert x + b == x; WithinSelf(x); }
      else {
        WithinPrefixed(x, a, b[..|b| - 1]);
        assert (x + b)[..|x + b| - 1] == x + b[..|b| - 1];
      }
    } else {
      assert (x + b)[..|x + b| - 1] == x + b[..|b| - 1];
      assert (x + a)[..|x + a| - 1] == x + a[..|a| - 1];
      if Within(a, b[..|b| - 1]) { WithinPrefixed(x, a, b[..|b| - 1]); }
      else { WithinPrefixed(x, a[..|a| - 1], b[..|b| - 1]); }
    }
  }

  lemma WithinAppended(a: seq<Delayed>, b: seq<Delayed>, d: Delayed)
    requires Within(a, b)
    ensures Within(a + [d], b + [d])
  {
    assert (a + [d])[..|a|] == a && (b + [d])[..|b|] == b;
  }

  lemma {:induction false} FilteredIsWithin(queue: seq<Delayed>, cid: nat)
    ensures Within(WithoutFrames(queue, cid), queue)
  {
    if queue != [] {
      var front, d := queue[..|queue| - 1], queue[|queue| - 1];
      FilteredIsWithin(front, cid);
      WithinAppended(WithoutFrames(front, cid), front, d);
      assert queue == front + [d];
      assert d.cid == cid ==> Within(WithoutFrames(front, cid), queue);
    }
  }

  lemma {:induction false} FilteredIsSorted(queue: seq<Delayed>, cid: nat)
    requires Sorted(queue)
    ensures Sorted(WithoutFrames(queue, cid))
  {
    if queue != [] {
      var front, d := queue[..|queue| - 1], queue[|queue| - 1];
      FilteredIsSorted(front, cid);
      var rest := WithoutFrames(front, cid);
      forall x | x in rest ensures x.at <= d.at { assert x in front; }
    }
  }

  // ---- how one command changes the queue

  /** A socket that has no account yet, or still serves it. */
  predicate Unreplaced(s: State, cid: nat) {
    cid in s.conns && (s.conns[cid].player.None? || Current(s, cid))
  }

  /** The queue lost at most the frames of one socket, and that socket has been replaced. */
  ghost predicate LosesReplaced(s: State, t: State) {
    t.delayed == s.delayed || exists gone :: t.delayed == WithoutFrames(s.delayed, gone) && !Unreplaced(t, gone)
  }

  /** What logging in on `cid` does to the queue: frames of the replaced socket go. */
  lemma AuthenticateQueue(cfg: Config, s: State, cid: nat, c: Credentials, io: Io)
    requires cid in s.conns && s.conns[cid].player.None? && Paired(s.players, s.conns)
    requires (c.Guest? ==> c.id !in s.players)
    ensures LosesReplaced(s, Authenticate(cfg, s, cid, c, io))
  {
    hide Expire, TakeOver, LosesReplaced, Paired;
    var known := Expire(cfg, s);
    ExpirePaired(cfg, s);
    if c.Login? {
      var account := Account(cfg, known, c.key, c.exact, io);
      if account.Some? {
        var u := known.(players := known.players[c.key := account.value]);
        assert Paired(u.players, u.conns) by { AccountPaired(known, c.key, account.value); }
        TakeOverQueue(cfg, u, cid, c.key, io);
        LosesAlike(u, s, TakeOver(cfg, u, cid, c.key, io));
      }
      LosesNothing(s, LogIn(cfg, known, cid, c.key, c.exact, c.password, io));
    } else {
      LosesNothing(s, Authenticate(cfg, s, cid, c, io));
    }
  }

  lemma ExpirePaired(cfg: Config, s: State)
    requires Paired(s.players, s.conns)
    ensures var t := Expire(cfg, s);
      && Paired(t.players, t.conns) && t.conns == s.conns && t.delayed == s.delayed && t.players.Keys <= s.players.Keys
  {
  }

  lemma AccountPaired(s: State, key: Id, pl: Player)
    requires Paired(s.players, s.conns) && ((key in s.players && pl == s.players[key]) || pl.connection.None?)
    ensures Paired(s.players[key := pl], s.conns)
  {
  }

  lemma LosesNothing(s: State, t: State)
    ensures t.delayed == s.delayed ==> LosesReplaced(s, t)
  {
  }

  lemma LosesAlike(u: State, s: State, t: State)
    requires LosesReplaced(u, t) && u.delayed == s.delayed
    ensures LosesReplaced(s, t)
  {
  }

  lemma TakeOverQueue(cfg: Config, s: State, cid: nat, key: Id, io: Io)
    requires cid in s.conns && s.conns[cid].player.None? && key in s.players && Paired(s.players, s.conns)
    ensures LosesReplaced(s, TakeOver(cfg, s, cid, key, io))
  {
    hide Leave;
    var t := TakeOver(cfg, s, cid, key, io);
    if InFixedGame(s, key) { LeaveIsContained(cfg, s, key, true, io); }
    if s.players[key].connection.Some? {
      var gone := s.players[key].connection.value;
      assert gone in s.conns && gone != cid;
      assert t.conns[gone].player == Some(key) && t.players[key].connection == Some(cid);
      assert t.delayed == WithoutFrames(s.delayed, gone) && !Unreplaced(t, gone);
    }
  }

  lemma DisconnectQueue(cfg: Config, s: State, cid: nat, io: Io)
    ensures var t := Disconnect(cfg, s, cid, io);
      t.delayed == if cid in s.conns then WithoutFrames(s.delayed, cid) else s.delayed
  {
    hide Leave;
    if cid in s.conns && s.conns[cid].player.Some? && s.conns[cid].player.value in s.players {
      var p := s.conns[cid].player.value;
      var out := s.(delayed := WithoutFrames(s.delayed, cid), conns := s.conns - {cid});
      LeaveIsContained(cfg, out.(players := s.players[p := s.players[p].(connection := None, offline := Some(s.now))]), p, true, io);
    }
  }

  lemma ReceiveQueue(cfg: Config, s: State, cid: nat, frame: Frame)
    requires cid in s.conns && Paired(s.players, s.conns) && Admissible(s, frame)
    ensures var t := Receive(cfg, s, cid, frame);
      if Joins(cfg, s, cid, frame) then t.delayed == s.delayed + [Waiting(cfg, s, cid, frame)] else LosesReplaced(s, t)
  {
    hide Dispatch, Authenticate, Paired;
    var out := s.(conns := s.conns[cid := Counted(s.conns[cid], s.now)]);
    if s.conns[cid].player.None? {
      if frame.body.AuthBody? {
        CountedPaired(s, cid);
        AuthenticateQueue(cfg, out, cid, frame.body.credentials, frame.io);
      }
    } else {
      DispatchIsContained(cfg, out, cid, frame);
    }
  }

  lemma CountedPaired(s: State, cid: nat)
    requires cid in s.conns && Paired(s.players, s.conns)
    ensures Paired(s.players, s.conns[cid := Counted(s.conns[cid], s.now)])
  {
  }

  lemma SweepQueue(cfg: Config, s: State, order: seq<(Id, Io)>)
    requires Sorted(s.delayed)
    ensures Due(s.delayed, s.now) <= |s.delayed|
    ensures Sweep(cfg, s, order).delayed == s.delayed[Due(s.delayed, s.now)..]
  {
    hide Drain, KeepAll, Expire;
    var start := s.(delayed := []);
    var drained := Drain(cfg, start, s.delayed);
    DrainSplits(cfg, start, s.delayed);
    assert [] + s.delayed[Due(s.delayed, s.now)..] == s.delayed[Due(s.delayed, s.now)..];
    var tidy := drained.(rooms := Tidied(drained.rooms, s.now));
    KeepAllStays(cfg, tidy, order);
    ExpireIs(cfg, KeepAll(cfg, tidy, order));
  }

  /** The queue `after` a command: the head `released`, some entries of dead sockets gone, `added` at the end. */
  ghost predicate Turns(queue: seq<Delayed>, released: seq<Delayed>, after: seq<Delayed>, added: seq<Delayed>) {
    && Within(released + after, queue + added)
    && (forall d :: d in after ==> d in queue || d in added)
    && (Sorted(queue) && (forall a, d :: a in added && d in queue ==> d.at <= a.at) && |added| <= 1 ==> Sorted(after))
  }

  lemma TurnsFiltered(queue: seq<Delayed>, cid: nat)
    ensures Turns(queue, [], WithoutFrames(queue, cid), [])
  {
    FilteredIsWithin(queue, cid);
    if Sorted(queue) { FilteredIsSorted(queue, cid); }
    assert queue + [] == queue && [] + WithoutFrames(queue, cid) == WithoutFrames(queue, cid);
  }

  lemma TurnsSplit(queue: seq<Delayed>, n: nat)
    requires n <= |queue|
    ensures Turns(queue, queue[..n], queue[n..], [])
  {
    WithinSelf(queue);
    assert queue[..n] + queue[n..] == queue && queue + [] == queue;
  }

  lemma SortedSnoc(queue: seq<Delayed>, d: Delayed)
    requires Sorted(queue) && forall x :: x in queue ==> x.at <= d.at
    ensures Sorted(queue + [d])
  {
    assert forall i :: 0 <= i < |queue| ==> queue[i] in queue;
  }

  lemma TurnsAdded(queue: seq<Delayed>, d: Delayed)
    ensures Turns(queue, [], queue + [d], [d])
  {
    hide Within, Sorted;
    WithinSelf(queue + [d]);
    if Sorted(queue) && forall x :: x in queue ==> x.at <= d.at { SortedSnoc(queue, d); }
    assert [] + (queue + [d]) == queue + [d];
  }

  lemma ReceiveTurns(cfg: Config, s: State, cid: nat, frame: Frame)
    requires Paired(s.players, s.conns) && Admissible(s, frame)
    ensures Turns(s.delayed, [], Receive(cfg, s, cid, frame).delayed,
      if cid in s.conns && Joins(cfg, s, cid, frame) then [Waiting(cfg, s, cid, frame)] else [])
  {
    hide Receive, Turns, Joins, Waiting, WithoutFrames, Paired;
    TurnsSplit(s.delayed, 0);
    assert s.delayed[..0] == [] && s.delayed[0..] == s.delayed;
    if cid in s.conns {
      ReceiveQueue(cfg, s, cid, frame);
      if Joins(cfg, s, cid, frame) {
        assert Current(s, cid) by { JoinsCurrent(cfg, s, cid, frame); }
        TurnsAdded(s.delayed, Waiting(cfg, s, cid, frame));
      } else {
        var t := Receive(cfg, s, cid, frame);
        if t.delayed != s.delayed {
          var gone :| t.delayed == WithoutFrames(s.delayed, gone);
          TurnsFiltered(s.delayed, gone);
        }
      }
    } else {
      ReceiveUnknown(cfg, s, cid, frame);
    }
  }

  lemma JoinsCurrent(cfg: Config, s: State, cid: nat, frame: Frame)
    requires cid in s.conns && Joins(cfg, s, cid, frame)
    ensures Current(s, cid) && Waiting(cfg, s, cid, frame).at == s.now + cfg.delay
  {
  }

  lemma ReceiveUnknown(cfg: Config, s: State, cid: nat, frame: Frame)
    requires cid !in s.conns
    ensures Receive(cfg, s, cid, frame) == s
  {
  }

  lemma StepTurns(cfg: Config, s: State, c: Step)
    requires Sorted(s.delayed) && Paired(s.players, s.conns) && Lawful(cfg, s, c)
    ensures Turns(s.delayed, Leaving(s, c), Next(cfg, s, c).delayed, Queued(cfg, s, c))
  {
    hide Rules.Sweep, Rules.Receive, Rules.Disconnect, Udp.Datagram, Turns, Waiting, Joins, WithoutFrames;
    var t := At(s, c.at);
    TurnsSplit(s.delayed, 0);
    assert s.delayed[..0] == [] && s.delayed[0..] == s.delayed;
    match c.action {
      case Connected(cid) =>
      case Disconnected(cid, io) => DisconnectQueue(cfg, t, cid, io); TurnsFiltered(s.delayed, cid);
      case Received(cid, frame) => ReceiveTurns(cfg, t, cid, frame);
      case Arrived(bytes, source, nonce) => Safety.DatagramChangesSessions(cfg, t, bytes, source, nonce);
      case Closed(cid) =>
      case Swept(order) => SweepQueue(cfg, t, order); TurnsSplit(s.delayed, Due(s.delayed, c.at));
    }
  }
}

/** The store under load: saves that count, a quota that is met, sweeps that save what waits, and accounts that last. */
module Stores {
  import opened Model
  import opened Rules
  import opened Invariants
  import opened Relay
  import opened Presence
  import opened Worlds
  import opened Handling
  import opened Absence
  import Files
  import Losses
  import Opening
  import Pruning
  import Queue
  import QueueRuns
  import Quota
  import Reach
  import Safety
  import Sockets
  import Stalls
  import Udp

  // ---- the quota

  /** A world's file counts with exactly the bytes that are written for it. */
  lemma SizeIsFileLength(c: Files.Codec, r: Room)
    ensures Saved(r, |c.encode(ToWorld(r))|).size == |Files.Write(c, ToWorld(r))|
    ensures Saved(r, |c.encode(ToWorld(r))|).world == Some(ToWorld(r))
  {
  }

  /** With no removal failing, pruning goes on until the quota is met or nothing inactive is left. */
  lemma {:induction false} PrunesEnough(disk: map<Id, File>, active: set<Id>, quota: nat, removals: nat)
    requires removals >= |disk|
    ensures var left := disk - Pruning.Elements(Quota.Evicted(disk, active, quota, removals));
      Quota.Total(left) <= quota || left.Keys <= active
    decreases disk.Keys
  {
    hide Quota.Total, Quota.Evicted, Quota.Oldest, Pruning.Elements;
    if Quota.Total(disk) <= quota || Quota.Candidates(disk, active) == {} {
      NothingGoes(disk, active, quota, removals);
    } else {
      SomeFile(disk, active);
      var a := Pruning.EvictedSplits(disk, active, quota, removals);
      OldestIsThere(disk, active, a);
      Smaller(disk, a);
      PrunesEnough(disk - {a}, active, quota, removals - 1);
      GoneSplits(disk, a, Quota.Evicted(disk - {a}, active, quota, removals - 1));
    }
  }

  lemma NothingGoes(disk: map<Id, File>, active: set<Id>, quota: nat, removals: nat)
    requires Quota.Total(disk) <= quota || Quota.Candidates(disk, active) == {}
    ensures disk - Pruning.Elements(Quota.Evicted(disk, active, quota, removals)) == disk
    ensures Quota.Candidates(disk, active) == {} ==> disk.Keys <= active
  {
    hide Quota.Total;
    assert Pruning.Elements([]) == {};
    assert disk - {} == disk;
  }

  lemma SomeFile(disk: map<Id, File>, active: set<Id>)
    requires Quota.Candidates(disk, active) != {}
    ensures |disk| > 0
  {
    var a :| a in Quota.Candidates(disk, active);
    assert a in disk;
  }

  lemma OldestIsThere(disk: map<Id, File>, active: set<Id>, a: Id)
    requires Quota.Oldest(disk, active, a)
    ensures a in disk
  {
  }

  lemma GoneSplits(disk: map<Id, File>, a: Id, rest: seq<Id>)
    ensures disk - Pruning.Elements([a] + rest) == disk - {a} - Pruning.Elements(rest)
  {
    assert Pruning.Elements([a] + rest) == {a} + Pruning.Elements(rest);
  }

  lemma Smaller(disk: map<Id, File>, a: Id)
    requires a in disk
    ensures |disk - {a}| == |disk| - 1
  {
    assert (disk - {a}).Keys == disk.Keys - {a};
    assert |disk| == |disk.Keys| && |disk - {a}| == |(disk - {a}).Keys|;
  }

  /**
   * A save leaves the store within its quota, or with no file that is not of a room in memory: the world that was saved
   * is on disk as it was in memory, or was evicted with the others.
   */
  lemma SaveMeetsQuota(cfg: Config, s: State, id: Id, r: Room, io: Io)
    requires cfg.stored && r.persistent && r.active == [] && io.save.Some? && io.removals > |s.disk|
    ensures var t := Keep(cfg, s, id, r, io);
      && t.rooms == s.rooms
      && (Quota.Total(t.disk) <= cfg.quota || t.disk.Keys <= s.rooms.Keys)
      && (forall x :: x in t.disk ==>
            if x == id then t.disk[x] == Saved(r, io.save.value) else x in s.disk && t.disk[x] == s.disk[x])
      && (forall x :: (x in s.disk || x == id) && x !in t.disk ==> x in t.evicted && x !in t.jobs && x !in s.rooms)
  {
    hide Quota.Total, Quota.Evicted;
    assert forall gone :: Pruning.Elements(gone) == set x | x in gone;
    var disk := s.disk[id := Saved(r, io.save.value)];
    assert disk.Keys == s.disk.Keys + {id};
    assert |disk| == |disk.Keys| && |s.disk| == |s.disk.Keys|;
    PrunesEnough(disk, s.rooms.Keys, cfg.quota, io.removals);
  }

  // ---- sweeps

  /** The order in which the sweep meets the empty rooms names this one. */
  predicate Met(order: seq<(Id, Io)>, id: Id) {
    exists k :: 0 <= k < |order| && order[k].0 == id
  }

  lemma {:induction false} KeepAllSaves(cfg: Config, s: State, order: seq<(Id, Io)>, id: Id)
    requires forall k :: 0 <= k < |order| ==> order[k].1.save.Some?
    requires id in s.rooms && s.rooms[id].active == [] && s.rooms[id].persistent && Met(order, id)
    ensures id !in KeepAll(cfg, s, order).rooms
    decreases |order|
  {
    hide Quota.Evicted;
    var (x, io) := order[0];
    var out := if x in s.rooms && s.rooms[x].persistent && s.rooms[x].active == []
               then Keep(cfg, s.(rooms := s.rooms - {x}), x, s.rooms[x], io) else s;
    assert order[0].1.save.Some?;
    if x == id {
      KeepAllLeavesOut(cfg, out, order[1..], id);
    } else {
      var k :| 0 <= k < |order| && order[k].0 == id;
      assert order[1..][k - 1].0 == id;
      KeepAllSaves(cfg, out, order[1..], id);
    }
  }

  lemma {:induction false} KeepAllLeavesOut(cfg: Config, s: State, order: seq<(Id, Io)>, id: Id)
    requires id !in s.rooms
    ensures id !in KeepAll(cfg, s, order).rooms
    decreases |order|
  {
    hide Quota.Evicted;
    if order != [] {
      var (x, io) := order[0];
      var out := if x in s.rooms && s.rooms[x].persistent && s.rooms[x].active == []
                 then Keep(cfg, s.(rooms := s.rooms - {x}), x, s.rooms[x], io) else s;
      KeepAllLeavesOut(cfg, out, order[1..], id);
    }
  }

  /** A sweep that meets every room that waits, with no save failing, leaves none waiting in memory. */
  lemma SweepSavesWaiting(cfg: Config, r: Run, i: nat)
    requires IsRun(cfg, r) && i < |r.steps| && r.steps[i].action.Swept?
    requires Queue.Due(r.states[i].delayed, r.steps[i].at) <= |r.states[i].delayed|
    requires forall k :: 0 <= k < |r.steps[i].action.order| ==> r.steps[i].action.order[k].1.save.Some?
    requires var mid := Halfway(cfg, r.states[i], r.steps[i], Queue.Due(r.states[i].delayed, r.steps[i].at));
      forall id :: id in mid.rooms && mid.rooms[id].active == [] ==> Met(r.steps[i].action.order, id)
    ensures NoneWaits(r.states[i + 1])
  {
    hide Core, Queue.Released, KeepAll, Expire, Rules.Sweep, DrainAdmissible, Queue.Sorted, Met;
    var s, c := r.states[i], r.steps[i];
    var t, n := At(s, c.at), Queue.Due(s.delayed, c.at);
    assert Lawful(cfg, s, c);
    QueueRuns.RunSorted(cfg, r, i);
    SweepIs(cfg, t, c.action.order);
    Safety.RunHolds(cfg, r, i);
    Losses.StartHolds(s, c.at);
    var mid := Halfway(cfg, s, c, n);
    Sockets.ReleasedHolds(cfg, t.(delayed := []), s.delayed, n);
    Queue.ReleasedKeepsQueue(cfg, t.(delayed := []), s.delayed, n);
    var tidy := mid.(delayed := s.delayed[n..], rooms := Tidied(mid.rooms, t.now));
    var after := r.states[i + 1];
    forall id | id in after.rooms ensures after.rooms[id].active != [] {
      StillInMemory(cfg, KeepAll(cfg, tidy, c.action.order), id);
      Stalls.KeepAllUploads(cfg, tidy, c.action.order, id);
      if mid.rooms[id].active == [] {
        Losses.EmptyIsPersistent(mid, id);
        KeepAllSaves(cfg, tidy, c.action.order, id);
      }
    }
  }

  lemma StillInMemory(cfg: Config, s: State, id: Id)
    requires id in Expire(cfg, s).rooms
    ensures id in s.rooms && Expire(cfg, s).rooms[id].active == s.rooms[id].active
  {
  }

  // ---- accounts on disk

  /** Memory and disk agree on secrets. */
  ghost predicate SameSecrets(s: State) {
    forall p :: p in s.players && p in s.accounts ==> s.players[p].secret == s.accounts[p]
  }

  /** Accounts on disk stay, with their secrets, and accounts in memory keep theirs. */
  ghost predicate Lasts(s: State, t: State) {
    && (forall p :: p in s.accounts ==> p in t.accounts && t.accounts[p] == s.accounts[p])
    && (forall p :: p in s.players && p in t.players ==> t.players[p].secret == s.players[p].secret)
    && SameSecrets(t)
  }

  /** The same accounts on disk, and in memory some of them, or others than before that are on disk. */
  lemma LastsWhen(s: State, t: State)
    requires SameSecrets(s) && t.accounts == s.accounts
    requires forall p :: p in t.players ==> p in s.players && t.players[p].secret == s.players[p].secret
    ensures Lasts(s, t)
  {
  }

  lemma BindLasts(cfg: Config, s: State, known: State, cid: nat, key: Id, io: Io)
    requires SameSecrets(s) && SameSecrets(known) && known.accounts == s.accounts && cid in known.conns && key in known.players
    requires forall p :: p in s.players && p in known.players ==> known.players[p].secret == s.players[p].secret
    ensures Lasts(s, Bind(cfg, known, cid, key, io))
  {
  }

  lemma LogInLasts(cfg: Config, s: State, known: State, cid: nat, c: Credentials, io: Io)
    requires SameSecrets(s) && known == Expire(cfg, s) && cid in known.conns && c.Login?
    ensures Lasts(s, LogIn(cfg, known, cid, c.key, c.exact, c.password, io))
  {
    hide Expire, Leave, Bind;
    ExpireKeeps(cfg, s);
    var account := Account(cfg, known, c.key, c.exact, io);
    if account.Some? && account.value.secret == c.password {
      var u := known.(players := known.players[c.key := account.value]);
      if InFixedGame(u, c.key) {
        LeaveMoves(cfg, u, c.key, true, io);
        BindLasts(cfg, s, Leave(cfg, u, c.key, true, io), cid, c.key, io);
      } else {
        BindLasts(cfg, s, u, cid, c.key, io);
      }
    }
  }

  lemma ExpireKeeps(cfg: Config, s: State)
    ensures var t := Expire(cfg, s);
      && t.accounts == s.accounts && t.conns == s.conns
      && forall p :: p in t.players ==> p in s.players && t.players[p] == s.players[p]
  {
  }

  lemma AuthenticateLasts(cfg: Config, s: State, cid: nat, c: Credentials, io: Io)
    requires SameSecrets(s) && cid in s.conns && (c.Guest? ==> c.id !in s.players && c.id !in s.accounts)
    ensures Lasts(s, Authenticate(cfg, s, cid, c, io))
  {
    hide Expire, LogIn, Bind;
    var known := Expire(cfg, s);
    ExpireKeeps(cfg, s);
    if c.Login? {
      LogInLasts(cfg, s, known, cid, c, io);
    } else if |known.players| < cfg.maxAccounts {
      BindLasts(cfg, s, known.(players := known.players[c.id := Player(c.secret, None, None, None, Some(s.now), 0)]), cid, c.id, io);
    }
  }

  ghost predicate SameAccounts(s: State, t: State) {
    && t.accounts == s.accounts && t.players.Keys == s.players.Keys
    && forall p :: p in s.players ==> t.players[p].secret == s.players[p].secret
  }

  lemma DispatchAccounts(cfg: Config, s: State, cid: nat, frame: Frame)
    ensures SameAccounts(s, Dispatch(cfg, s, cid, frame))
  {
    hide Create, Enter, Leave, InRoom, Binary;
    Reach.DispatchIsContained(cfg, s, cid, frame);
    if cid in s.conns && s.conns[cid].player.Some? && s.conns[cid].player.value in s.players {
      var p := s.conns[cid].player.value;
      if frame.body.RequestBody? {
        var q, io := frame.body.request, frame.io;
        if q.CreateRoom? { CreateAccounts(cfg, s, p, q, io); }
        else if q.EnterRoom? { EnteredPlayers(cfg, s, p, q.id, q.password, io); }
        else if q.LeaveRoom? { LeaveMoves(cfg, s, p, false, io); }
        else { InRoomStays(cfg, s, p, q, io); }
      } else if frame.body.BinaryBody? {
        BinaryStays(s, p, frame.body.bytes);
      }
    }
  }

  lemma CreateAccounts(cfg: Config, s: State, p: Id, q: Request, io: Io)
    requires p in s.players && q.CreateRoom?
    ensures var t := Create(cfg, s, p, q.id, q.info, q.max, q.password, q.fits, io);
      t.players.Keys == s.players.Keys && forall x :: x in s.players ==> t.players[x].secret == s.players[x].secret
  {
    hide Enter;
    var begun := s.(rooms := s.rooms[q.id := NewRoom(q.info, p, q.max, q.password, s.now)], issued := s.issued + {q.id});
    EnteredPlayers(cfg, begun, p, q.id, q.password, io);
  }

  lemma {:induction false} ReleasedAccounts(cfg: Config, s: State, queue: seq<Delayed>, n: nat)
    requires n <= |queue|
    ensures SameAccounts(s, Queue.Released(cfg, s, queue, n))
  {
    hide Release;
    if n > 0 {
      ReleasedAccounts(cfg, s, queue, n - 1);
      ReleaseAccounts(cfg, Queue.Released(cfg, s, queue, n - 1), queue[n - 1]);
    }
  }

  lemma ReleaseAccounts(cfg: Config, s: State, d: Delayed)
    ensures SameAccounts(s, Release(cfg, s, d))
  {
    hide Dispatch;
    if d.cid in s.conns { DispatchAccounts(cfg, Discharged(s, d), d.cid, d.frame); }
  }

  lemma {:induction false} KeepAllAccounts(cfg: Config, s: State, order: seq<(Id, Io)>)
    ensures KeepAll(cfg, s, order).accounts == s.accounts
    decreases |order|
  {
    hide Quota.Evicted;
    if order != [] {
      var (x, io) := order[0];
      var out := if x in s.rooms && s.rooms[x].persistent && s.rooms[x].active == []
                 then Keep(cfg, s.(rooms := s.rooms - {x}), x, s.rooms[x], io) else s;
      KeepAllAccounts(cfg, out, order[1..]);
    }
  }

  lemma DisconnectAccounts(cfg: Config, s: State, cid: nat, io: Io)
    ensures SameAccounts(s, Disconnect(cfg, s, cid, io))
  {
    hide Leave, WithoutFrames;
    if cid in s.conns && s.conns[cid].player.Some? && s.conns[cid].player.value in s.players {
      var p := s.conns[cid].player.value;
      var out := s.(delayed := WithoutFrames(s.delayed, cid), conns := s.conns - {cid});
      LeaveMoves(cfg, out.(players := s.players[p := s.players[p].(connection := None, offline := Some(s.now))]), p, true, io);
    }
  }

  lemma StepLasts(cfg: Config, s: State, c: Step)
    requires SameSecrets(s) && Lawful(cfg, s, c) && Queue.Sorted(s.delayed)
    ensures Lasts(s, Next(cfg, s, c))
  {
    hide Rules.Sweep, Receive, Disconnect, Udp.Datagram, Queue.Sorted, SameSecrets, Lasts;
    var t := At(s, c.at);
    match c.action {
      case Connected(cid) => LastsWhen(s, Next(cfg, s, c));
      case Disconnected(cid, io) => DisconnectAccounts(cfg, t, cid, io); LastsWhen(s, Next(cfg, s, c));
      case Received(cid, frame) => ReceivedLasts(cfg, s, c);
      case Arrived(bytes, source, nonce) =>
        Safety.DatagramChangesSessions(cfg, t, bytes, source, nonce);
        LastsWhen(s, Next(cfg, s, c));
      case Closed(cid) => LastsWhen(s, Next(cfg, s, c));
      case Swept(order) => SweptLasts(cfg, s, c);
    }
  }

  lemma ReceivedLasts(cfg: Config, s: State, c: Step)
    requires SameSecrets(s) && Lawful(cfg, s, c) && c.action.Received?
    ensures Lasts(s, Next(cfg, s, c))
  {
    hide Receive, Dispatch, Authenticate, AtOnce, Introduces, Counted, Displacing, SameSecrets, Lasts;
    var t, cid, frame := At(s, c.at), c.action.cid, c.action.frame;
    ReceiveCases(cfg, t, cid, frame);
    if AtOnce(cfg, t, cid, frame) {
      Opening.AtOnceServes(cfg, t, cid, frame);
      DispatchAccounts(cfg, CountedState(t, cid), cid, frame);
      LastsWhen(s, Next(cfg, s, c));
    } else if Introduces(cfg, t, cid, frame) {
      Opening.IntroducesHeard(cfg, t, cid, frame);
      SecretsMoved(s, CountedState(t, cid));
      AuthenticateLasts(cfg, CountedState(t, cid), cid, frame.body.credentials, frame.io);
      LastsFrom(s, CountedState(t, cid), Next(cfg, s, c));
    } else {
      UnmovedAccounts(cfg, t, cid, frame);
      LastsWhen(s, Next(cfg, s, c));
    }
  }

  lemma SecretsMoved(s: State, t: State)
    requires SameSecrets(s) && t.players == s.players && t.accounts == s.accounts
    ensures SameSecrets(t)
  {
  }

  lemma LastsFrom(s: State, t: State, u: State)
    requires Lasts(t, u) && t.players == s.players && t.accounts == s.accounts
    ensures Lasts(s, u)
  {
  }

  lemma UnmovedAccounts(cfg: Config, s: State, cid: nat, frame: Frame)
    requires !AtOnce(cfg, s, cid, frame) && !Introduces(cfg, s, cid, frame)
    ensures Receive(cfg, s, cid, frame).accounts == s.accounts
  {
    hide Dispatch, Authenticate, Waiting;
  }

  lemma SweptLasts(cfg: Config, s: State, c: Step)
    requires SameSecrets(s) && Queue.Sorted(s.delayed) && c.action.Swept?
    ensures Lasts(s, Next(cfg, s, c))
  {
    hide Queue.Released, KeepAll, Expire, Rules.Sweep, Tidied, Queue.Sorted, SameSecrets, Lasts;
    var t := At(s, c.at);
    var start, n := t.(delayed := []), Queue.Due(s.delayed, c.at);
    SweepIs(cfg, t, c.action.order);
    var mid := Queue.Released(cfg, start, s.delayed, n);
    ReleasedAccounts(cfg, start, s.delayed, n);
    var tidy := mid.(delayed := s.delayed[n..], rooms := Tidied(mid.rooms, t.now));
    KeepAllStays(cfg, tidy, c.action.order);
    KeepAllAccounts(cfg, tidy, c.action.order);
    ExpireKeeps(cfg, KeepAll(cfg, tidy, c.action.order));
    LastsWhen(s, Next(cfg, s, c));
  }

  lemma {:induction false} RunSecrets(cfg: Config, r: Run, i: nat)
    requires IsRun(cfg, r) && i < |r.states|
    ensures SameSecrets(r.states[i])
  {
    hide Next, Lawful, Queue.Sorted;
    if i > 0 {
      RunSecrets(cfg, r, i - 1);
      QueueRuns.RunSorted(cfg, r, i - 1);
      assert Lawful(cfg, r.states[i - 1], r.steps[i - 1]);
      StepLasts(cfg, r.states[i - 1], r.steps[i - 1]);
    }
  }

  /**
   * In every run an account on disk stays there with its secret, whatever becomes of it in memory, and its record in memory
   * never has another secret: so a saved account can always log in with the secret it was given.
   */
  lemma {:induction false} AccountsLast(cfg: Config, r: Run, i: nat, j: nat, p: Id)
    requires IsRun(cfg, r) && i <= j < |r.states| && p in r.states[i].accounts
    ensures p in r.states[j].accounts && r.states[j].accounts[p] == r.states[i].accounts[p]
    ensures p in r.states[j].players ==> r.states[j].players[p].secret == r.states[i].accounts[p]
    decreases j
  {
    hide Next, Lawful, Queue.Sorted;
    RunSecrets(cfg, r, j);
    if i < j {
      AccountsLast(cfg, r, i, j - 1, p);
      RunSecrets(cfg, r, j - 1);
      QueueRuns.RunSorted(cfg, r, j - 1);
      assert Lawful(cfg, r.states[j - 1], r.steps[j - 1]);
      StepLasts(cfg, r.states[j - 1], r.steps[j - 1]);
    }
  }
}

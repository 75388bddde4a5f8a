/** Sockets and accounts: nobody shares a socket, superseded sockets are harmless, and every lookup succeeds. */
module Sockets {
  import opened Model
  import opened Rules
  import opened Invariants
  import opened Relay
  import Safety
  import Preservation
  import Queue
  import QueueBudget
  import QueueRuns

  /** In no state of any run do two players hold the same socket, and a held socket names its holder. */
  lemma NobodySharesASocket(cfg: Config, r: Run, i: nat, p: Id, q: Id)
    requires IsRun(cfg, r) && i < |r.states|
    requires p in r.states[i].players && q in r.states[i].players && r.states[i].players[p].connection.Some?
    ensures var cid := r.states[i].players[p].connection.value;
      && cid in r.states[i].conns && r.states[i].conns[cid].player == Some(p)
      && (r.states[i].players[q].connection == Some(cid) ==> p == q)
  {
    hide Next, Lawful, Core;
    Safety.RunHolds(cfg, r, i);
  }

  /** When a socket goes that its account no longer uses, no player, no room and no stored world changes. */
  lemma SupersededSocketIsHarmless(cfg: Config, s: State, cid: nat, io: Io)
    requires cid in s.conns && !Current(s, cid)
    ensures var t := Disconnect(cfg, s, cid, io);
      t == s.(conns := s.conns - {cid}, delayed := WithoutFrames(s.delayed, cid))
  {
  }

  /** A message on a socket that its account no longer uses changes nothing at all. */
  lemma SupersededSocketIsMute(cfg: Config, s: State, cid: nat, frame: Frame)
    requires cid in s.conns && s.conns[cid].player.Some? && !Current(s, cid)
    ensures Receive(cfg, s, cid, frame) == s
  {
  }

  /** What a request finds when it runs: its player, on this socket, and the room that the player's record names. */
  ghost predicate Found(s: State, cid: nat) {
    && cid in s.conns && s.conns[cid].player.Some?
    && (var p := s.conns[cid].player.value;
        && p in s.players && s.players[p].connection == Some(cid)
        && (s.players[p].room.Some? ==> s.players[p].room.value in s.rooms && p in s.rooms[s.players[p].room.value].active))
  }

  /** A request that is dispatched at once finds its player and its room. */
  lemma DirectLookupsSucceed(cfg: Config, r: Run, i: nat)
    requires IsRun(cfg, r) && i < |r.steps| && r.steps[i].action.Received?
    requires var c := r.steps[i].action; c.cid in r.states[i].conns && Current(r.states[i], c.cid)
    ensures Found(r.states[i], r.steps[i].action.cid)
  {
    hide Next, Lawful, Core;
    Safety.RunHolds(cfg, r, i);
    FoundIn(r.states[i], r.steps[i].action.cid);
  }

  /** The invariants hold between the releases of one sweep. */
  lemma {:induction false} ReleasedHolds(cfg: Config, s: State, queue: seq<Delayed>, n: nat)
    requires Inv(s) && DrainAdmissible(cfg, s, queue) && n <= Queue.Due(queue, s.now) <= |queue|
    ensures Inv(Queue.Released(cfg, s, queue, n))
    decreases n
  {
    hide Inv, Release, Admissible;
    if n > 0 {
      Safety.ReleaseHolds(cfg, s, queue[0]);
      Queue.ReleaseKeepsQueue(cfg, s, queue[0]);
      Queue.ReleasedShift(cfg, s, queue, n);
      Queue.DueBounds(queue[1..], s.now);
      ReleasedHolds(cfg, Release(cfg, s, queue[0]), queue[1..], n - 1);
    }
  }

  /** So does a delayed one, in the state in which its turn comes. */
  lemma DelayedLookupsSucceed(cfg: Config, r: Run, k: nat, m: nat)
    requires IsRun(cfg, r) && k < |r.steps| && r.steps[k].action.Swept?
    requires m < Queue.Due(r.states[k].delayed, r.steps[k].at) <= |r.states[k].delayed|
    requires QueueRuns.Runs(QueueRuns.Midway(cfg, r, k, m), r.states[k].delayed[m])
    ensures Found(QueueRuns.Midway(cfg, r, k, m), r.states[k].delayed[m].cid)
  {
    hide Next, Core, Queue.Released, DrainAdmissible;
    var start := At(r.states[k], r.steps[k].at).(delayed := []);
    assert Lawful(cfg, r.states[k], r.steps[k]);
    Safety.RunHolds(cfg, r, k);
    QueueBudget.InvAt(r.states[k], r.steps[k].at);
    Preservation.OwnersHold(At(r.states[k], r.steps[k].at), r.states[k].conns, []);
    ReleasedHolds(cfg, start, r.states[k].delayed, m);
    FoundIn(QueueRuns.Midway(cfg, r, k, m), r.states[k].delayed[m].cid);
  }

  lemma FoundIn(s: State, cid: nat)
    requires Inv(s) && cid in s.conns && Current(s, cid)
    ensures Found(s, cid)
  {
  }

  /** A room that is created is entered by its creator and is there afterwards. */
  lemma CreatedRoomIsThere(cfg: Config, s: State, p: Id, id: Id, info: Info, max: nat, password: Option<Json>, io: Io)
    requires p in s.players && s.players[p].room.None? && |s.rooms| < cfg.maxRooms && max > 0 && id !in s.rooms
    ensures var t := Create(cfg, s, p, id, info, max, password, true, io);
      && id in t.rooms && t.rooms[id].active == [p] && t.rooms[id].owner == p && t.players[p].room == Some(id)
      && forall x :: x in s.rooms ==> x in t.rooms && t.rooms[x] == s.rooms[x]
  {
    Preservation.CreateAdmits(cfg, s.(issued := s.issued + {id}), p, id, NewRoom(info, p, max, password, s.now), password, io);
  }

  /** After an account left a fixed game on its way to a new socket it is still known, on its old socket. */
  lemma LeavingKeepsAccounts(cfg: Config, s: State, p: Id, io: Io)
    requires Inv(s) && p in s.players
    ensures SameSockets(s, Leave(cfg, s, p, true, io))
  {
    LeaveHolds(cfg, s, p, true, io);
  }
}

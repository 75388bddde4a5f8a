/** How far a dispatched request reaches outside rooms and players. */
module Reach {
  import opened Model
  import opened Rules
  import opened Invariants

  /** Sockets differ at most in their UDP sessions. */
  ghost predicate SameButUdp(conns: map<nat, Connection>, after: map<nat, Connection>) {
    && after.Keys == conns.Keys
    && forall cid :: cid in conns ==> after[cid] == conns[cid].(udp := after[cid].udp)
  }

  /** Neither the queue nor the clock nor the accounts moved, and sockets changed only in their UDP sessions. */
  ghost predicate Contained(s: State, t: State) {
    && t.delayed == s.delayed && t.now == s.now && t.accounts == s.accounts && t.sockets == s.sockets
    && SameButUdp(s.conns, t.conns)
  }

  /** The players are the same people on the same sockets. */
  ghost predicate SameHolders(s: State, t: State) {
    && t.players.Keys == s.players.Keys
    && forall p :: p in s.players ==> t.players[p].connection == s.players[p].connection
  }

  lemma EnterIsContained(cfg: Config, s: State, p: Id, id: Id, password: Option<Json>, io: Io)
    requires p in s.players
    ensures Contained(s, Enter(cfg, s, p, id, password, io)) && SameHolders(s, Enter(cfg, s, p, id, password, io))
  {
    hide Joined, Refusal, Load;
  }

  lemma LeaveIsContained(cfg: Config, s: State, p: Id, disconnected: bool, io: Io)
    requires p in s.players
    ensures Contained(s, Leave(cfg, s, p, disconnected, io)) && SameHolders(s, Leave(cfg, s, p, disconnected, io))
  {
    LeaveMoves(cfg, s, p, disconnected, io);
  }

  lemma CreateIsContained(cfg: Config, s: State, p: Id, q: Request, io: Io)
    requires p in s.players && q.CreateRoom?
    ensures var t := Create(cfg, s, p, q.id, q.info, q.max, q.password, q.fits, io); Contained(s, t) && SameHolders(s, t)
  {
    var begun := s.(rooms := s.rooms[q.id := NewRoom(q.info, p, q.max, q.password, s.now)], issued := s.issued + {q.id});
    EnterIsContained(cfg, begun, p, q.id, q.password, io);
  }

  lemma InRoomIsContained(cfg: Config, s: State, p: Id, q: Request, io: Io)
    requires p in s.players
    ensures Contained(s, InRoom(cfg, s, p, q, io)) && SameHolders(s, InRoom(cfg, s, p, q, io))
  {
  }

  lemma HandleIsContained(cfg: Config, s: State, cid: nat, p: Id, q: Request, io: Io)
    requires p in s.players && cid in s.conns
    ensures Contained(s, Handle(cfg, s, cid, p, q, io)) && SameHolders(s, Handle(cfg, s, cid, p, q, io))
  {
    if q.CreateRoom? { CreateIsContained(cfg, s, p, q, io); }
    else if q.EnterRoom? { EnterIsContained(cfg, s, p, q.id, q.password, io); }
    else if q.LeaveRoom? { LeaveIsContained(cfg, s, p, false, io); }
    else if !(q.OpenUdp? || q.CloseUdp? || q.Lookup? || q.Pong?) { InRoomIsContained(cfg, s, p, q, io); }
  }

  lemma DispatchIsContained(cfg: Config, s: State, cid: nat, frame: Frame)
    ensures Contained(s, Dispatch(cfg, s, cid, frame)) && SameHolders(s, Dispatch(cfg, s, cid, frame))
  {
    if cid in s.conns && s.conns[cid].player.Some? && s.conns[cid].player.value in s.players && frame.body.RequestBody? {
      HandleIsContained(cfg, s, cid, s.conns[cid].player.value, frame.body.request, frame.io);
    }
  }
}

/** What each command does to the server state, as functions from state to state. */
module Rules {
  import opened Model
  import IndexSet
  import Sessions
  import Quota

  // ---- storage

  datatype Loaded = Missing | Failed | Found(room: Room)

  /** `Store::load`. */
  function Load(cfg: Config, disk: map<Id, File>, id: Id, readable: bool): Loaded {
    if !cfg.stored || id !in disk then Missing
    else if !readable || disk[id].world.None? then Failed
    else Found(FromWorld(disk[id].world.value))
  }

  /** The room file of `r` with a header of `header` bytes, as `Store::save` writes it. */
  function Saved(r: Room, header: nat): File {
    File(Some(ToWorld(r)), 4 + header + |r.state|)
  }

  /** A room taken out of memory: an empty persistent one goes to disk, any other comes back. */
  ghost function Keep(cfg: Config, s: State, id: Id, r: Room, io: Io): State {
    if r.persistent && r.active == [] && io.save.Some? then
      var disk := s.disk[id := Saved(r, io.save.value)];
      var gone := if cfg.stored then Quota.Evicted(disk, s.rooms.Keys, cfg.quota, io.removals) else [];
      s.(disk := disk - (set x | x in gone), jobs := s.jobs - (set x | x in gone), evicted := s.evicted + (set x | x in gone))
    else
      s.(rooms := s.rooms[id := r])
  }

  // ---- membership

  function Refusal(r: Room, p: Id, password: Option<Json>): Option<string> {
    if !r.started && r.closed then Some("room_closed")
    else if r.started && !r.Rejoin(p) then Some("game_started_without_you")
    else if !r.started && password != r.password then Some("wrong_password")
    else if |r.active| >= r.max then Some("full_room")
    else None
  }

  /** The room once `p` is in it; the first to come back to a stored world becomes its owner. */
  function Joined(r: Room, p: Id): Room {
    var awake := if r.persistent && r.active == [] then r.(owner := p, generation := r.generation + 1, upload := None) else r;
    awake.(active := IndexSet.Insert(awake.active, p), reservations := awake.reservations - {p})
  }

  function Inside(pl: Player, id: Id, now: nat): Player {
    pl.(room := Some(id), entered := Some(now), version := pl.version + 1)
  }

  function Outside(pl: Player): Player {
    pl.(room := None, entered := None, version := pl.version + 1)
  }

  /** A refused entry drops an empty persistent room from memory. */
  function Refuse(s: State, id: Id, r: Room): State {
    s.(rooms := if r.active == [] && r.persistent then s.rooms - {id} else s.rooms[id := r])
  }

  function Admit(s: State, p: Id, id: Id, r: Room): State
    requires p in s.players
  {
    s.(rooms := s.rooms[id := Joined(r, p)], players := s.players[p := Inside(s.players[p], id, s.now)])
  }

  /** `enter`: the room comes from memory or from disk. */
  function Enter(cfg: Config, s: State, p: Id, id: Id, password: Option<Json>, io: Io): State
    requires p in s.players
  {
    var loaded := if id in s.rooms then Missing else Load(cfg, s.disk, id, io.readable);
    if s.players[p].room.Some? || (id !in s.rooms && !loaded.Found?) then s
    else
      var r := if id in s.rooms then s.rooms[id] else loaded.room;
      if Refusal(r, p, password).Some? then Refuse(s, id, r) else Admit(s, p, id, r)
  }

  /** Losing its owner ends a fixed game that cannot migrate. */
  predicate Disbands(r: Room, p: Id) {
    r.started && r.fixed && !r.migration && r.owner == p
  }

  function Remaining(r: Room, p: Id): seq<Id> {
    if Disbands(r, p) then [] else IndexSet.Remove(r.active, p)
  }

  /** The room without `p`, before a new owner is chosen. */
  function Without(r: Room, p: Id, disconnected: bool): Room {
    r.(active := Remaining(r, p),
       upload := if r.upload.Some? && r.upload.value.owner == p then None else r.upload,
       reservations := if disconnected && r.started then r.reservations + {p} else r.reservations - {p})
  }

  /** The earliest-entered member takes over a room whose owner left. */
  function Succeeded(r: Room, p: Id): Room {
    if r.owner == p && r.active != [] then r.(owner := r.active[0], generation := r.generation + 1) else r
  }

  /** The members that an owner's departure sends out with it. */
  function Dismissed(r: Room, p: Id): set<Id> {
    if Disbands(r, p) then set q | q in r.active && q != p else {}
  }

  /** The room is taken out of memory and `dismissed` are out of it. */
  function Vacate(s: State, id: Id, dismissed: set<Id>): State {
    s.(rooms := s.rooms - {id},
       players := map q | q in s.players :: if q in dismissed then Outside(s.players[q]) else s.players[q])
  }

  /** The room `left` that `p` left goes back to memory, to disk, or away. */
  ghost function Settle(cfg: Config, s: State, p: Id, id: Id, left: Room, io: Io): State {
    if left.active != [] then s.(rooms := s.rooms[id := Succeeded(left, p)])
    else if left.persistent then Keep(cfg, s, id, left, io)
    else s
  }

  ghost function Depart(cfg: Config, s: State, p: Id, id: Id, disconnected: bool, io: Io): State
    requires id in s.rooms
  {
    var r := s.rooms[id];
    Settle(cfg, Vacate(s, id, Dismissed(r, p)), p, id, Without(r, p, disconnected), io)
  }

  /** `leave`: a member goes, on its own or because its socket went. */
  ghost function Leave(cfg: Config, s: State, p: Id, disconnected: bool, io: Io): State
    requires p in s.players
  {
    var id := s.players[p].room;
    var out := s.(players := s.players[p := Outside(s.players[p])],
                  rooms := if disconnected then s.rooms
                           else map x | x in s.rooms :: s.rooms[x].(reservations := s.rooms[x].reservations - {p}));
    if id.Some? && id.value in s.rooms then Depart(cfg, out, p, id.value, disconnected, io) else out
  }

  function Create(cfg: Config, s: State, p: Id, id: Id, info: Info, max: nat, password: Option<Json>, fits: bool,
          io: Io): State
    requires p in s.players
  {
    if s.players[p].room.Some? || |s.rooms| >= cfg.maxRooms || !fits then s
    else
      var begun := s.(rooms := s.rooms[id := NewRoom(info, p, max, password, s.now)], issued := s.issued + {id});
      Enter(cfg, begun, p, id, password, io)
  }

  // ---- accounts and sockets

  predicate Expired(cfg: Config, s: State, p: Id)
    requires p in s.players
  {
    && s.players[p].connection.None?
    && s.players[p].offline.Some?
    && Minus(s.now, s.players[p].offline.value) >= cfg.accountTtl
    && forall id | id in s.rooms :: !(s.rooms[id].fixed && p in s.rooms[id].players)
  }

  /** `expire`: accounts offline for too long are forgotten, with their reservations. */
  function Expire(cfg: Config, s: State): State {
    var gone := set p | p in s.players && Expired(cfg, s, p);
    s.(players := s.players - gone,
       rooms := map id | id in s.rooms :: s.rooms[id].(reservations := s.rooms[id].reservations - gone))
  }

  function Closing(s: State, cid: nat): State {
    if cid in s.conns then s.(conns := s.conns[cid := s.conns[cid].(closing := true)]) else s
  }

  function WithoutFrames(delayed: seq<Delayed>, cid: nat): (r: seq<Delayed>)
    ensures forall d :: d in r <==> d in delayed && d.cid != cid
  {
    if delayed == [] then []
    else
      var rest := WithoutFrames(delayed[..|delayed| - 1], cid);
      if delayed[|delayed| - 1].cid == cid then rest else rest + [delayed[|delayed| - 1]]
  }

  /** The account that `playerId` names: in memory only as it is spelled there, on disk in any letter case. */
  function Account(cfg: Config, s: State, key: Id, exact: bool, io: Io): Option<Player> {
    if exact && key in s.players then Some(s.players[key])
    else if cfg.stored && io.readable && key in s.accounts then
      Some(Player(s.accounts[key], None, None, None, Some(s.now), 0))
    else None
  }

  /** A proven account moves to socket `cid`; its old socket is closed and its queued frames dropped. */
  function Bind(cfg: Config, s: State, cid: nat, id: Id, io: Io): State
    requires cid in s.conns && id in s.players
  {
    var before := s.players[id].connection;
    var out := if before.Some? then Closing(s, before.value).(delayed := WithoutFrames(s.delayed, before.value)) else s;
    out.(players := out.players[id := out.players[id].(connection := Some(cid), offline := None)],
         conns := out.conns[cid := out.conns[cid].(player := Some(id))],
         accounts := if cfg.stored && io.account then out.accounts[id := out.players[id].secret] else out.accounts)
  }

  predicate InFixedGame(s: State, p: Id)
    requires p in s.players
  {
    && s.players[p].room.Some?
    && s.players[p].room.value in s.rooms
    && s.rooms[s.players[p].room.value].started
    && s.rooms[s.players[p].room.value].fixed
  }

  /** A player of a fixed game leaves it before its account moves to the new socket. */
  ghost function TakeOver(cfg: Config, s: State, cid: nat, key: Id, io: Io): State
    requires cid in s.conns && key in s.players
  {
    Bind(cfg, if InFixedGame(s, key) then Leave(cfg, s, key, true, io) else s, cid, key, io)
  }

  /** The record found takes the place of the one in memory, if there is one. */
  ghost function LogIn(cfg: Config, s: State, cid: nat, key: Id, exact: bool, password: Json, io: Io): State
    requires cid in s.conns
  {
    var account := Account(cfg, s, key, exact, io);
    if cfg.stored && !(exact && key in s.players) && key in s.accounts && !io.readable then s
    else if account.None? || account.value.secret != password then Closing(s, cid)
    else
      TakeOver(cfg, s.(players := s.players[key := account.value]), cid, key, io)
  }

  /** A login, in other letter case, that replaces the record of an account that is in a room. */
  predicate Displaces(cfg: Config, s: State, c: Credentials, io: Io) {
    && c.Login? && !c.exact
    && c.key in s.players && s.players[c.key].room.Some?
    && cfg.stored && io.readable && c.key in s.accounts && s.accounts[c.key] == c.password
  }

  /** `authenticate` on a socket that has no account yet. */
  ghost function Authenticate(cfg: Config, s: State, cid: nat, c: Credentials, io: Io): State
    requires cid in s.conns
  {
    var known := Expire(cfg, s);
    match c
    case Login(key, exact, password) => LogIn(cfg, known, cid, key, exact, password, io)
    case Guest(id, secret) =>
      if |known.players| >= cfg.maxAccounts then Closing(known, cid)
      else Bind(cfg, known.(players := known.players[id := Player(secret, None, None, None, Some(s.now), 0)]), cid, id, io)
  }

  function Connect(s: State, cid: nat): State {
    s.(conns := s.conns[cid := NewConnection(s.now)], sockets := s.sockets + {cid})
  }

  ghost function Disconnect(cfg: Config, s: State, cid: nat, io: Io): State {
    if cid !in s.conns then s
    else
      var who := s.conns[cid].player;
      var out := s.(delayed := WithoutFrames(s.delayed, cid), conns := s.conns - {cid});
      if who.Some? && who.value in s.players && s.players[who.value].connection == Some(cid) then
        var pl := s.players[who.value].(connection := None, offline := Some(s.now));
        Leave(cfg, out.(players := s.players[who.value := pl]), who.value, true, io)
      else out
  }

  // ---- requests

  /** `updateRoom`. */
  function Update(r: Room, p: Id, q: Request): Room
    requires q.UpdateRoom?
  {
    var max := if q.capacity.Some? then q.capacity.value else r.max;
    if r.owner != p || r.started || max < |r.active| || !q.fits then r
    else
      r.(max := max,
         info := if q.name.Some? then r.info.(name := q.name.value) else r.info,
         password := if q.newPassword.Some? then q.newPassword.value else r.password,
         closed := if q.close.Some? then q.close.value else r.closed)
  }

  /** `startGame`: from here on a fixed game's roster is settled. */
  function Start(cfg: Config, r: Room, p: Id, q: Request, now: nat): Room
    requires q.StartGame?
  {
    if r.owner != p || r.started || !q.fits then r
    else
      var migration := q.fixed && q.migration;
      var persistent := cfg.stored && migration && q.persistent;
      r.(started := true, fixed := q.fixed, migration := migration, persistent := persistent,
         start := if persistent then Some(q.data) else None, updated := now,
         players := if q.fixed then r.active else r.players)
  }

  /** The remembered events after `notifyPlayers`; `limited` is the push rate limit's verdict. */
  function Notified(cfg: Config, r: Room, p: Id, q: Request): Room
    requires q.Notify?
  {
    if !cfg.push || r.owner != p || !r.started || !r.fixed || (exists x | x in q.to :: x !in r.players)
       || q.eventId in r.events || q.limited then r
    else r.(events := Sessions.Remember(r.events, q.eventId))
  }

  /** A request inside a room: the room it leaves behind. */
  function RoomRequest(cfg: Config, r: Room, p: Id, q: Request, io: Io, now: nat): Room {
    match q
    case UpdateRoom(_, _, _, _, _) => Update(r, p, q)
    case StartGame(_, _, _, _, _) => Start(cfg, r, p, q, now)
    case SetMeta(meta, fits) => if r.owner == p && fits then r.(info := r.info.(meta := meta)) else r
    case Notify(_, _, _) => Notified(cfg, r, p, q)
    case BeginSession(request, revision, generation, size) =>
      Sessions.Begin(cfg, r, p, request, revision, generation, size, now).0
    case CommitSession(request, scheduled, immediate) =>
      Sessions.Commit(r, p, request, scheduled, immediate, io.jobs, now).0
    case _ => r
  }

  function Jobs(jobs: map<Id, seq<Job>>, id: Id): seq<Job> {
    if id in jobs then jobs[id] else []
  }

  /** The job table after the list of room `id` is replaced. */
  function WithJobs(jobs: map<Id, seq<Job>>, id: Id, list: seq<Job>): map<Id, seq<Job>> {
    if list == [] then jobs - {id} else jobs[id := list]
  }

  function JobsAfter(s: State, id: Id, p: Id, q: Request, io: Io): map<Id, seq<Job>>
    requires id in s.rooms
  {
    var r := s.rooms[id];
    if q.CommitSession? && Sessions.CommitVerdict(r, p, q.request, q.scheduled, q.immediate, io.jobs).Revision? then
      WithJobs(s.jobs, id, Sessions.Merge(Jobs(s.jobs, id), r.events, q.scheduled, q.immediate))
    else s.jobs
  }

  function OpenSession(cfg: Config, s: State, cid: nat, p: Id, secret: seq<byte>): State
    requires p in s.players && cid in s.conns
  {
    if !cfg.udpEnabled || s.players[p].room.None? then s
    else s.(conns := s.conns[cid := s.conns[cid].(udp := Some(NewSession(secret, s.players[p].version)))])
  }

  /** A request that reaches the room of `p`. */
  function InRoom(cfg: Config, s: State, p: Id, q: Request, io: Io): State
    requires p in s.players
  {
    var id := s.players[p].room;
    if id.None? || id.value !in s.rooms then s
    else
      s.(rooms := s.rooms[id.value := RoomRequest(cfg, s.rooms[id.value], p, q, io, s.now)],
         jobs := JobsAfter(s, id.value, p, q, io))
  }

  /** A JSON request of player `p` on its socket `cid`. */
  ghost function Handle(cfg: Config, s: State, cid: nat, p: Id, q: Request, io: Io): State
    requires p in s.players && cid in s.conns
  {
    match q
    case CreateRoom(id, info, max, password, fits) => Create(cfg, s, p, id, info, max, password, fits, io)
    case EnterRoom(id, password) => Enter(cfg, s, p, id, password, io)
    case LeaveRoom => Leave(cfg, s, p, false, io)
    case OpenUdp(secret) => OpenSession(cfg, s, cid, p, secret)
    case CloseUdp => s.(conns := s.conns[cid := s.conns[cid].(udp := None)])
    case Lookup => s
    case Pong => s
    case _ => InRoom(cfg, s, p, q, io)
  }

  /** A binary frame of player `p`: only a chunk for a persistent room changes anything. */
  function Binary(s: State, p: Id, bytes: seq<byte>): State
    requires p in s.players
  {
    var id := s.players[p].room;
    if id.None? || id.value !in s.rooms then s
    else if s.rooms[id.value].persistent && bytes != [] && bytes[0] == 2 then
      s.(rooms := s.rooms[id.value := Sessions.Chunk(s.rooms[id.value], p, bytes, s.now).0])
    else s
  }

  ghost function Dispatch(cfg: Config, s: State, cid: nat, frame: Frame): State {
    if cid !in s.conns || s.conns[cid].player.None? || s.conns[cid].player.value !in s.players then s
    else
      var p := s.conns[cid].player.value;
      match frame.body
      case RequestBody(q) => Handle(cfg, s, cid, p, q, frame.io)
      case BinaryBody(bytes) => Binary(s, p, bytes)
      case _ => s
  }

  // ---- frames and maintenance

  /** Does socket `cid` still serve its account? */
  predicate Current(s: State, cid: nat)
    requires cid in s.conns
  {
    && s.conns[cid].player.Some?
    && s.conns[cid].player.value in s.players
    && s.players[s.conns[cid].player.value].connection == Some(cid)
  }

  /** Requests that survive a change of room while they wait. */
  predicate Scoped(b: Body) {
    b.RequestBody? ==> !(b.request.CreateRoom? || b.request.EnterRoom? || b.request.LeaveRoom? || b.request.Lookup?)
  }

  function Counted(c: Connection, now: nat): Connection {
    if Minus(now, c.rateAt) >= 1000 then c.(rateAt := now, messages := 1) else c.(messages := c.messages + 1)
  }

  /** The queue entry for `frame`, arriving now. */
  function Waiting(cfg: Config, s: State, cid: nat, frame: Frame): Delayed
    requires cid in s.conns && Current(s, cid)
  {
    Delayed(s.now + cfg.delay, cid, s.players[s.conns[cid].player.value].version, Scoped(frame.body), frame)
  }

  /** An accepted frame of an authenticated socket: dispatched now or queued. */
  ghost function Accept(cfg: Config, s: State, cid: nat, frame: Frame): State
    requires cid in s.conns && Current(s, cid)
  {
    var c := s.conns[cid];
    if cfg.delay == 0 || frame.body == RequestBody(Pong) then Dispatch(cfg, s, cid, frame)
    else if c.delayed + frame.size > cfg.maxBuffered || c.pending >= cfg.maxMessages then Closing(s, cid)
    else
      s.(conns := s.conns[cid := c.(delayed := c.delayed + frame.size, pending := c.pending + 1)],
         delayed := s.delayed + [Waiting(cfg, s, cid, frame)])
  }

  /** A frame of a socket that has no account yet. */
  ghost function Introduce(cfg: Config, s: State, cid: nat, frame: Frame): State
    requires cid in s.conns
  {
    if frame.body.AuthBody? then Authenticate(cfg, s, cid, frame.body.credentials, frame.io) else s
  }

  /** A frame that the rate limit let through. */
  ghost function Process(cfg: Config, s: State, cid: nat, frame: Frame): State
    requires cid in s.conns && (s.conns[cid].player.Some? ==> Current(s, cid))
  {
    if frame.body.Ping? || frame.body.PongFrame? then s
    else if frame.size > cfg.maxPayload then Closing(s, cid)
    else if frame.body.Malformed? then s
    else if s.conns[cid].player.None? then Introduce(cfg, s, cid, frame)
    else if frame.body.AuthBody? || (frame.body.BinaryBody? && !cfg.Fits(frame.size)) then s
    else Accept(cfg, s, cid, frame)
  }

  /** Does the message reach its socket's message counter, and does that let it through? */
  predicate Heard(s: State, cid: nat) {
    cid in s.conns && !s.conns[cid].closing && (s.conns[cid].player.Some? ==> Current(s, cid))
  }

  predicate Passed(cfg: Config, s: State, cid: nat) {
    Heard(s, cid) && Counted(s.conns[cid], s.now).messages <= cfg.maxMessages
  }

  /** Is it a login or a new account on a socket that has none? */
  predicate Introduces(cfg: Config, s: State, cid: nat, frame: Frame) {
    Passed(cfg, s, cid) && s.conns[cid].player.None? && frame.size <= cfg.maxPayload && frame.body.AuthBody?
  }

  /** A message that gets through and whose login displaces the record of an account that is in a room. */
  predicate Displacing(cfg: Config, s: State, cid: nat, frame: Frame) {
    Introduces(cfg, s, cid, frame) && Displaces(cfg, s, frame.body.credentials, frame.io)
  }

  /** `receive`: one WebSocket message from socket `cid`. */
  ghost function Receive(cfg: Config, s: State, cid: nat, frame: Frame): State {
    if cid !in s.conns || s.conns[cid].closing || (s.conns[cid].player.Some? && !Current(s, cid)) then s
    else
      var out := s.(conns := s.conns[cid := Counted(s.conns[cid], s.now)]);
      if out.conns[cid].messages > cfg.maxMessages then Closing(out, cid) else Process(cfg, out, cid, frame)
  }

  /** One due entry of the delayed queue. */
  ghost function Release(cfg: Config, s: State, d: Delayed): State {
    if d.cid !in s.conns then s
    else
      var c := s.conns[d.cid];
      var out := s.(conns := s.conns[d.cid := c.(delayed := Minus(c.delayed, d.frame.size), pending := Minus(c.pending, 1))]);
      if !c.closing && Current(out, d.cid) && (!d.scoped || out.players[c.player.value].version == d.version) then
        Dispatch(cfg, out, d.cid, d.frame)
      else out
  }

  /** The delayed queue drained in order; entries that are not due go back. */
  ghost function Drain(cfg: Config, s: State, queue: seq<Delayed>): State
    decreases |queue|
  {
    if queue == [] then s
    else if queue[0].at > s.now then Drain(cfg, s.(delayed := s.delayed + [queue[0]]), queue[1..])
    else Drain(cfg, Release(cfg, s, queue[0]), queue[1..])
  }

  const STALLED: nat := 30000

  function Unstalled(r: Room, now: nat): Room {
    if r.upload.Some? && Minus(now, r.upload.value.at) > STALLED then r.(upload := None) else r
  }

  function Tidied(rooms: map<Id, Room>, now: nat): map<Id, Room> {
    map id | id in rooms :: Unstalled(rooms[id], now)
  }

  /** Empty persistent rooms are saved again, in the order given and each with its own storage outcome. */
  ghost function KeepAll(cfg: Config, s: State, order: seq<(Id, Io)>): State
    decreases |order|
  {
    if order == [] then s
    else
      var (id, io) := order[0];
      var out := if id in s.rooms && s.rooms[id].persistent && s.rooms[id].active == []
                 then Keep(cfg, s.(rooms := s.rooms - {id}), id, s.rooms[id], io) else s;
      KeepAll(cfg, out, order[1..])
  }

  /** `sweep`; `order` is the order in which it meets the empty rooms. */
  ghost function Sweep(cfg: Config, s: State, order: seq<(Id, Io)>): State {
    var drained := Drain(cfg, s.(delayed := []), s.delayed);
    var tidy := drained.(rooms := Tidied(drained.rooms, s.now));
    Expire(cfg, KeepAll(cfg, tidy, order))
  }
}

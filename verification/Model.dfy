/** The relay's data: players, rooms, connections, stored worlds and the server state they form. */
module Model {
  import opened AntiReplay

  datatype Option<+T> = None | Some(value: T)

  /** UUIDs as 128-bit numbers: their canonical text sorts like the numbers. */
  type Id = nat
  type Json = string
  type byte = n: nat | n < 256
  type Address = nat

  datatype Player = Player(
    secret: Json, connection: Option<nat>, room: Option<Id>, entered: Option<nat>, offline: Option<nat>, version: nat)

  datatype Upload = Upload(
    id: Id, owner: Id, generation: nat, revision: nat, bytes: seq<byte>, offset: nat, at: nat)

  /** The parts of a room that are stored and shown but never decide anything. */
  datatype Info = Info(name: Json, game: Json, meta: Json, binary: bool)

  datatype Room = Room(
    info: Info, owner: Id, max: nat, password: Option<Json>,
    active: seq<Id>, reservations: set<Id>, players: seq<Id>, events: seq<nat>,
    started: bool, closed: bool, fixed: bool, migration: bool, generation: nat, persistent: bool,
    start: Option<Json>, state: seq<byte>, revision: nat, updated: nat, upload: Option<Upload>)
  {
    /** May `p` come back after the game started? */
    predicate Rejoin(p: Id) {
      if fixed then p in players else p in reservations
    }
  }

  function NewRoom(info: Info, owner: Id, max: nat, password: Option<Json>, now: nat): Room {
    Room(info, owner, max, password, [], {}, [], [], false, false, false, false, 0, false, None, [], 0, now, None)
  }

  datatype Rate = Rate(at: nat, count: nat)

  datatype Binding = Binding(address: Address, at: nat)
  datatype Challenge = Challenge(address: Address, nonce: seq<byte>, at: nat)
  datatype Session = Session(
    secret: seq<byte>, version: nat, replay: Window, outgoing: nat,
    endpoint: Option<Binding>, challenge: Option<Challenge>)

  function NewSession(secret: seq<byte>, version: nat): Session {
    Session(secret, version, EMPTY, 0, None, None)
  }

  datatype Connection = Connection(
    player: Option<Id>, closing: bool, udp: Option<Session>, incoming: Rate, outgoing: Rate,
    rateAt: nat, messages: nat, delayed: nat, pending: nat)

  function NewConnection(now: nat): Connection {
    Connection(None, false, None, Rate(0, 0), Rate(0, 0), now, 0, 0, 0)
  }

  datatype Notice = Notice(eventId: nat, at: nat, to: seq<Id>, text: Json)
  datatype Job = Job(notice: Notice, done: seq<(Id, Id)>, retryAt: nat, scheduled: bool)

  /** Outcomes of the storage calls that one command makes. */
  datatype Io = Io(readable: bool, save: Option<nat>, removals: nat, account: bool, jobs: bool)

  datatype Request =
    | CreateRoom(id: Id, info: Info, max: nat, password: Option<Json>, fits: bool)
    | EnterRoom(id: Id, password: Option<Json>)
    | LeaveRoom
    | OpenUdp(secret: seq<byte>)
    | CloseUdp
    | UpdateRoom(capacity: Option<nat>, name: Option<Json>, newPassword: Option<Option<Json>>, close: Option<bool>, fits: bool)
    | StartGame(data: Json, fixed: bool, migration: bool, persistent: bool, fits: bool)
    | SetMeta(meta: Json, fits: bool)
    | Notify(eventId: nat, to: seq<Id>, limited: bool)
    | BeginSession(request: Id, revision: nat, generation: nat, size: nat)
    | CommitSession(request: Id, scheduled: Option<Notice>, immediate: Option<Notice>)
    | Lookup     // requests outside any room that only read
    | Relay      // requests inside a room that only read or forward
    | Pong

  /** A login may spell the account's identifier in other letter case; `exact` says that it does not. */
  datatype Credentials =
    | Guest(id: Id, secret: Json)
    | Login(key: Id, exact: bool, password: Json)

  datatype Body =
    | Ping
    | PongFrame
    | Malformed
    | AuthBody(credentials: Credentials)
    | RequestBody(request: Request)
    | BinaryBody(bytes: seq<byte>)

  /** A WebSocket message: its payload length, its content and the storage outcomes it will meet. */
  datatype Frame = Frame(size: nat, body: Body, io: Io)

  datatype Delayed = Delayed(at: nat, cid: nat, version: nat, scoped: bool, frame: Frame)

  /** What a room file holds. */
  datatype World = World(
    info: Info, owner: Id, max: nat, password: Option<Json>, players: seq<Id>, events: seq<nat>,
    generation: nat, start: Option<Json>, state: seq<byte>, revision: nat, updated: nat)

  /** A room file; an unreadable one has no world. */
  datatype File = File(world: Option<World>, size: nat)

  function ToWorld(r: Room): World {
    World(r.info, r.owner, r.max, r.password, r.players, r.events, r.generation, r.start, r.state, r.revision, r.updated)
  }

  function FromWorld(w: World): Room {
    Room(w.info, w.owner, w.max, w.password, [], {}, w.players, w.events,
         true, false, true, true, w.generation, true, w.start, w.state, w.revision, w.updated, None)
  }

  /**
   * The whole server. Three fields are history: the room identifiers drawn so far, the worlds that the
   * disk quota removed, and the socket numbers given out.
   */
  datatype State = State(
    players: map<Id, Player>, rooms: map<Id, Room>, conns: map<nat, Connection>, delayed: seq<Delayed>,
    disk: map<Id, File>, accounts: map<Id, Json>, jobs: map<Id, seq<Job>>,
    issued: set<Id>, evicted: set<Id>, sockets: set<nat>, now: nat)

  datatype Config = Config(
    stored: bool, push: bool, quota: nat, maxSession: nat, maxAccounts: nat, maxRooms: nat,
    maxPayload: nat, maxBuffered: nat, maxMessages: nat, delay: nat, accountTtl: nat,
    udpEnabled: bool, udpMax: nat, udpIncoming: nat, udpOutgoing: nat, endpointTtl: nat, challengeTtl: nat,
    mac: (seq<byte>, seq<byte>) -> seq<byte>)
  {
    predicate Fits(size: nat) {
      size <= maxPayload && size + 10 <= maxBuffered
    }
  }

  /** Subtraction that stops at zero. */
  function Minus(a: nat, b: nat): nat {
    if a >= b then a - b else 0
  }
}

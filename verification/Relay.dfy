/** The relay as one state machine: the commands of the state worker and the runs they form. */
module Relay {
  import opened Model
  import Rules
  import Udp
  import Invariants

  /** One command on the state worker's queue. `Closed` is any close the server starts on its own. */
  datatype Action =
    | Connected(cid: nat)
    | Disconnected(cid: nat, io: Io)
    | Received(cid: nat, frame: Frame)
    | Arrived(bytes: seq<byte>, source: Address, nonce: seq<byte>)
    | Closed(cid: nat)
    | Swept(order: seq<(Id, Io)>)

  datatype Step = Step(at: nat, action: Action)

  /** The state in which a command at time `t` runs. */
  function At(s: State, t: nat): State { s.(now := t) }

  ghost function Next(cfg: Config, before: State, c: Step): State {
    var s := At(before, c.at);
    match c.action
    case Connected(cid) => Rules.Connect(s, cid)
    case Disconnected(cid, io) => Rules.Disconnect(cfg, s, cid, io)
    case Received(cid, frame) => Rules.Receive(cfg, s, cid, frame)
    case Arrived(bytes, source, nonce) => Udp.Datagram(cfg, s, bytes, source, nonce).0
    case Closed(cid) => Rules.Closing(s, cid)
    case Swept(order) => Rules.Sweep(cfg, s, order)
  }

  /** The datagrams that a command sends. */
  function Sent(cfg: Config, before: State, c: Step): Udp.Output {
    match c.action
    case Arrived(bytes, source, nonce) => Udp.Datagram(cfg, At(before, c.at), bytes, source, nonce).1
    case _ => []
  }

  // ---- what the environment guarantees

  /** What validation and the identifier source promise about a request when it runs: a new room holds
      at least one player, and the identifiers drawn for new rooms and guests were not drawn before. */
  ghost predicate Admissible(s: State, frame: Frame) {
    var b := frame.body;
    && (b.RequestBody? && b.request.CreateRoom? ==>
          b.request.max > 0 && b.request.id !in s.issued && b.request.id !in s.rooms)
    && (b.AuthBody? && b.credentials.Guest? ==> b.credentials.id !in s.players && b.credentials.id !in s.accounts)
  }

  /** Every due entry of the queue is admissible when its turn comes. */
  ghost predicate DrainAdmissible(cfg: Config, s: State, queue: seq<Delayed>)
    decreases |queue|
  {
    queue == [] ||
    if queue[0].at > s.now then DrainAdmissible(cfg, s.(delayed := s.delayed + [queue[0]]), queue[1..])
    else Admissible(s, queue[0].frame) && DrainAdmissible(cfg, Rules.Release(cfg, s, queue[0]), queue[1..])
  }

  /**
   * A command that can follow state `s`: the clock does not run back, socket numbers are not reused, and no login
   * displaces the record of an account that is in a room.
   */
  ghost predicate Lawful(cfg: Config, s: State, c: Step) {
    && s.now <= c.at
    && match c.action
       case Connected(cid) => cid !in s.sockets && cid !in s.conns
       case Received(cid, frame) => Admissible(s, frame) && !Rules.Displacing(cfg, At(s, c.at), cid, frame)
       case Swept(_) => DrainAdmissible(cfg, At(s, c.at).(delayed := []), s.delayed)
       case _ => true
  }

  /** A run of one server process: its states and the commands between them. */
  datatype Run = Run(states: seq<State>, steps: seq<Step>)

  ghost predicate IsRun(cfg: Config, r: Run) {
    && |r.states| == |r.steps| + 1
    && r.states[0].players == map[] && r.states[0].rooms == map[] && r.states[0].conns == map[]
    && r.states[0].delayed == []
    && Invariants.WorldsOk(r.states[0].disk) && r.states[0].disk.Keys <= r.states[0].issued
    && forall i :: 0 <= i < |r.steps| ==> Lawful(cfg, r.states[i], r.steps[i]) && r.states[i + 1] == Next(cfg, r.states[i], r.steps[i])
  }
}

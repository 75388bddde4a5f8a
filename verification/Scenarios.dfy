/** Two concrete runs: a login that breaks membership, and a refused entry that loses a world. */
module Scenarios {
  import opened Model
  import opened Rules
  import opened Invariants
  import opened Relay
  import opened Worlds
  import opened Handling
  import Sessions
  import Bytes
  import IndexSet
  import Presence
  import Preservation
  import Outcomes

  type Mac = (seq<byte>, seq<byte>) -> seq<byte>

  /** A small relay with storage, no delay and no datagrams. */
  function Small(mac: Mac): Config {
    Config(true, false, 1000, 100, 10, 10, 1000, 1000, 100, 0, 1000, false, 0, 0, 0, 0, 0, mac)
  }

  /** Every storage call succeeds, but saving a world only if `save`. */
  function Calls(save: bool): Io {
    Io(true, if save then Some(10) else None, 0, true, true)
  }

  function Message(cid: nat, body: Body): Step {
    Step(0, Received(cid, Frame(1, body, Calls(true))))
  }

  // ---- the states

  const INFO: Info := Info("n", "g", "m", false)

  /** Socket `p` of player `p` after so many messages. */
  function Socket(p: Id, messages: nat): Connection {
    NewConnection(0).(player := Some(p), messages := messages)
  }

  function Member(secret: Json, cid: nat): Player {
    Player(secret, Some(cid), Some(9), Some(0), None, 1)
  }

  function Visitor(secret: Json, cid: nat): Player {
    Player(secret, Some(cid), None, None, None, 0)
  }

  const EMPTY_RELAY: State := State(map[], map[], map[], [], map[], map[], map[], {}, {}, {}, 0)

  /** Player 1 on its socket, after so many messages, in room 9. */
  function Playing(room: Room, messages: nat): State {
    State(map[1 := Member("p", 1)], map[9 := room], map[1 := Socket(1, messages)], [], map[], map[1 := "p"], map[],
          {9}, {}, {1}, 0)
  }

  const LOBBY: Room := NewRoom(INFO, 1, 2, None, 0).(active := [1])
  const GAME: Room :=
    LOBBY.(started := true, fixed := true, migration := true, persistent := true, start := Some("d"), players := [1])
  const SAVED: Room := GAME.(state := [7], revision := 1)

  // ---- building runs

  ghost predicate Ends(cfg: Config, r: Run, t: State) {
    IsRun(cfg, r) && r.states[|r.states| - 1] == t
  }

  lemma Extend(cfg: Config, r: Run, s: State, c: Step, t: State) returns (q: Run)
    requires Ends(cfg, r, s) && Lawful(cfg, s, c) && Next(cfg, s, c) == t
    ensures Ends(cfg, q, t) && q.steps == r.steps + [c] && q.states == r.states + [t]
  {
    hide Next, Lawful, WorldsOk;
    q := Run(r.states + [t], r.steps + [c]);
    forall i | 0 <= i < |q.steps| ensures Lawful(cfg, q.states[i], q.steps[i]) && q.states[i + 1] == Next(cfg, q.states[i], q.steps[i]) {
      if i < |r.steps| { assert q.states[i] == r.states[i] && q.states[i + 1] == r.states[i + 1] && q.steps[i] == r.steps[i]; }
    }
  }

  lemma Begin(mac: Mac) returns (r: Run)
    ensures Ends(Small(mac), r, EMPTY_RELAY) && |r.steps| == 0
  {
    r := Run([EMPTY_RELAY], []);
  }

  /** A request of a serving socket runs at once. */
  lemma Runs(mac: Mac, s: State, cid: nat, body: Body)
    requires s.now == 0 && Presence.Serves(s, cid) && !s.conns[cid].closing
    requires s.conns[cid].rateAt == 0 && s.conns[cid].messages < 100
    requires body.RequestBody? || body.BinaryBody?
    ensures var cfg := Small(mac);
      var w := s.(conns := s.conns[cid := s.conns[cid].(messages := s.conns[cid].messages + 1)]);
      Next(cfg, s, Message(cid, body)) == Dispatch(cfg, w, cid, Frame(1, body, Calls(true)))
  {
    hide Dispatch;
    ReceiveCases(Small(mac), s, cid, Frame(1, body, Calls(true)));
  }

  lemma Greets(mac: Mac, s: State, cid: nat, c: Credentials)
    requires s.now == 0 && cid in s.conns && s.conns[cid] == NewConnection(0)
    ensures var cfg := Small(mac);
      Next(cfg, s, Message(cid, AuthBody(c))) ==
        Authenticate(cfg, s.(conns := s.conns[cid := s.conns[cid].(messages := 1)]), cid, c, Calls(true))
  {
    hide Authenticate;
    ReceiveCases(Small(mac), s, cid, Frame(1, AuthBody(c), Calls(true)));
  }

  // ---- a login in other letter case

  const FIRST: State := State(map[], map[], map[1 := NewConnection(0)], [], map[], map[], map[], {}, {}, {1}, 0)
  const GREETED: State :=
    State(map[1 := Visitor("p", 1)], map[], map[1 := Socket(1, 1)], [], map[], map[1 := "p"], map[], {}, {}, {1}, 0)

  lemma Connects(mac: Mac)
    ensures Lawful(Small(mac), EMPTY_RELAY, Step(0, Connected(1)))
    ensures Next(Small(mac), EMPTY_RELAY, Step(0, Connected(1))) == FIRST
  {
  }

  lemma Registers(mac: Mac)
    ensures var c := Message(1, AuthBody(Guest(1, "p"))); Lawful(Small(mac), FIRST, c) && Next(Small(mac), FIRST, c) == GREETED
  {
    Greets(mac, FIRST, 1, Guest(1, "p"));
  }

  const CREATE: Body := RequestBody(CreateRoom(9, INFO, 2, None, true))

  lemma Creates(mac: Mac)
    ensures var c := Message(1, CREATE); Lawful(Small(mac), GREETED, c) && Next(Small(mac), GREETED, c) == Playing(LOBBY, 2)
  {
    hide Enter, Leave, InRoom, Admit;
    Runs(mac, GREETED, 1, CREATE);
    var w, blank := GREETED.(conns := map[1 := Socket(1, 2)]), NewRoom(INFO, 1, 2, None, 0);
    assert GREETED.conns[1 := GREETED.conns[1].(messages := 2)] == w.conns;
    Preservation.CreateAdmits(Small(mac), w.(issued := {9}), 1, 9, blank, None, Calls(true));
    Admitted(w.(issued := {9}), blank);
  }

  lemma Admitted(s: State, blank: Room)
    requires s.players == map[1 := Visitor("p", 1)] && s.rooms == map[] && s.now == 0 && blank == NewRoom(INFO, 1, 2, None, 0)
    ensures Admit(s, 1, 9, blank) == s.(players := map[1 := Member("p", 1)], rooms := map[9 := LOBBY])
  {
    assert Joined(blank, 1) == LOBBY;
    assert s.players[1 := Member("p", 1)] == map[1 := Member("p", 1)];
  }

  /** Player 1 has an account and is in its own room 9. */
  lemma Lobby(mac: Mac) returns (r: Run)
    ensures Ends(Small(mac), r, Playing(LOBBY, 2)) && |r.steps| == 3
  {
    hide Next, Lawful, Ends;
    r := Begin(mac);
    Connects(mac);
    r := Extend(Small(mac), r, EMPTY_RELAY, Step(0, Connected(1)), FIRST);
    Registers(mac);
    r := Extend(Small(mac), r, FIRST, Message(1, AuthBody(Guest(1, "p"))), GREETED);
    Creates(mac);
    r := Extend(Small(mac), r, GREETED, Message(1, CREATE), Playing(LOBBY, 2));
  }

  const CROWDED: State := Playing(LOBBY, 2).(conns := map[1 := Socket(1, 2), 2 := NewConnection(0)], sockets := {1, 2})

  lemma ConnectsAgain(mac: Mac)
    ensures Lawful(Small(mac), Playing(LOBBY, 2), Step(0, Connected(2)))
    ensures Next(Small(mac), Playing(LOBBY, 2), Step(0, Connected(2))) == CROWDED
  {
  }

  /**
   * A login in other letter case that the relay accepts breaks membership: in a run the account 1 is in room 9 on socket
   * 1; it logs in on socket 2; the stored record takes the place of the one in memory, so that its record names no room
   * while the room lists it, and its first socket stays open.
   */
  lemma RecasedLoginBreaksMembership(mac: Mac) returns (r: Run, s: State, c: Step)
    ensures IsRun(Small(mac), r) && s == r.states[|r.states| - 1]
    ensures c.action.Received? && c.action.frame.body == AuthBody(Login(1, false, "p"))
    ensures 1 in s.players && s.players[1].connection == Some(1) && s.players[1].room == Some(9)
    ensures var t := Next(Small(mac), s, c);
      && !Inv(t) && 9 in t.rooms && 1 in t.rooms[9].active
      && 1 in t.players && t.players[1].room.None? && t.players[1].connection == Some(2)
      && 1 in t.conns && !t.conns[1].closing
  {
    r := Lobby(mac);
    ConnectsAgain(mac);
    hide Lawful, Inv;
    r := Extend(Small(mac), r, Playing(LOBBY, 2), Step(0, Connected(2)), CROWDED);
    s, c := CROWDED, Message(2, AuthBody(Login(1, false, "p")));
    Recased(mac);
  }

  lemma Recased(mac: Mac)
    ensures var t := Next(Small(mac), CROWDED, Message(2, AuthBody(Login(1, false, "p"))));
      && !Inv(t) && 9 in t.rooms && 1 in t.rooms[9].active
      && 1 in t.players && t.players[1].room.None? && t.players[1].connection == Some(2)
      && 1 in t.conns && !t.conns[1].closing
  {
    hide Next, LogIn, Inv, Displaces, Account, Expire;
    var cfg := Small(mac);
    Greets(mac, CROWDED, 2, Login(1, false, "p"));
    var w := CROWDED.(conns := CROWDED.conns[2 := CROWDED.conns[2].(messages := 1)]);
    NobodyExpires(cfg, w);
    CrowdedHolds(w);
    DisplacesMember(cfg, w);
    Outcomes.LogInExactly(cfg, w, 2, 1, false, "p", Calls(true));
    Outcomes.LogInKeepsInvariantsExactly(cfg, w, 2, 1, false, "p", Calls(true));
  }

  lemma NobodyExpires(cfg: Config, w: State)
    requires w.players == map[1 := Member("p", 1)] && w.rooms == map[9 := LOBBY]
    ensures Expire(cfg, w) == w
  {
    assert !Expired(cfg, w, 1);
    var gone := set p | p in w.players && Expired(cfg, w, p);
    assert gone == {} && LOBBY.reservations - gone == LOBBY.reservations;
    assert (map id | id in w.rooms :: w.rooms[id].(reservations := w.rooms[id].reservations - gone)) == w.rooms;
  }

  lemma CrowdedHolds(w: State)
    requires w.players == map[1 := Member("p", 1)] && w.rooms == map[9 := LOBBY] && w.disk == map[]
    requires w.conns == map[1 := Socket(1, 2), 2 := NewConnection(0).(messages := 1)] && w.now == 0
    ensures Inv(w)
  {
    assert RoomOk(LOBBY);
  }

  lemma DisplacesMember(cfg: Config, w: State)
    requires cfg.stored && w.players == map[1 := Member("p", 1)] && w.accounts == map[1 := "p"]
    ensures Displaces(cfg, w, Login(1, false, "p"), Calls(true))
    ensures Account(cfg, w, 1, false, Calls(true)) == Some(Player("p", None, None, None, Some(w.now), 0))
  {
  }

  // ---- a refused entry that loses a world

  const START: Body := RequestBody(StartGame("d", true, true, true, true))
  const BEGIN: Body := RequestBody(BeginSession(5, 0, 0, 1))
  const CHUNK: Body := BinaryBody([2] + Bytes.BigEndian(5, 16) + Bytes.BigEndian(0, 4) + [7])
  const COMMIT: Body := RequestBody(CommitSession(5, None, None))

  const BEGUN: Room := GAME.(upload := Some(Upload(5, 1, 0, 0, [0], 0, 0)))
  const FILLED: Room := GAME.(upload := Some(Upload(5, 1, 0, 0, [7], 1, 0)))

  /** In a room, one request after the other. */
  lemma Asks(mac: Mac, room: Room, messages: nat, body: Body, after: Room)
    requires messages < 100 && room.active == [1] && after.active == [1]
    requires body.RequestBody? || body.BinaryBody?
    requires body.RequestBody? ==>
      var q := body.request;
      && (q.StartGame? || q.BeginSession? || q.CommitSession?)
      && RoomRequest(Small(mac), room, 1, q, Calls(true), 0) == after
      && (q.CommitSession? ==> q.scheduled.None? && q.immediate.None?)
    requires body.BinaryBody? ==>
      room.persistent && body.bytes != [] && body.bytes[0] == 2 && Sessions.Chunk(room, 1, body.bytes, 0).0 == after
    ensures var c := Message(1, body);
      && Lawful(Small(mac), Playing(room, messages), c)
      && Next(Small(mac), Playing(room, messages), c) == Playing(after, messages + 1)
  {
    hide RoomRequest, Sessions.Chunk, Sessions.CommitVerdict, Create, Enter, Leave;
    var s := Playing(room, messages);
    Runs(mac, s, 1, body);
    assert s.conns[1 := s.conns[1].(messages := messages + 1)] == Playing(room, messages + 1).conns;
    assert s.rooms[9 := after] == Playing(after, 0).rooms;
    if body.RequestBody? && body.request.CommitSession? { NoJobs(); }
  }

  lemma NoJobs()
    ensures Sessions.Merge([], [], None, None) == []
  {
  }

  lemma Starts(mac: Mac)
    ensures RoomRequest(Small(mac), LOBBY, 1, START.request, Calls(true), 0) == GAME
    ensures RoomRequest(Small(mac), GAME, 1, BEGIN.request, Calls(true), 0) == BEGUN
    ensures RoomRequest(Small(mac), FILLED, 1, COMMIT.request, Calls(true), 0) == SAVED
  {
    assert seq(1, _ => 0) == [0];
  }

  lemma Chunked()
    ensures var b := CHUNK.bytes;
      |b| == 22 && b[0] == 2 && b[1..17] == Bytes.BigEndian(5, 16) && b[17..21] == Bytes.BigEndian(0, 4) && b[21..] == [7]
  {
    hide Bytes.BigEndian;
  }

  lemma Fills()
    ensures Sessions.Chunk(BEGUN, 1, CHUNK.bytes, 0).0 == FILLED
  {
    hide Bytes.BigEndian, Bytes.Value;
    Chunked();
    FiveFits();
    Bytes.ValueOfBigEndian(5, 16);
    Bytes.ValueOfBigEndian(0, 4);
    assert [0][..0] + [7] + [0][1..] == [7];
  }

  lemma FiveFits()
    ensures 5 < Bytes.Power(16) && 0 < Bytes.Power(4)
  {
    assert Bytes.Power(1) == 256 * Bytes.Power(0);
    PowerGrows(1, 16);
  }

  lemma {:induction false} PowerGrows(k: nat, n: nat)
    requires k <= n
    ensures Bytes.Power(k) <= Bytes.Power(n)
  {
    if k < n { PowerGrows(k, n - 1); }
  }

  const WAITING: Room := SAVED.(active := [], reservations := {1})
  const GONE: Player := Player("p", None, None, None, Some(0), 2)

  /** Player 1 lost its socket and the room waits in memory for a save. */
  function Deserted(sockets: map<nat, Connection>, guests: map<Id, Player>, accounts: map<Id, Json>): State {
    State(guests[1 := GONE], map[9 := WAITING], sockets, [], map[], accounts[1 := "p"], map[], {9}, {}, {1} + sockets.Keys, 0)
  }

  const ALONE: State := Deserted(map[], map[], map[])
  const LOSES_SOCKET: Step := Step(0, Disconnected(1, Calls(false)))

  /** The socket goes and the save fails. */
  lemma Deserts(mac: Mac)
    ensures Lawful(Small(mac), Playing(SAVED, 6), LOSES_SOCKET) && Next(Small(mac), Playing(SAVED, 6), LOSES_SOCKET) == ALONE
  {
    hide Depart;
    var cfg, s := Small(mac), Playing(SAVED, 6);
    var pl := Member("p", 1).(connection := None, offline := Some(0));
    var out := s.(conns := map[], players := map[1 := Outside(pl)]);
    assert s.conns - {1} == map[] && s.players[1 := pl][1 := Outside(pl)] == out.players;
    assert Outside(pl) == GONE;
    Departs(cfg, out);
  }

  lemma Departs(cfg: Config, s: State)
    requires s.rooms == map[9 := SAVED] && s.players == map[1 := GONE]
    ensures Depart(cfg, s, 1, 9, true, Calls(false)) == s.(rooms := map[9 := WAITING])
  {
    assert IndexSet.Remove([1], 1) == [];
    assert Remaining(SAVED, 1) == [] && Dismissed(SAVED, 1) == {};
    assert Without(SAVED, 1, true) == WAITING;
    NobodyOut(s);
    assert s.rooms - {9} == map[] && map[][9 := WAITING] == map[9 := WAITING];
  }

  lemma NobodyOut(s: State)
    ensures Vacate(s, 9, {}).players == s.players
  {
  }

  const CALLED: State := Deserted(map[2 := NewConnection(0)], map[], map[])
  const VISITED: State := Deserted(map[2 := Socket(2, 1)], map[2 := Visitor("q", 2)], map[2 := "q"])
  const ENTER: Body := RequestBody(EnterRoom(9, None))

  lemma Calling(mac: Mac)
    ensures Lawful(Small(mac), ALONE, Step(0, Connected(2))) && Next(Small(mac), ALONE, Step(0, Connected(2))) == CALLED
  {
  }

  lemma Visits(mac: Mac)
    ensures var c := Message(2, AuthBody(Guest(2, "q"))); Lawful(Small(mac), CALLED, c) && Next(Small(mac), CALLED, c) == VISITED
  {
    hide Expire, Bind, Expired;
    var cfg := Small(mac);
    Greets(mac, CALLED, 2, Guest(2, "q"));
    var w := CALLED.(conns := CALLED.conns[2 := CALLED.conns[2].(messages := 1)]);
    PlayerStays(cfg, w);
    Bound(cfg, w);
  }

  lemma PlayerStays(cfg: Config, w: State)
    requires w.players == map[1 := GONE] && w.rooms == map[9 := WAITING]
    ensures Expire(cfg, w) == w
  {
    assert w.rooms[9].fixed && 1 in w.rooms[9].players;
    var gone := set p | p in w.players && Expired(cfg, w, p);
    assert gone == {} && WAITING.reservations - gone == WAITING.reservations;
    assert (map id | id in w.rooms :: w.rooms[id].(reservations := w.rooms[id].reservations - gone)) == w.rooms;
  }

  lemma Bound(cfg: Config, w: State)
    requires cfg.stored && w == CALLED.(conns := map[2 := NewConnection(0).(messages := 1)])
    ensures Bind(cfg, w.(players := w.players[2 := Player("q", None, None, None, Some(0), 0)]), 2, 2, Calls(true)) == VISITED
  {
  }

  /** Player 2 is refused, and the room is gone. */
  lemma Refused(mac: Mac)
    ensures Lawful(Small(mac), VISITED, Message(2, ENTER))
    ensures var t := Next(Small(mac), VISITED, Message(2, ENTER)); t.rooms == map[] && t.disk == map[] && t.evicted == {}
  {
    Runs(mac, VISITED, 2, ENTER);
    assert Refusal(WAITING, 2, None) == Some("game_started_without_you");
    assert VISITED.rooms - {9} == map[];
  }

  /** Player 1 has started a stored game and committed a byte. */
  lemma Stores(mac: Mac) returns (r: Run)
    ensures Ends(Small(mac), r, Playing(SAVED, 6)) && |r.steps| == 7
  {
    hide Next, Lawful, Ends, Playing, RoomRequest, Sessions.Chunk;
    var cfg := Small(mac);
    r := Lobby(mac);
    Starts(mac);
    Fills();
    Asks(mac, LOBBY, 2, START, GAME);
    r := Extend(cfg, r, Playing(LOBBY, 2), Message(1, START), Playing(GAME, 3));
    Asks(mac, GAME, 3, BEGIN, BEGUN);
    r := Extend(cfg, r, Playing(GAME, 3), Message(1, BEGIN), Playing(BEGUN, 4));
    Asks(mac, BEGUN, 4, CHUNK, FILLED);
    r := Extend(cfg, r, Playing(BEGUN, 4), Message(1, CHUNK), Playing(FILLED, 5));
    Asks(mac, FILLED, 5, COMMIT, SAVED);
    r := Extend(cfg, r, Playing(FILLED, 5), Message(1, COMMIT), Playing(SAVED, 6));
  }

  /**
   * A refused entry can lose a world with everything committed in it: a player starts a stored game, uploads and commits
   * a byte, and loses its socket while saving fails, so that the room waits in memory; a stranger is refused and the room
   * is dropped: in memory or on disk there is nothing left, and nothing was evicted.
   */
  lemma RefusalLosesAWorld(mac: Mac) returns (r: Run)
    ensures IsRun(Small(mac), r) && |r.steps| == 11
    ensures r.steps[7] == LOSES_SOCKET && r.steps[10] == Message(2, ENTER)
    ensures Look(r.states[10], 9) == Some(WAITING) && WAITING.revision == 1 && WAITING.state == [7]
    ensures Look(r.states[11], 9).None? && r.states[11].evicted == {}
  {
    hide Next, Lawful, Ends, Playing;
    var cfg := Small(mac);
    r := Stores(mac);
    EndsIsRun(cfg, r, Playing(SAVED, 6));
    Deserts(mac);
    r := Extend(cfg, r, Playing(SAVED, 6), LOSES_SOCKET, ALONE);
    Calling(mac);
    r := Extend(cfg, r, ALONE, Step(0, Connected(2)), CALLED);
    Visits(mac);
    r := Extend(cfg, r, CALLED, Message(2, AuthBody(Guest(2, "q"))), VISITED);
    Refused(mac);
    r := Extend(cfg, r, VISITED, Message(2, ENTER), Next(cfg, VISITED, Message(2, ENTER)));
    EndsIsRun(cfg, r, Next(cfg, VISITED, Message(2, ENTER)));
  }

  lemma EndsIsRun(cfg: Config, r: Run, t: State)
    requires Ends(cfg, r, t)
    ensures IsRun(cfg, r) && |r.states| == |r.steps| + 1
  {
  }
}

/** What the main operations achieve, said in terms of what a player sees before and after. */
module Outcomes {
  import opened Model
  import opened Rules
  import opened Invariants
  import opened Udp
  import opened Worlds
  import Sessions
  import AntiReplay
  import Rates
  import IndexSet
  import Paging
  import Channel
  import opened Relay
  import opened Handling
  import Presence
  import Rosters
  import Safety
  import Preservation

  // ---- rooms

  /** May `p` come in, by the rules of the house? */
  predicate Welcome(r: Room, p: Id, password: Option<Json>) {
    && |r.active| < r.max
    && if r.started then (if r.fixed then p in r.players else p in r.reservations)
       else !r.closed && password == r.password
  }

  /**
   * A player gets into a room exactly when it is in none, the room is in memory or can be read from disk, and the
   * room lets it in; then it is the last member. Otherwise no player changes.
   */
  lemma EntryExactly(cfg: Config, s: State, p: Id, id: Id, password: Option<Json>, io: Io)
    requires Core(s) && p in s.players
    ensures var t := Enter(cfg, s, p, id, password, io);
      var readable := id in s.rooms || (cfg.stored && io.readable);
      if s.players[p].room.None? && readable && Look(s, id).Some? && Welcome(Look(s, id).value, p, password) then
        && id in t.rooms && t.rooms[id].active == Look(s, id).value.active + [p]
        && t.players == s.players[p := s.players[p].(room := Some(id), entered := Some(s.now), version := s.players[p].version + 1)]
        && forall x :: x != id ==> (x in t.rooms <==> x in s.rooms) && (x in s.rooms ==> t.rooms[x] == s.rooms[x])
      else t.players == s.players && forall x :: x in t.rooms ==> x in s.rooms && t.rooms[x] == s.rooms[x]
  {
    hide Core, Enter, Welcome, Refusal, Joined, Inside, Look;
    NotYetIn(s, p, id);
    EnterIs(cfg, s, p, id, password, io);
    if Look(s, id).Some? {
      WelcomeIsNoRefusal(Look(s, id).value, p, password);
      if p !in Look(s, id).value.active { JoinsLast(Look(s, id).value, p, s.players[p], id, s.now); }
    }
  }

  /** Entering, with the room found wherever it is. */
  lemma EnterIs(cfg: Config, s: State, p: Id, id: Id, password: Option<Json>, io: Io)
    requires p in s.players
    ensures var t := Enter(cfg, s, p, id, password, io);
      var readable := id in s.rooms || (cfg.stored && io.readable);
      if s.players[p].room.None? && readable && Look(s, id).Some? && Refusal(Look(s, id).value, p, password).None? then
        t == Admit(s, p, id, Look(s, id).value)
      else t.players == s.players && forall x :: x in t.rooms ==> x in s.rooms && t.rooms[x] == s.rooms[x]
  {
    hide Refusal, Joined, Inside;
  }

  lemma NotYetIn(s: State, p: Id, id: Id)
    requires Core(s) && p in s.players
    ensures Look(s, id).Some? && p in Look(s, id).value.active ==> s.players[p].room.Some?
  {
    hide RoomOk, Clocked;
  }

  lemma WelcomeIsNoRefusal(r: Room, p: Id, password: Option<Json>)
    ensures Welcome(r, p, password) <==> Refusal(r, p, password).None?
  {
  }

  lemma JoinsLast(r: Room, p: Id, pl: Player, id: Id, now: nat)
    requires p !in r.active
    ensures Joined(r, p).active == r.active + [p]
    ensures Inside(pl, id, now) == pl.(room := Some(id), entered := Some(now), version := pl.version + 1)
  {
  }

  /** A player whose socket goes while a started game runs on can come back at once, whatever the password. */
  lemma DisconnectedPlayerMayReturn(cfg: Config, s: State, p: Id, io: Io, password: Option<Json>)
    requires Core(s) && p in s.players && s.players[p].room.Some?
    requires var r := s.rooms[s.players[p].room.value]; r.started && Remaining(r, p) != []
    ensures var id := s.players[p].room.value;
      var t := Leave(cfg, s, p, true, io);
      id in t.rooms && p in t.players && t.players[p].room.None? && Refusal(t.rooms[id], p, password).None?
  {
    hide Keep, Clocked;
    var id := s.players[p].room.value;
    var r := s.rooms[id];
    LeaveMoves(cfg, s, p, true, io);
    assert RoomOk(r) && p in r.active;
    FewerRemain(r, p);
  }

  lemma {:induction false} FewerRemain(r: Room, p: Id)
    requires p in r.active
    ensures |Remaining(r, p)| < |r.active|
  {
    ShorterWithout(r.active, p);
  }

  lemma {:induction false} ShorterWithout(s: seq<Id>, p: Id)
    requires p in s
    ensures |IndexSet.Remove(s, p)| < |s|
  {
    if s[0] != p {
      assert s == [s[0]] + s[1..];
      ShorterWithout(s[1..], p);
    }
  }

  /** One who leaves a started game without a fixed roster on its own account cannot come back. */
  lemma QuitterMayNotReturn(cfg: Config, s: State, p: Id, io: Io, password: Option<Json>)
    requires Core(s) && p in s.players && s.players[p].room.Some?
    requires var r := s.rooms[s.players[p].room.value]; r.started && !r.fixed && Remaining(r, p) != []
    ensures var id := s.players[p].room.value;
      var t := Leave(cfg, s, p, false, io);
      id in t.rooms && Refusal(t.rooms[id], p, password) == Some("game_started_without_you")
  {
    hide Keep, Clocked, RoomOk;
  }

  /** The list of rooms shows a room with room to one who is not in it exactly if the room, unless closed, would let it in. */
  lemma ListedRoomsAdmit(rooms: map<Id, Room>, p: Id, length: Room -> nat, id: Id)
    requires id in rooms && p !in rooms[id].active && |rooms[id].active| < rooms[id].max
    requires rooms[id].started || !rooms[id].closed
    ensures id in Paging.Visible(rooms, p, length) <==> Welcome(rooms[id], p, rooms[id].password)
  {
  }

  // ---- requests of the owner

  /** Is the update accepted: by the owner, before the start, fitting, and with room for those who are in? */
  predicate Updates(r: Room, p: Id, q: Request)
    requires q.UpdateRoom?
  {
    r.owner == p && !r.started && q.fits && (q.capacity.Some? ==> |r.active| <= q.capacity.value)
  }

  /**
   * An accepted update decides who gets in from then on: by the password, the capacity and the closure that it names and
   * by the old ones where it names none; it puts nobody out and leaves room for all who are in. A refused one changes nothing.
   */
  lemma UpdateDecidesWhoEnters(r: Room, p: Id, q: Request, x: Id, password: Option<Json>)
    requires RoomOk(r) && q.UpdateRoom?
    ensures var t := Update(r, p, q);
      if Updates(r, p, q) then
        && (Welcome(t, x, password) <==>
              && |r.active| < (if q.capacity.Some? then q.capacity.value else r.max)
              && !(if q.close.Some? then q.close.value else r.closed)
              && password == (if q.newPassword.Some? then q.newPassword.value else r.password))
        && RoomOk(t) && Rests(r, t.(info := r.info, max := r.max, password := r.password))
        && t.info == r.info.(name := if q.name.Some? then q.name.value else r.info.name)
        && t.active == r.active && t.reservations == r.reservations
      else t == r
  {
  }

  /**
   * The start decides who may come back: into a fixed game exactly who was in it at the start, into any other exactly who
   * holds a reservation, whatever the password and whether or not the room was closed. A stored game needs storage, a
   * fixed roster and migration. A refused start changes nothing.
   */
  lemma StartDecidesWhoReturns(cfg: Config, r: Room, p: Id, q: Request, now: nat, x: Id, password: Option<Json>)
    requires RoomOk(r) && q.StartGame?
    ensures var t := Start(cfg, r, p, q, now);
      if r.owner == p && !r.started && q.fits then
        && (Welcome(t, x, password) <==> |r.active| < r.max && if q.fixed then x in r.active else x in r.reservations)
        && (t.persistent <==> cfg.stored && q.fixed && q.migration && q.persistent)
        && RoomOk(t) && t.active == r.active && t.owner == r.owner && t.generation == r.generation
      else t == r
  {
  }

  /** A player without a room is in room `id` after its entry exactly when that room is found and lets it in. */
  lemma GetsIn(cfg: Config, s: State, x: Id, id: Id, password: Option<Json>, io: Io)
    requires Core(s) && x in s.players && s.players[x].room.None?
    ensures var t := Enter(cfg, s, x, id, password, io);
      id in t.rooms && x in t.rooms[id].active <==>
        (id in s.rooms || (cfg.stored && io.readable)) && Look(s, id).Some? && Welcome(Look(s, id).value, x, password)
  {
    hide Core, Enter, Welcome;
    NotYetIn(s, x, id);
    EntryExactly(cfg, s, x, id, password, io);
  }

  /**
   * What the owner's update settles is what the next player meets: after the request was handled, another player without
   * a room gets in exactly when there is room by the capacity named last, the room is not closed by what was named last,
   * and its password is the one named last. An update that is not accepted changes nothing of this.
   */
  lemma UpdateDecidesNextEntry(cfg: Config, s: State, cid: nat, frame: Frame, x: Id, password: Option<Json>, io: Io)
    requires Inv(s) && Presence.Serves(s, cid) && frame.body.RequestBody? && frame.body.request.UpdateRoom?
    requires Presence.Holder(s, cid).room.Some? && x in s.players && s.players[x].room.None?
    requires !s.rooms[Presence.Holder(s, cid).room.value].started
    ensures var q, p, id := frame.body.request, s.conns[cid].player.value, Presence.Holder(s, cid).room.value;
      var r, t := s.rooms[id], Dispatch(cfg, s, cid, frame);
      var accepted := Updates(r, p, q);
      && x in t.players && t.players[x].room.None?
      && var u := Enter(cfg, t, x, id, password, io);
      (id in u.rooms && x in u.rooms[id].active) <==>
        && |r.active| < (if accepted && q.capacity.Some? then q.capacity.value else r.max)
        && !(if accepted && q.close.Some? then q.close.value else r.closed)
        && password == (if accepted && q.newPassword.Some? then q.newPassword.value else r.password)
  {
    hide Enter, Welcome, Update, Paired, Seated, RoomOk, Clocked, WorldsOk;
    var q, p, id := frame.body.request, s.conns[cid].player.value, Presence.Holder(s, cid).room.value;
    assert id in s.rooms;
    hide Core;
    var r, t := s.rooms[id], Dispatch(cfg, s, cid, frame);
    assert RoomOk(r) by { RoomIsOk(s, id); }
    UpdateDecidesWhoEnters(r, p, q, x, password);
    assert t.players == s.players && t.rooms == s.rooms[id := Update(r, p, q)];
    if !Updates(r, p, q) { OpenWelcome(r, x, password); }
    Preservation.ChangeRoom(s, id, Update(r, p, q));
    assert Core(t) by { SameCore(s.(rooms := t.rooms), t); }
    GetsIn(cfg, t, x, id, password, io);
  }

  lemma RoomIsOk(s: State, id: Id)
    requires Core(s) && id in s.rooms
    ensures RoomOk(s.rooms[id])
  {
  }

  lemma SameCore(s: State, t: State)
    requires Core(s) && t.players == s.players && t.rooms == s.rooms && t.disk == s.disk && t.now == s.now
    ensures Core(t)
  {
  }

  lemma OpenWelcome(r: Room, x: Id, password: Option<Json>)
    requires !r.started
    ensures Welcome(r, x, password) <==> |r.active| < r.max && !r.closed && password == r.password
  {
  }

  /**
   * In every run, whichever saves fail: into a fixed game that started, at whatever later time and however often it was
   * unloaded in between, a player without a room gets exactly when the room is found, there is room by the capacity at
   * the start, and the player was on the roster at the start; passwords and closures no longer matter.
   */
  lemma RosterDecidesReturn(cfg: Config, r: Run, i: nat, j: nat, id: Id, x: Id, password: Option<Json>, io: Io)
    requires IsRun(cfg, r) && i <= j < |r.states| && id in r.states[i].issued
    requires Look(r.states[i], id).Some? && Look(r.states[i], id).value.started && Look(r.states[i], id).value.fixed
    requires Look(r.states[j], id).Some? && x in r.states[j].players && r.states[j].players[x].room.None?
    ensures var start, s := Look(r.states[i], id).value, r.states[j];
      var t := Enter(cfg, s, x, id, password, io);
      (id in t.rooms && x in t.rooms[id].active) <==>
        (id in s.rooms || (cfg.stored && io.readable)) && x in start.players && |Look(s, id).value.active| < start.max
  {
    hide Next, Lawful, Core, Enter;
    Rosters.RosterIsSettled(cfg, r, i, j, id);
    Safety.RunHolds(cfg, r, j);
    GetsIn(cfg, r.states[j], x, id, password, io);
  }

  /** In every run, once a game started no request starts it again or changes its settings, in memory or after reloading. */
  lemma StartedForGood(cfg: Config, r: Run, i: nat, j: nat, id: Id, p: Id, q: Request, io: Io)
    requires IsRun(cfg, r) && i <= j < |r.states| && id in r.states[i].issued
    requires Look(r.states[i], id).Some? && Look(r.states[i], id).value.started && id in r.states[j].rooms
    requires q.StartGame? || q.UpdateRoom?
    ensures RoomRequest(cfg, r.states[j].rooms[id], p, q, io, r.states[j].now) == r.states[j].rooms[id]
  {
    hide IsRun;
    Rosters.RosterIsSettled(cfg, r, i, j, id);
  }

  /** The newest 128 of a list of events. */
  function Newest(events: seq<nat>): seq<nat> {
    if |events| <= Sessions.REMEMBERED then events else events[|events| - Sessions.REMEMBERED..]
  }

  /** Is the notification accepted: by the owner of a started fixed game, to its roster, not remembered and not limited? */
  predicate Notifies(cfg: Config, r: Room, p: Id, q: Request)
    requires q.Notify?
  {
    && cfg.push && r.owner == p && r.started && r.fixed && !q.limited
    && q.eventId !in r.events && forall x :: x in q.to ==> x in r.players
  }

  predicate AllNotify(asks: seq<(Id, Request)>) {
    forall a :: a in asks ==> a.1.Notify?
  }

  /** The room after a series of notification requests, and the events that were accepted, in order. */
  function AfterNotices(cfg: Config, r: Room, asks: seq<(Id, Request)>): Room
    requires AllNotify(asks)
  {
    if asks == [] then r
    else
      var n := |asks| - 1;
      Notified(cfg, AfterNotices(cfg, r, asks[..n]), asks[n].0, asks[n].1)
  }

  function Accepted(cfg: Config, r: Room, asks: seq<(Id, Request)>): seq<nat>
    requires AllNotify(asks)
  {
    if asks == [] then []
    else
      var n := |asks| - 1;
      Accepted(cfg, r, asks[..n])
      + if Notifies(cfg, AfterNotices(cfg, r, asks[..n]), asks[n].0, asks[n].1) then [asks[n].1.eventId] else []
  }

  /**
   * After any series of notification requests the room remembers exactly the newest 128 accepted events, in order and each
   * once, and nothing else of it changed; so an event is refused again for as long as fewer than 128 newer ones came.
   */
  lemma {:induction false} NewestEventsRemembered(cfg: Config, r: Room, asks: seq<(Id, Request)>)
    requires RoomOk(r) && AllNotify(asks)
    ensures var t := AfterNotices(cfg, r, asks);
      && t == r.(events := Newest(r.events + Accepted(cfg, r, asks)))
      && IndexSet.Distinct(t.events) && |t.events| <= Sessions.REMEMBERED
  {
    if asks == [] {
      assert r.events + [] == r.events;
    } else {
      var n := |asks| - 1;
      NewestEventsRemembered(cfg, r, asks[..n]);
      var t, all := AfterNotices(cfg, r, asks[..n]), r.events + Accepted(cfg, r, asks[..n]);
      var e := asks[n].1.eventId;
      if Notifies(cfg, t, asks[n].0, asks[n].1) {
        assert r.events + Accepted(cfg, r, asks) == all + [e];
        OneNewer(all, e);
      } else {
        assert Accepted(cfg, r, asks) == Accepted(cfg, r, asks[..n]);
      }
    }
  }

  lemma OneNewer(all: seq<nat>, e: nat)
    requires e !in Newest(all)
    ensures Sessions.Remember(Newest(all), e) == Newest(all + [e])
  {
  }

  // ---- accounts

  /** Nobody is forgotten while connected, within the account lifetime, or while on the roster of a fixed game in memory. */
  lemma ForgottenExactly(cfg: Config, s: State, p: Id)
    requires p in s.players
    ensures p in Expire(cfg, s).players <==>
      || s.players[p].connection.Some? || s.players[p].offline.None?
      || Minus(s.now, s.players[p].offline.value) < cfg.accountTtl
      || exists id :: id in s.rooms && s.rooms[id].fixed && p in s.rooms[id].players
    ensures p in Expire(cfg, s).players ==> Expire(cfg, s).players[p] == s.players[p]
    ensures p !in Expire(cfg, s).players ==> forall id :: id in Expire(cfg, s).rooms ==> p !in Expire(cfg, s).rooms[id].reservations
    ensures var t := Expire(cfg, s);
      t.rooms.Keys == s.rooms.Keys && forall id :: id in s.rooms ==>
        && t.rooms[id] == s.rooms[id].(reservations := t.rooms[id].reservations)
        && (forall q :: q in s.rooms[id].reservations && (q in t.players || q !in s.players) ==> q in t.rooms[id].reservations)
        && (forall q :: q in t.rooms[id].reservations ==> q in s.rooms[id].reservations)
  {
  }

  /**
   * Logging in moves an account to the socket exactly when the account is known and the secret is right. With the
   * identifier in its own spelling the old socket is then closing and its queued frames are gone; in another spelling
   * the stored record takes the place of the one in memory and the old socket is left as it is.
   */
  lemma LogInExactly(cfg: Config, s: State, cid: nat, key: Id, exact: bool, password: Json, io: Io)
    requires Inv(s) && cid in s.conns && s.conns[cid].player.None?
    ensures var t := LogIn(cfg, s, cid, key, exact, password, io);
      if Account(cfg, s, key, exact, io).Some? && Account(cfg, s, key, exact, io).value.secret == password then
        && key in t.players && t.players[key].connection == Some(cid) && t.players[key].secret == password
        && t.conns[cid].player == Some(key) && t.players[key].offline.None?
        && (exact && key in s.players && s.players[key].connection.Some? ==>
              && s.players[key].connection.value in t.conns && t.conns[s.players[key].connection.value].closing
              && forall d :: d in t.delayed ==> d.cid != s.players[key].connection.value)
        && (!exact ==>
              && t.players[key] == Player(s.accounts[key], Some(cid), None, None, None, 0)
              && t.rooms == s.rooms && t.delayed == s.delayed
              && forall x :: x in s.conns && x != cid ==> x in t.conns && t.conns[x] == s.conns[x])
      else t.players == s.players && t.rooms == s.rooms && t.delayed == s.delayed
  {
    hide Inv, Account, TakeOver;
    var account := Account(cfg, s, key, exact, io);
    AccountOfKnown(cfg, s, key, exact, io);
    OwnSocket(s, key, cid);
    if account.Some? && account.value.secret == password {
      if account.value.connection.None? && account.value.room.None? {
        PlainMove(cfg, s.(players := s.players[key := account.value]), cid, key, io);
      }
      TakeOverMoves(cfg, s.(players := s.players[key := account.value]), cid, key, io);
    }
  }

  /** An account without socket or room moves without touching anything else. */
  lemma PlainMove(cfg: Config, s: State, cid: nat, key: Id, io: Io)
    requires cid in s.conns && key in s.players && s.players[key].connection.None? && s.players[key].room.None?
    ensures var t := TakeOver(cfg, s, cid, key, io);
      && t.players == s.players[key := s.players[key].(connection := Some(cid), offline := None)]
      && t.rooms == s.rooms && t.delayed == s.delayed && t.conns == s.conns[cid := s.conns[cid].(player := Some(key))]
  {
    hide Leave;
  }

  /**
   * A login keeps the invariants exactly when it does not replace the record of an account that is in a room: the
   * identifier is in its own spelling, or no such account is in memory, or it is in no room, or the login fails.
   */
  lemma LogInKeepsInvariantsExactly(cfg: Config, s: State, cid: nat, key: Id, exact: bool, password: Json, io: Io)
    requires Inv(s) && cid in s.conns && s.conns[cid].player.None?
    ensures Inv(LogIn(cfg, s, cid, key, exact, password, io)) <==> !Displaces(cfg, s, Login(key, exact, password), io)
  {
    var t := LogIn(cfg, s, cid, key, exact, password, io);
    if Displaces(cfg, s, Login(key, exact, password), io) {
      LogInExactly(cfg, s, cid, key, exact, password, io);
      DisplacedMember(s, t, key);
    } else {
      Preservation.LogInHolds(cfg, s, cid, key, exact, password, io);
    }
  }

  /** The expiry that comes first changes nothing about it: whoever is in a room is online. */
  lemma AuthenticateKeepsInvariantsExactly(cfg: Config, s: State, cid: nat, c: Credentials, io: Io)
    requires Inv(s) && cid in s.conns && s.conns[cid].player.None? && (c.Guest? ==> c.id !in s.players)
    ensures Inv(Authenticate(cfg, s, cid, c, io)) <==> !Displaces(cfg, s, c, io)
  {
    hide Core, LogIn, Expire;
    Preservation.ExpireHolds(cfg, s);
    Presence.ExpireIs(cfg, s);
    RoomMembersStay(cfg, s);
    match c
    case Login(key, exact, password) =>
      LogInKeepsInvariantsExactly(cfg, Expire(cfg, s), cid, key, exact, password, io);
    case Guest(id, secret) => Preservation.AuthenticateHolds(cfg, s, cid, c, io);
  }

  lemma RoomMembersStay(cfg: Config, s: State)
    requires Inv(s)
    ensures Expire(cfg, s).accounts == s.accounts && Expire(cfg, s).players.Keys <= s.players.Keys
    ensures forall p :: p in Expire(cfg, s).players ==> Expire(cfg, s).players[p] == s.players[p]
    ensures forall p :: p in s.players && s.players[p].room.Some? ==> p in Expire(cfg, s).players
  {
    hide Core;
  }

  /** So of all messages that authenticate, exactly the displacing logins that get through break the invariants. */
  lemma MessageKeepsInvariantsExactly(cfg: Config, s: State, c: Step)
    requires Inv(s) && s.now <= c.at && c.action.Received? && c.action.frame.body.AuthBody?
    requires var who := c.action.frame.body.credentials; who.Guest? ==> who.id !in s.players
    ensures var frame := c.action.frame;
      Inv(Next(cfg, s, c)) <==> !Displacing(cfg, At(s, c.at), c.action.cid, frame)
  {
    hide Core, Rules.Receive, Authenticate, Dispatch, Counted, Paired, Seated;
    var t, cid, frame := At(s, c.at), c.action.cid, c.action.frame;
    InvLater(s, c.at);
    ReceiveCases(cfg, t, cid, frame);
    if Introduces(cfg, t, cid, frame) {
      CountedCalm(t, cid);
      Preservation.OwnersHold(t, CountedState(t, cid).conns, t.delayed);
      AuthenticateKeepsInvariantsExactly(cfg, CountedState(t, cid), cid, frame.body.credentials, frame.io);
    } else {
      UnmovedHolds(t, Next(cfg, s, c));
    }
  }

  lemma InvLater(s: State, t: nat)
    requires Inv(s) && s.now <= t
    ensures Inv(At(s, t))
  {
  }

  lemma UnmovedHolds(s: State, t: State)
    requires Inv(s) && Unmoved(s, t)
    ensures Inv(t)
  {
    hide RoomOk;
  }

  /** An account that is in a room by the room's list but not by its record breaks membership. */
  lemma DisplacedMember(s: State, t: State, key: Id)
    requires Inv(s) && key in s.players && s.players[key].room.Some?
    requires t.rooms == s.rooms && key in t.players && t.players[key].room.None?
    ensures !Inv(t)
  {
    hide RoomOk, Clocked, WorldsOk;
    assert key in s.rooms[s.players[key].room.value].active;
  }

  lemma TakeOverMoves(cfg: Config, s: State, cid: nat, key: Id, io: Io)
    requires cid in s.conns && key in s.players
    requires s.players[key].connection.Some? ==> s.players[key].connection.value in s.conns && s.players[key].connection.value != cid
    ensures var t := TakeOver(cfg, s, cid, key, io);
      && key in t.players && t.players[key].connection == Some(cid) && t.players[key].secret == s.players[key].secret
      && t.players[key].offline.None? && cid in t.conns && t.conns[cid].player == Some(key)
      && (s.players[key].connection.Some? ==>
            s.players[key].connection.value in t.conns && t.conns[s.players[key].connection.value].closing
            && forall d :: d in t.delayed ==> d.cid != s.players[key].connection.value)
  {
    hide Leave, Bind, InFixedGame;
    LeaveMoves(cfg, s, key, true, io);
    IdleKeeps(s.players, Leavers(s, key), key);
    BindMoves(cfg, if InFixedGame(s, key) then Leave(cfg, s, key, true, io) else s, cid, key, io);
  }

  lemma IdleKeeps(players: map<Id, Player>, out: set<Id>, p: Id)
    requires p in players
    ensures var t := Idle(players, out);
      p in t && t[p].connection == players[p].connection && t[p].secret == players[p].secret
  {
  }

  lemma AccountOfKnown(cfg: Config, s: State, key: Id, exact: bool, io: Io)
    ensures exact && key in s.players ==> Account(cfg, s, key, exact, io) == Some(s.players[key])
    ensures !(exact && key in s.players) && Account(cfg, s, key, exact, io).Some? ==>
      key in s.accounts && Account(cfg, s, key, exact, io) == Some(Player(s.accounts[key], None, None, None, Some(s.now), 0))
    ensures cfg.stored && !(exact && key in s.players) && key in s.accounts && !io.readable ==> Account(cfg, s, key, exact, io).None?
  {
  }

  lemma OwnSocket(s: State, key: Id, cid: nat)
    requires Inv(s) && cid in s.conns && s.conns[cid].player.None?
    ensures key in s.players && s.players[key].connection.Some? ==>
      s.players[key].connection.value in s.conns && s.players[key].connection.value != cid
  {
    hide Core;
  }

  /** What the account and its sockets look like once it moved. */
  lemma BindMoves(cfg: Config, s: State, cid: nat, id: Id, io: Io)
    requires cid in s.conns && id in s.players
    ensures var t := Bind(cfg, s, cid, id, io);
      && id in t.players && t.players[id] == s.players[id].(connection := Some(cid), offline := None)
      && cid in t.conns && t.conns[cid].player == Some(id)
      && (s.players[id].connection.Some? && s.players[id].connection.value in s.conns && s.players[id].connection.value != cid ==>
            && s.players[id].connection.value in t.conns && t.conns[s.players[id].connection.value].closing
            && forall d :: d in t.delayed ==> d.cid != s.players[id].connection.value)
  {
  }

  // ---- datagrams

  /** The session of an open connection. */
  function SessionOf(s: State, cid: nat): Session
    requires cid in s.conns && s.conns[cid].udp.Some?
  {
    s.conns[cid].udp.value
  }

  /**
   * The handshake completes: after a taken probe from `a`, a taken echo from `a` with the challenge, in time and with
   * the challenge still open, binds `a` and uses the challenge up.
   */
  lemma HandshakeBinds(cfg: Config, s: State, bytes: seq<byte>, a: Address, nonce: seq<byte>, later: State,
          echo: seq<byte>, other: seq<byte>)
    requires Channel.Taken(cfg, s, bytes) && Fields(bytes).kind == PROBE
    requires Channel.Taken(cfg, later, echo) && Fields(echo).kind == ECHO && Fields(echo).cid == Fields(bytes).cid
    requires Fields(echo).payload == nonce
    requires var t := Datagram(cfg, s, bytes, a, nonce).0;
      SessionOf(later, Fields(bytes).cid).challenge == SessionOf(t, Fields(bytes).cid).challenge
    requires Minus(later.now, s.now) <= cfg.challengeTtl
    ensures var cid := Fields(bytes).cid;
      var u := Datagram(cfg, later, echo, a, other).0;
      && SessionOf(u, cid).endpoint == Some(Binding(a, later.now)) && SessionOf(u, cid).challenge.None?
  {
    hide Encode, Signed, AntiReplay.Admit, Rates.Accept;
  }
}

/** The three rate limits of a connection over whole runs. */
module Limits {
  import opened Model
  import opened Rules
  import opened Invariants
  import opened Relay
  import opened Presence
  import opened Handling
  import opened Meters
  import Channel
  import Provenance
  import Udp
  import Rates
  import Safety
  import QueueRuns

  /** The message limit of a connection as a fixed window. */
  function Messages(c: Connection): Rate {
    Rate(c.rateAt, c.messages)
  }

  /** How the message limit of one connection sees a command. */
  function HearEvent(cfg: Config, s: State, c: Action, cid: nat): Rates.Event {
    if c.Received? && c.cid == cid && Heard(s, cid) then Rates.Seen(s.now, Passed(cfg, s, cid)) else Rates.Quiet
  }

  /** The limits of one connection across a command. */
  ghost predicate StepPasses(cfg: Config, s: State, c: Action, t: State, cid: nat)
    requires cid in s.conns && cid in t.conns
  {
    && Rates.Passes(s.conns[cid].incoming, TakeEvent(cfg, s, c, cid), t.conns[cid].incoming, cfg.udpIncoming, Rates.SECOND)
    && Rates.Passes(s.conns[cid].outgoing, SendEvent(cfg, s, c, t, cid), t.conns[cid].outgoing, cfg.udpOutgoing, Rates.SECOND)
    && Rates.Passes(Messages(s.conns[cid]), HearEvent(cfg, s, c, cid), Messages(t.conns[cid]), cfg.maxMessages, Rates.SECOND)
  }

  lemma CountedPasses(cfg: Config, c: Connection, now: nat)
    ensures Rates.Passes(Messages(c), Rates.Seen(now, Counted(c, now).messages <= cfg.maxMessages), Messages(Counted(c, now)), cfg.maxMessages, Rates.SECOND)
    ensures Counted(c, now).incoming == c.incoming && Counted(c, now).outgoing == c.outgoing
  {
  }

  lemma SamePasses(cfg: Config, s: State, c: Action, t: State, cid: nat)
    requires cid in s.conns && cid in t.conns && SameMeter(s.conns[cid], t.conns[cid])
    requires !c.Arrived? && HearEvent(cfg, s, c, cid) == Rates.Quiet
    ensures StepPasses(cfg, s, c, t, cid)
  {
    hide Sends;
    NothingSent(cfg, s, c, cid);
  }

  lemma NothingSent(cfg: Config, s: State, c: Action, cid: nat)
    requires !c.Arrived?
    ensures !Sends(cfg, s, c, cid)
  {
  }

  lemma ReceivedPasses(cfg: Config, s: State, c: Action, cid: nat)
    requires c.Received? && cid in s.conns && cid in Receive(cfg, s, c.cid, c.frame).conns
    ensures StepPasses(cfg, s, c, Receive(cfg, s, c.cid, c.frame), cid)
  {
    hide Receive, Rates.Passes, Sends, Heard;
    var t := Receive(cfg, s, c.cid, c.frame);
    ReceiveMeters(cfg, s, c.cid, c.frame);
    QuietPasses(s.conns[cid].incoming, cfg.udpIncoming);
    QuietPasses(s.conns[cid].outgoing, cfg.udpOutgoing);
    QuietPasses(Messages(s.conns[cid]), cfg.maxMessages);
    CountedPasses(cfg, s.conns[cid], s.now);
    NothingSent(cfg, s, c, cid);
    if Heard(s, c.cid) {
      HeardSocket(s, c.cid);
      assert SameMeter(CountedState(s, c.cid).conns[cid], t.conns[cid]);
    }
  }

  lemma HeardSocket(s: State, cid: nat)
    requires Heard(s, cid)
    ensures cid in s.conns
  {
  }

  lemma StepLimits(cfg: Config, s: State, c: Step, cid: nat)
    requires Inv(s) && Lawful(cfg, s, c) && cid in s.conns && cid in Next(cfg, s, c).conns
    ensures StepPasses(cfg, At(s, c.at), c.action, Next(cfg, s, c), cid)
  {
    hide Sweep, Receive, Disconnect, Udp.Datagram, Inv, StepPasses, Heard;
    var t, u := At(s, c.at), Next(cfg, s, c);
    match c.action {
      case Connected(x) => SamePasses(cfg, t, c.action, u, cid);
      case Disconnected(x, io) => DisconnectMeters(cfg, t, x, io); SamePasses(cfg, t, c.action, u, cid);
      case Received(x, frame) => ReceivedPasses(cfg, t, c.action, cid);
      case Arrived(bytes, source, nonce) => ArrivedPasses(cfg, s, c, cid);
      case Closed(x) => SamePasses(cfg, t, c.action, u, cid);
      case Swept(order) => SweepMeters(cfg, t, order); SamePasses(cfg, t, c.action, u, cid);
    }
  }

  lemma ArrivedPasses(cfg: Config, s: State, c: Step, cid: nat)
    requires Inv(s) && Lawful(cfg, s, c) && c.action.Arrived? && cid in s.conns && cid in Next(cfg, s, c).conns
    ensures StepPasses(cfg, At(s, c.at), c.action, Next(cfg, s, c), cid)
  {
    hide Inv, Rates.Passes, Udp.Datagram, Udp.Genuine, Sends;
    LawfulAt(cfg, s, c);
    DatagramLimits(cfg, At(s, c.at), c.action, cid);
    QuietPasses(Messages(s.conns[cid]), cfg.maxMessages);
  }

  lemma LawfulAt(cfg: Config, s: State, c: Step)
    requires Inv(s) && Lawful(cfg, s, c)
    ensures Inv(At(s, c.at))
  {
    hide DrainAdmissible;
  }

  // ---- runs

  /** No window of a connection opened ahead of the clock. */
  predicate Timely(c: Connection, now: nat) {
    c.incoming.at <= now && c.outgoing.at <= now && c.rateAt <= now
  }

  lemma NewSockets(cfg: Config, s: State, c: Step, cid: nat)
    requires Lawful(cfg, s, c) && cid in Next(cfg, s, c).conns && cid !in s.conns
    requires Onward(s, Next(cfg, s, c)) && s.conns.Keys <= s.sockets
    ensures Next(cfg, s, c).conns[cid] == NewConnection(c.at)
  {
    hide Sweep, Receive, Disconnect, Udp.Datagram, Onward;
    var t := At(s, c.at);
    match c.action {
      case Connected(x) =>
      case Disconnected(x, io) => DisconnectMeters(cfg, t, x, io);
      case Received(x, frame) => ReceiveMeters(cfg, t, x, frame);
      case Arrived(bytes, source, nonce) => Safety.DatagramChangesSessions(cfg, t, bytes, source, nonce);
      case Closed(x) =>
      case Swept(order) => SweepMeters(cfg, t, order);
    }
  }

  lemma PassesTimely(g: Rate, e: Rates.Event, h: Rate, limit: nat, now: nat)
    requires Rates.Passes(g, e, h, limit, Rates.SECOND) && g.at <= now && (e.Seen? ==> e.at <= now)
    ensures h.at <= now
  {
  }

  lemma {:induction false} RunTimely(cfg: Config, r: Run, i: nat, cid: nat)
    requires IsRun(cfg, r) && i < |r.states| && cid in r.states[i].conns
    ensures Timely(r.states[i].conns[cid], r.states[i].now)
  {
    hide Next, Lawful, Inv, Onward, Rates.Passes, Heard, Sends, Udp.Genuine;
    if i > 0 {
      var s, c, t := r.states[i - 1], r.steps[i - 1], r.states[i];
      assert Lawful(cfg, s, c);
      QueueRuns.LawfulClock(cfg, r, i - 1);
      QueueRuns.StepClock(cfg, r, i - 1);
      if cid in s.conns {
        RunTimely(cfg, r, i - 1, cid);
        Safety.RunHolds(cfg, r, i - 1);
        StepLimits(cfg, s, c, cid);
        PassesTimely(s.conns[cid].incoming, TakeEvent(cfg, At(s, c.at), c.action, cid), t.conns[cid].incoming, cfg.udpIncoming, t.now);
        PassesTimely(s.conns[cid].outgoing, SendEvent(cfg, At(s, c.at), c.action, t, cid), t.conns[cid].outgoing, cfg.udpOutgoing, t.now);
        PassesTimely(Messages(s.conns[cid]), HearEvent(cfg, At(s, c.at), c.action, cid), Messages(t.conns[cid]), cfg.maxMessages, t.now);
      } else {
        RunOnward(cfg, r, i - 1, i);
        NewSockets(cfg, s, c, cid);
      }
    }
  }

  /** A socket that is open at both ends was open in between. */
  lemma StaysOpen(cfg: Config, r: Run, i: nat, x: nat, j: nat, cid: nat)
    requires IsRun(cfg, r) && i <= x <= j < |r.states| && cid in r.states[i].conns && cid in r.states[j].conns
    ensures cid in r.states[x].conns
  {
    hide Next, Lawful;
    RunOnward(cfg, r, i, x);
    RunOnward(cfg, r, x, j);
  }

  lemma {:induction false} ClockAlong(cfg: Config, r: Run, i: nat, x: nat)
    requires IsRun(cfg, r) && i <= x < |r.steps|
    ensures r.states[i].now <= r.steps[x].at
    ensures i < x ==> r.steps[i].at <= r.steps[x].at
  {
    hide Next, Lawful, Onward;
    QueueRuns.LawfulClock(cfg, r, x);
    RunOnward(cfg, r, i, x);
    OnwardClock(r.states[i], r.states[x]);
    if i < x {
      QueueRuns.StepClock(cfg, r, i);
      RunOnward(cfg, r, i + 1, x);
      OnwardClock(r.states[i + 1], r.states[x]);
    }
  }

  /** The commands from `i` to `j`, with connection `cid` open throughout. */
  ghost predicate Spans(r: Run, cid: nat, i: nat, j: nat) {
    |r.states| == |r.steps| + 1 && i <= j < |r.states| && forall x :: i <= x <= j ==> cid in r.states[x].conns
  }

  /** The events of one limiter of connection `cid` during the commands from `i` to `j`. */
  ghost function Events(cfg: Config, r: Run, cid: nat, i: nat, j: nat, which: Limiter): seq<Rates.Event>
    requires Spans(r, cid, i, j)
  {
    seq(j - i, k requires 0 <= k < j - i => EventOf(cfg, r, cid, i + k, which))
  }

  datatype Limiter = Incoming | Outgoing | Frames

  /** What one limiter of connection `cid` sees of command `x`. */
  ghost function EventOf(cfg: Config, r: Run, cid: nat, x: nat, which: Limiter): Rates.Event
    requires x < |r.steps| && |r.states| == |r.steps| + 1 && cid in r.states[x].conns && cid in r.states[x + 1].conns
  {
    var s, c := At(r.states[x], r.steps[x].at), r.steps[x].action;
    match which
    case Incoming => TakeEvent(cfg, s, c, cid)
    case Outgoing => SendEvent(cfg, s, c, r.states[x + 1], cid)
    case Frames => HearEvent(cfg, s, c, cid)
  }

  function GateOf(c: Connection, which: Limiter): Rate {
    match which
    case Incoming => c.incoming
    case Outgoing => c.outgoing
    case Frames => Messages(c)
  }

  function LimitOf(cfg: Config, which: Limiter): nat {
    match which
    case Incoming => cfg.udpIncoming
    case Outgoing => cfg.udpOutgoing
    case Frames => cfg.maxMessages
  }

  ghost function Gates(r: Run, cid: nat, i: nat, j: nat, which: Limiter): seq<Rate>
    requires Spans(r, cid, i, j)
  {
    seq(j - i + 1, k requires 0 <= k <= j - i => GateOf(r.states[i + k].conns[cid], which))
  }

  lemma EventTime(cfg: Config, r: Run, cid: nat, x: nat, which: Limiter)
    requires x < |r.steps| && |r.states| == |r.steps| + 1 && cid in r.states[x].conns && cid in r.states[x + 1].conns
    ensures EventOf(cfg, r, cid, x, which).Seen? ==> EventOf(cfg, r, cid, x, which).at == r.steps[x].at
  {
    hide Sends, Heard, Udp.Genuine;
  }

  lemma PassesAt(cfg: Config, r: Run, cid: nat, x: nat, which: Limiter)
    requires IsRun(cfg, r) && x < |r.steps| && cid in r.states[x].conns && cid in r.states[x + 1].conns
    ensures Rates.Passes(GateOf(r.states[x].conns[cid], which), EventOf(cfg, r, cid, x, which), GateOf(r.states[x + 1].conns[cid], which),
                         LimitOf(cfg, which), Rates.SECOND)
  {
    hide Next, Inv, Lawful, Rates.Passes, Sends, Heard, Udp.Genuine;
    assert Lawful(cfg, r.states[x], r.steps[x]);
    Safety.RunHolds(cfg, r, x);
    StepLimits(cfg, r.states[x], r.steps[x], cid);
  }

  /** A socket that is open at both ends is open in between. */
  lemma OpenSpans(cfg: Config, r: Run, cid: nat, i: nat, j: nat)
    requires IsRun(cfg, r) && i <= j < |r.states| && cid in r.states[i].conns && cid in r.states[j].conns
    ensures Spans(r, cid, i, j)
  {
    forall x | i <= x <= j ensures cid in r.states[x].conns { StaysOpen(cfg, r, i, x, j, cid); }
    assert |r.states| == |r.steps| + 1;
  }

  lemma LimiterTrace(cfg: Config, r: Run, cid: nat, i: nat, j: nat, which: Limiter)
    requires IsRun(cfg, r) && Spans(r, cid, i, j)
    ensures Rates.IsTrace(Gates(r, cid, i, j, which), Events(cfg, r, cid, i, j, which), LimitOf(cfg, which), Rates.SECOND)
  {
    hide IsRun, EventOf, GateOf, Rates.Passes;
    var gates, events := Gates(r, cid, i, j, which), Events(cfg, r, cid, i, j, which);
    forall k | 0 <= k < |events| ensures Rates.Passes(gates[k], events[k], gates[k + 1], LimitOf(cfg, which), Rates.SECOND) {
      PassesAt(cfg, r, cid, i + k, which);
    }
    RunTimely(cfg, r, i, cid);
    TimelyGate(r.states[i].conns[cid], r.states[i].now, which);
    forall k | 0 <= k < |events| && events[k].Seen? ensures events[k].at == r.steps[i + k].at && r.states[i].now <= events[k].at {
      EventTime(cfg, r, cid, i + k, which);
      ClockAlong(cfg, r, i, i + k);
    }
    forall k, l | 0 <= k < l < |events| && events[k].Seen? && events[l].Seen? ensures events[k].at <= events[l].at {
      ClockAlong(cfg, r, i + k, i + l);
    }
  }

  lemma TimelyGate(c: Connection, now: nat, which: Limiter)
    requires Timely(c, now)
    ensures GateOf(c, which).at <= now
  {
  }

  /**
   * In every run, in any stretch of `span` milliseconds, a connection gets at most `limit * (ceil(span / 1000) + 1)`
   * authenticated datagrams accepted, datagrams sent, or WebSocket messages accepted, however often it closes
   * and opens UDP sessions meanwhile.
   */
  lemma LimitsHold(cfg: Config, r: Run, cid: nat, i: nat, j: nat, which: Limiter, a: nat, span: nat)
    requires IsRun(cfg, r) && i <= j < |r.states| && cid in r.states[i].conns && cid in r.states[j].conns
    ensures Spans(r, cid, i, j)
    ensures Rates.Count(Events(cfg, r, cid, i, j, which), a, a + span) <= LimitOf(cfg, which) * (Rates.Windows(span, 1000) + 1)
  {
    hide IsRun, Events, Gates, Rates.IsTrace, Rates.Count;
    OpenSpans(cfg, r, cid, i, j);
    LimiterTrace(cfg, r, cid, i, j, which);
    Rates.Bound(Gates(r, cid, i, j, which), Events(cfg, r, cid, i, j, which), LimitOf(cfg, which), Rates.SECOND, a, span);
  }

  /** Every packet that a datagram causes is one that its connection's limiter counts, and no two are the same connection's. */
  lemma PacketsAreCounted(cfg: Config, s: State, c: Action, k: nat, l: nat) returns (x: nat, y: nat)
    requires Inv(s) && c.Arrived?
    requires k < |Udp.Datagram(cfg, s, c.bytes, c.source, c.nonce).1|
    requires l < |Udp.Datagram(cfg, s, c.bytes, c.source, c.nonce).1|
    ensures Sends(cfg, s, c, x) && Sends(cfg, s, c, y) && (k != l ==> x != y)
  {
    hide Inv, Udp.Live, Udp.Sensible, Udp.Signed, Udp.Spread, Udp.Emit, Channel.Copies, Channel.Copy, Provenance.RoomOf;
    var pk := Udp.Fields(c.bytes);
    if pk.kind == Udp.DATA {
      Provenance.DataIsCopied(cfg, s, c.bytes, c.source, c.nonce);
      Provenance.CarriedLive(cfg, s, c.bytes, c.source);
      Provenance.InvParts(s);
      RoomDistinct(s, pk.cid);
      var p, ids := s.conns[pk.cid].player.value, Provenance.RoomOf(s, pk.cid).active;
      var m := Channel.CopyOf(cfg, s.players, s.conns, ids, p, pk.target, pk.payload, s.now, k);
      var n := Channel.CopyOf(cfg, s.players, s.conns, ids, p, pk.target, pk.payload, s.now, l);
      x := CopySends(cfg, s, c, ids[m]);
      y := CopySends(cfg, s, c, ids[n]);
    } else {
      x, y := pk.cid, pk.cid;
    }
  }

  lemma CopySends(cfg: Config, s: State, c: Action, q: Id) returns (cid: nat)
    requires Paired(s.players, s.conns) && c.Arrived? && Provenance.Carried(cfg, s, c.bytes, c.source)
    requires Udp.Live(s, Udp.Fields(c.bytes).cid) && q in Provenance.RoomOf(s, Udp.Fields(c.bytes).cid).active
    requires var pk := Udp.Fields(c.bytes);
      Channel.Copy(cfg, s.players, s.conns, q, s.conns[pk.cid].player.value, pk.target, pk.payload, s.now) != []
    ensures Sends(cfg, s, c, cid) && q in s.players && s.players[q].connection == Some(cid) && cid in s.conns
    ensures s.conns[cid].player == Some(q)
  {
    hide Udp.Emit;
    cid := s.players[q].connection.value;
  }
}

/** What becomes of a frame that waits: when it is released, when it runs, and that none is lost. */
module Frames {
  import opened Model
  import opened Rules
  import opened Invariants
  import opened Relay
  import opened Presence
  import opened Queue
  import opened QueueRuns
  import Safety
  import Udp

  /**
   * When its turn comes a delayed frame runs exactly when its socket still serves its account and is not closing, and the
   * frame is about no room or the account is in the very stay in which the frame arrived. Running it is handing it to the
   * request handlers; else it only stops counting.
   */
  lemma ReleasedFrameRunsExactly(cfg: Config, r: Run, k: nat, m: nat) returns (j: nat)
    requires IsRun(cfg, r) && k < |r.steps| && r.steps[k].action.Swept?
    requires m < Due(r.states[k].delayed, r.steps[k].at) <= |r.states[k].delayed|
    ensures var d, w := r.states[k].delayed[m], Midway(cfg, r, k, m);
      && j < k && r.steps[j].action == Received(d.cid, d.frame) && Serves(r.states[j], d.cid)
      && (d.cid in w.conns ==>
            Release(cfg, w, d) ==
              if Serves(w, d.cid) && !w.conns[d.cid].closing
                 && (AboutNoRoom(d.frame.body) || Holder(w, d.cid).version == Holder(r.states[j], d.cid).version)
              then Dispatch(cfg, Discharged(w, d), d.cid, d.frame) else Discharged(w, d))
      && (d.cid !in w.conns ==> Release(cfg, w, d) == w)
  {
    hide Next, Lawful, Queued, Released, Release, Dispatch;
    var d := r.states[k].delayed[m];
    j := Origin(cfg, r, k, d);
    QueuedIs(cfg, r.states[j], r.steps[j], d);
    var w := Midway(cfg, r, k, m);
    if d.cid in w.conns { RunsIsDispatch(cfg, w, d); } else { Gone(cfg, w, d); }
  }

  lemma Gone(cfg: Config, s: State, d: Delayed)
    requires d.cid !in s.conns
    ensures Release(cfg, s, d) == s
  {
  }

  // ---- nothing is lost

  /** An entry that waits still waits after the command, is released by it, or its socket is out of service. */
  lemma StepKeepsFrames(cfg: Config, s: State, c: Step, d: Delayed)
    requires Sorted(s.delayed) && Paired(s.players, s.conns) && Lawful(cfg, s, c)
    requires d in s.delayed || d in Queued(cfg, s, c)
    ensures d in Next(cfg, s, c).delayed || d in Leaving(s, c) || !Unreplaced(Next(cfg, s, c), d.cid)
  {
    hide Sweep, Receive, Disconnect, Udp.Datagram, Waiting, Joins, WithoutFrames, Sorted, Paired, Queued;
    var t := At(s, c.at);
    OnlyReceivedQueue(cfg, s, c);
    match c.action {
      case Connected(cid) =>
      case Disconnected(cid, io) =>
        DisconnectQueue(cfg, t, cid, io);
        FilteredKeeps(s.delayed, cid, d);
        SocketGone(cfg, t, cid, io);
      case Received(cid, frame) => ReceivedKeepsFrames(cfg, s, c, d);
      case Arrived(bytes, source, nonce) => Safety.DatagramChangesSessions(cfg, t, bytes, source, nonce);
      case Closed(cid) =>
      case Swept(order) =>
        SweepQueue(cfg, t, order);
        SplitKeeps(s.delayed, Due(s.delayed, c.at), d);
    }
  }

  lemma OnlyReceivedQueue(cfg: Config, s: State, c: Step)
    ensures !c.action.Received? ==> Queued(cfg, s, c) == []
  {
  }

  lemma FilteredKeeps(queue: seq<Delayed>, cid: nat, d: Delayed)
    ensures d in queue && d.cid != cid ==> d in WithoutFrames(queue, cid)
  {
  }

  lemma SocketGone(cfg: Config, s: State, cid: nat, io: Io)
    ensures cid !in Disconnect(cfg, s, cid, io).conns
  {
    hide Leave, WithoutFrames;
    if cid in s.conns && s.conns[cid].player.Some? && s.conns[cid].player.value in s.players {
      var p := s.conns[cid].player.value;
      var out := s.(delayed := WithoutFrames(s.delayed, cid), conns := s.conns - {cid});
      LeaveMoves(cfg, out.(players := s.players[p := s.players[p].(connection := None, offline := Some(s.now))]), p, true, io);
    }
  }

  lemma SplitKeeps(queue: seq<Delayed>, n: nat, d: Delayed)
    requires n <= |queue| && d in queue
    ensures d in queue[..n] || d in queue[n..]
  {
    assert queue == queue[..n] + queue[n..];
  }

  lemma ReceivedKeepsFrames(cfg: Config, s: State, c: Step, d: Delayed)
    requires Paired(s.players, s.conns) && Lawful(cfg, s, c) && c.action.Received?
    requires d in s.delayed || d in Queued(cfg, s, c)
    ensures d in Next(cfg, s, c).delayed || !Unreplaced(Next(cfg, s, c), d.cid)
  {
    hide Receive, Waiting, Joins, WithoutFrames, Paired, Unreplaced;
    var t, cid, frame := At(s, c.at), c.action.cid, c.action.frame;
    if cid in s.conns {
      ReceiveQueue(cfg, t, cid, frame);
      if t.delayed != Next(cfg, s, c).delayed && !Joins(cfg, t, cid, frame) {
        var gone :| Next(cfg, s, c).delayed == WithoutFrames(t.delayed, gone) && !Unreplaced(Next(cfg, s, c), gone);
        FilteredKeeps(t.delayed, gone, d);
      }
    } else {
      ReceiveUnknown(cfg, t, cid, frame);
    }
  }

  /** A socket out of service does not come back. */
  lemma StaysReplaced(s: State, t: State, cid: nat)
    requires Onward(s, t) && cid in s.sockets && !Unreplaced(s, cid)
    ensures !Unreplaced(t, cid) && cid in t.sockets
  {
  }

  /**
   * In every run a frame that was queued still waits, was released by a sweep, or its socket is gone or no longer serves
   * its account: nothing else takes a frame out of the queue.
   */
  lemma {:induction false} NoFrameIsLost(cfg: Config, r: Run, j: nat, i: nat, d: Delayed)
    requires IsRun(cfg, r) && j < i < |r.states| && d in Queued(cfg, r.states[j], r.steps[j])
    ensures d in r.states[i].delayed || !Unreplaced(r.states[i], d.cid)
            || exists k :: j < k < i && d in Leaving(r.states[k], r.steps[k])
    decreases i
  {
    hide Next, Lawful, Onward, Queued, Leaving, Sorted, Paired, Unreplaced;
    var s, c := r.states[i - 1], r.steps[i - 1];
    assert Lawful(cfg, s, c);
    RunSorted(cfg, r, i - 1);
    if i == j + 1 {
      StepKeepsFrames(cfg, s, c, d);
      NotLeavingYet(cfg, s, c, d);
    } else {
      NoFrameIsLost(cfg, r, j, i - 1, d);
      if d in s.delayed {
        StepKeepsFrames(cfg, s, c, d);
      } else if !Unreplaced(s, d.cid) {
        QueuedIs(cfg, r.states[j], r.steps[j], d);
        RunOnward(cfg, r, j, i - 1);
        RunOnward(cfg, r, i - 1, i);
        StillCounted(r.states[j], s, d.cid);
        StaysReplaced(s, r.states[i], d.cid);
      }
    }
  }

  lemma NotLeavingYet(cfg: Config, s: State, c: Step, d: Delayed)
    requires d in Queued(cfg, s, c)
    ensures Leaving(s, c) == []
  {
  }

  lemma StillCounted(s: State, t: State, cid: nat)
    requires Onward(s, t) && cid in s.conns
    ensures cid in t.sockets
  {
  }

  /** And the first sweep at or after its time releases it. */
  lemma DueFramesLeave(cfg: Config, r: Run, k: nat, d: Delayed)
    requires IsRun(cfg, r) && k < |r.steps| && r.steps[k].action.Swept? && d in r.states[k].delayed
    ensures d in Leaving(r.states[k], r.steps[k]) <==> d.at <= r.steps[k].at
  {
    hide Next, Lawful, Released, Drain;
    var queue, now := r.states[k].delayed, r.steps[k].at;
    RunSorted(cfg, r, k);
    DueHead(queue, now);
    DueBounds(queue, now);
    var i :| 0 <= i < |queue| && queue[i] == d;
    assert i < Due(queue, now) ==> queue[..Due(queue, now)][i] == d;
  }

  lemma {:induction false} DueHead(queue: seq<Delayed>, now: nat)
    requires Sorted(queue)
    ensures Due(queue, now) <= |queue|
    ensures forall i :: 0 <= i < Due(queue, now) ==> queue[i].at <= now
    ensures forall i :: Due(queue, now) <= i < |queue| ==> queue[i].at > now
  {
    if queue != [] && queue[0].at <= now {
      DueHead(queue[1..], now);
      forall i | 0 <= i < Due(queue, now) ensures queue[i].at <= now { if i > 0 { assert queue[i] == queue[1..][i - 1]; } }
      forall i | Due(queue, now) <= i < |queue| ensures queue[i].at > now { assert queue[i] == queue[1..][i - 1]; }
    }
  }
}

/** Which frames a command hands to the request handlers, and the state in which each of them runs. */
module Handling {
  import opened Model
  import opened Rules
  import opened Invariants
  import opened Relay
  import opened Presence
  import opened Queue
  import QueueBudget
  import QueueRuns
  import Preservation
  import Safety
  import Sockets

  function CountedState(s: State, cid: nat): State
    requires cid in s.conns
  {
    s.(conns := s.conns[cid := Counted(s.conns[cid], s.now)])
  }

  /** Is the frame handed over as it arrives? */
  predicate AtOnce(cfg: Config, s: State, cid: nat, frame: Frame) {
    && Passed(cfg, s, cid) && s.conns[cid].player.Some?
    && frame.size <= cfg.maxPayload
    && (frame.body.RequestBody? || (frame.body.BinaryBody? && cfg.Fits(frame.size)))
    && (cfg.delay == 0 || frame.body == RequestBody(Pong))
  }

  /** The state after the first `m` entries that a sweep releases. */
  ghost function Halfway(cfg: Config, s: State, c: Step, m: nat): State
    requires m <= |s.delayed|
  {
    Released(cfg, At(s, c.at).(delayed := []), s.delayed, m)
  }

  ghost predicate HandsQueued(cfg: Config, s: State, c: Step, m: nat, cid: nat, frame: Frame, w: State) {
    && m < Due(s.delayed, c.at) <= |s.delayed|
    && s.delayed[m].cid == cid && s.delayed[m].frame == frame
    && QueueRuns.Runs(Halfway(cfg, s, c, m), s.delayed[m])
    && w == Discharged(Halfway(cfg, s, c, m), s.delayed[m])
  }

  /** Command `c` after state `s` hands `frame` of socket `cid` to the handlers, in state `w`. */
  ghost predicate Hands(cfg: Config, s: State, c: Step, cid: nat, frame: Frame, w: State) {
    || (c.action == Received(cid, frame) && AtOnce(cfg, At(s, c.at), cid, frame) && w == CountedState(At(s, c.at), cid))
    || (c.action.Swept? && exists m :: HandsQueued(cfg, s, c, m, cid, frame, w))
  }

  ghost predicate RunsRequest(cfg: Config, s: State, c: Step, cid: nat, q: Request, w: State) {
    exists frame: Frame :: frame.body == RequestBody(q) && Hands(cfg, s, c, cid, frame, w)
  }

  /** Sockets kept their sessions and accounts, and nothing happened to players and worlds. */
  ghost predicate Unmoved(s: State, t: State) {
    && t.players == s.players && t.rooms == s.rooms && t.disk == s.disk && t.now == s.now
    && t.issued == s.issued && t.evicted == s.evicted
    && t.conns.Keys == s.conns.Keys
    && forall x :: x in s.conns ==> t.conns[x].udp == s.conns[x].udp && t.conns[x].player == s.conns[x].player
  }

  /** A message is handed over, introduces an account, or moves nothing. */
  lemma ReceiveCases(cfg: Config, s: State, cid: nat, frame: Frame)
    ensures var t := Receive(cfg, s, cid, frame);
      if AtOnce(cfg, s, cid, frame) then t == Dispatch(cfg, CountedState(s, cid), cid, frame)
      else if Introduces(cfg, s, cid, frame) then
        t == Authenticate(cfg, CountedState(s, cid), cid, frame.body.credentials, frame.io)
      else Unmoved(s, t)
  {
    hide Dispatch, Authenticate, Process, Closing, Unmoved, Counted;
    CalmStays(s, s);
    if Heard(s, cid) {
      CountedCalm(s, cid);
      ClosingCalm(CountedState(s, cid), cid);
      CalmOn(s, CountedState(s, cid), Closing(CountedState(s, cid), cid));
      if Passed(cfg, s, cid) {
        ProcessCases(cfg, s, cid, frame);
        CalmOn(s, CountedState(s, cid), Process(cfg, CountedState(s, cid), cid, frame));
      }
    }
  }

  lemma ProcessCases(cfg: Config, s: State, cid: nat, frame: Frame)
    requires Passed(cfg, s, cid)
    ensures var out := CountedState(s, cid);
      var t := Process(cfg, out, cid, frame);
      if AtOnce(cfg, s, cid, frame) then t == Dispatch(cfg, out, cid, frame)
      else if Introduces(cfg, s, cid, frame) then t == Authenticate(cfg, out, cid, frame.body.credentials, frame.io)
      else Unmoved(out, t)
  {
    hide Dispatch, Authenticate, Closing, Unmoved, Waiting;
    var out := CountedState(s, cid);
    CalmStays(out, out);
    ClosingCalm(out, cid);
    if out.conns[cid].player.Some? { CalmStays(out, Queueing(cfg, out, cid, frame)); }
  }

  /** The state after a frame was put at the end of the queue. */
  function Queueing(cfg: Config, s: State, cid: nat, frame: Frame): State
    requires cid in s.conns && Current(s, cid)
  {
    s.(conns := s.conns[cid := s.conns[cid].(delayed := s.conns[cid].delayed + frame.size, pending := s.conns[cid].pending + 1)],
       delayed := s.delayed + [Waiting(cfg, s, cid, frame)])
  }

  lemma CalmStays(s: State, t: State)
    requires t.players == s.players && t.rooms == s.rooms && t.disk == s.disk && t.now == s.now
    requires t.issued == s.issued && t.evicted == s.evicted
    requires t.conns.Keys == s.conns.Keys
    requires forall x :: x in s.conns ==> t.conns[x].udp == s.conns[x].udp && t.conns[x].player == s.conns[x].player
    ensures Unmoved(s, t)
  {
  }

  lemma CalmOn(s: State, t: State, u: State)
    requires Unmoved(s, t)
    ensures Unmoved(t, u) ==> Unmoved(s, u)
  {
  }

  lemma CountedCalm(s: State, cid: nat)
    requires cid in s.conns
    ensures Unmoved(s, CountedState(s, cid))
  {
  }

  lemma ClosingCalm(s: State, cid: nat)
    ensures Unmoved(s, Closing(s, cid))
  {
  }

  /** A sweep over a sorted queue releases its due head and then keeps house. */
  lemma SweepIs(cfg: Config, s: State, order: seq<(Id, Io)>)
    requires Sorted(s.delayed)
    ensures Due(s.delayed, s.now) <= |s.delayed|
    ensures var n := Due(s.delayed, s.now);
      var mid := Released(cfg, s.(delayed := []), s.delayed, n);
      Sweep(cfg, s, order) ==
        Expire(cfg, KeepAll(cfg, mid.(delayed := s.delayed[n..], rooms := Tidied(mid.rooms, s.now)), order))
  {
    hide Drain, KeepAll, Expire, Released, Tidied;
    DueBounds(s.delayed, s.now);
    DrainSplits(cfg, s.(delayed := []), s.delayed);
    var n := Due(s.delayed, s.now);
    assert [] + s.delayed[n..] == s.delayed[n..];
  }

  lemma RunsServes(s: State, d: Delayed)
    requires QueueRuns.Runs(s, d)
    ensures Serves(Discharged(s, d), d.cid) && Serves(s, d.cid)
  {
  }

  // ---- handed frames run in good states

  /** The entry whose turn comes is admissible in the state that the releases before it left. */
  lemma {:induction false} ReleasedAdmissible(cfg: Config, s: State, queue: seq<Delayed>, n: nat)
    requires DrainAdmissible(cfg, s, queue) && n < Due(queue, s.now) <= |queue|
    ensures Admissible(Released(cfg, s, queue, n), queue[n].frame)
    decreases n
  {
    hide Release, Admissible;
    if n > 0 {
      ReleaseKeepsQueue(cfg, s, queue[0]);
      ReleasedShift(cfg, s, queue, n);
      DueBounds(queue[1..], s.now);
      ReleasedAdmissible(cfg, Release(cfg, s, queue[0]), queue[1..], n - 1);
    }
  }

  /** Nothing that admissibility looks at changed. */
  lemma SameAdmissible(s: State, t: State, frame: Frame)
    requires Admissible(s, frame)
    requires t.players == s.players && t.rooms == s.rooms && t.issued == s.issued && t.accounts == s.accounts
    ensures Admissible(t, frame)
  {
  }

  /** In every run a frame that is handed over runs in a state that satisfies the invariants, on a socket in service. */
  lemma HandedHolds(cfg: Config, r: Run, i: nat, cid: nat, frame: Frame, w: State)
    requires IsRun(cfg, r) && i < |r.steps| && Hands(cfg, r.states[i], r.steps[i], cid, frame, w)
    ensures Inv(w) && Admissible(w, frame) && Serves(w, cid)
  {
    hide Next, Core, AtOnce, Admissible, DrainAdmissible, HandsQueued;
    var s, c, t := r.states[i], r.steps[i], At(r.states[i], r.steps[i].at);
    assert Lawful(cfg, s, c);
    Safety.RunHolds(cfg, r, i);
    QueueBudget.InvAt(s, c.at);
    if c.action.Swept? {
      var m :| HandsQueued(cfg, s, c, m, cid, frame, w);
      HandedFromQueue(cfg, s, c, m, cid, frame, w);
    } else {
      CountedHolds(cfg, t, cid, frame);
      SameAdmissible(s, w, frame);
    }
  }

  lemma CountedHolds(cfg: Config, s: State, cid: nat, frame: Frame)
    requires Inv(s) && AtOnce(cfg, s, cid, frame)
    ensures Inv(CountedState(s, cid)) && Serves(CountedState(s, cid), cid)
  {
    hide Core;
    Preservation.OwnersHold(s, CountedState(s, cid).conns, s.delayed);
  }

  lemma HandedFromQueue(cfg: Config, s: State, c: Step, m: nat, cid: nat, frame: Frame, w: State)
    requires Inv(At(s, c.at)) && c.action.Swept? && Lawful(cfg, s, c) && HandsQueued(cfg, s, c, m, cid, frame, w)
    ensures Inv(w) && Admissible(w, frame) && Serves(w, cid)
  {
    hide Core, Released, DrainAdmissible, Admissible;
    var start, mid := At(s, c.at).(delayed := []), Halfway(cfg, s, c, m);
    Preservation.OwnersHold(At(s, c.at), s.conns, []);
    Sockets.ReleasedHolds(cfg, start, s.delayed, m);
    ReleasedAdmissible(cfg, start, s.delayed, m);
    RunsServes(mid, s.delayed[m]);
    Preservation.OwnersHold(mid, w.conns, mid.delayed);
    SameAdmissible(mid, w, frame);
  }
}

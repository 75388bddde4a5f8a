/** What a start settles, from the request that asks for it to the end of the run. */
module Starting {
  import opened Model
  import opened Rules
  import opened Invariants
  import opened Relay
  import opened Presence
  import opened Worlds
  import opened Rosters
  import opened Handling
  import Keys
  import Losses
  import Opening
  import Preservation
  import Queue
  import QueueBudget
  import QueueRuns
  import Safety
  import Sockets

  /** The frame asks to start the game of room `id`, and its owner may: the game has not started and the data fits. */
  ghost predicate AsksToStart(w: State, cid: nat, frame: Frame, id: Id) {
    && Serves(w, cid) && frame.body.RequestBody? && frame.body.request.StartGame? && frame.body.request.fits
    && Holder(w, cid).room == Some(id) && id in w.rooms
    && w.rooms[id].owner == w.conns[cid].player.value && !w.rooms[id].started
  }

  /** The room has started as the request `q` asked, when it was `before`. */
  predicate StartedAs(cfg: Config, q: Request, before: Room, after: Room)
    requires q.StartGame?
  {
    && after.started && after.fixed == q.fixed && after.migration == (q.fixed && q.migration)
    && after.persistent == (cfg.stored && q.fixed && q.migration && q.persistent)
    && after.start == (if after.persistent then Some(q.data) else None)
    && after.players == (if q.fixed then before.active else before.players)
    && after.max == before.max
  }

  lemma StartsAtOnce(cfg: Config, w: State, cid: nat, frame: Frame, id: Id)
    requires AsksToStart(w, cid, frame, id)
    ensures var t := Dispatch(cfg, w, cid, frame);
      && id in t.rooms && StartedAs(cfg, frame.body.request, w.rooms[id], t.rooms[id])
      && t.rooms[id].updated == w.now && t.rooms[id].active == w.rooms[id].active
  {
  }

  lemma StartedOn(cfg: Config, q: Request, before: Room, a: Room, b: Room)
    requires q.StartGame? && StartedAs(cfg, q, before, a) && Fixed(a, b)
    ensures StartedAs(cfg, q, before, b)
  {
  }

  // ---- from a frame to the end of its command

  lemma {:induction false} ReleasedFrom(cfg: Config, s: State, queue: seq<Delayed>, m: nat, n: nat)
    requires Inv(s) && Orderly(s) && DrainAdmissible(cfg, s, queue) && m <= n <= Queue.Due(queue, s.now) <= |queue|
    ensures Goes(Queue.Released(cfg, s, queue, m), Queue.Released(cfg, s, queue, n))
    decreases n
  {
    hide Inv, Orderly, Release, Admissible, DrainAdmissible, Goes;
    if m == n {
      Losses.ReleasedOrderly(cfg, s, queue, n);
      Same(Queue.Released(cfg, s, queue, n), Queue.Released(cfg, s, queue, n));
    } else {
      ReleasedFrom(cfg, s, queue, m, n - 1);
      var t := Queue.Released(cfg, s, queue, n - 1);
      Sockets.ReleasedHolds(cfg, s, queue, n - 1);
      Losses.ReleasedOrderly(cfg, s, queue, n - 1);
      ReleasedAdmissible(cfg, s, queue, n - 1);
      ReleaseGoes(cfg, t, queue[n - 1]);
      GoesOn(Queue.Released(cfg, s, queue, m), t, Queue.Released(cfg, s, queue, n));
    }
  }

  lemma HouseGoes(cfg: Config, mid: State, tidy: State, order: seq<(Id, Io)>, now: nat)
    requires Inv(mid) && Orderly(mid) && tidy == mid.(delayed := tidy.delayed, rooms := Tidied(mid.rooms, now))
    ensures Goes(mid, Expire(cfg, KeepAll(cfg, tidy, order)))
  {
    hide Orderly, Goes, KeepAll, Expire, Core, Later;
    var kept := KeepAll(cfg, tidy, order);
    forall id | id in mid.rooms ensures Later(mid.rooms[id], tidy.rooms[id]) { TidyIsLater(mid.rooms[id], now); }
    InPlace(mid, tidy);
    Safety.TidiedHolds(mid, now);
    Preservation.OwnersHold(mid.(rooms := Tidied(mid.rooms, now)), mid.conns, tidy.delayed);
    GoesOrderly(mid, tidy);
    KeepAllGoes(cfg, tidy, order);
    GoesOrderly(tidy, kept);
    ExpireGoes(cfg, kept);
    GoesOn(mid, tidy, kept);
    GoesOn(mid, kept, Expire(cfg, kept));
  }

  lemma TidyIsLater(r: Room, now: nat)
    ensures Later(r, Unstalled(r, now))
  {
  }

  /** What a frame that was handed over settled stays so to the end of its command. */
  lemma HandedGoes(cfg: Config, r: Run, i: nat, cid: nat, frame: Frame, w: State)
    requires IsRun(cfg, r) && i < |r.steps| && Hands(cfg, r.states[i], r.steps[i], cid, frame, w)
    ensures Goes(Dispatch(cfg, w, cid, frame), r.states[i + 1])
  {
    hide Next, Inv, Orderly, Goes, Dispatch, AtOnce, HandsQueued, DrainAdmissible, Queue.Sorted;
    var s, c := r.states[i], r.steps[i];
    RunOrderly(cfg, r, i + 1);
    if c.action.Swept? {
      var m :| HandsQueued(cfg, s, c, m, cid, frame, w);
      SweptGoes(cfg, r, i, m, cid, frame, w);
    } else {
      ReceivedNext(cfg, s, c, cid, frame, w);
      Same(r.states[i + 1], r.states[i + 1]);
    }
  }

  lemma ReceivedNext(cfg: Config, s: State, c: Step, cid: nat, frame: Frame, w: State)
    requires Hands(cfg, s, c, cid, frame, w) && !c.action.Swept?
    ensures Next(cfg, s, c) == Dispatch(cfg, w, cid, frame)
  {
    hide Receive, Dispatch;
    ReceiveCases(cfg, At(s, c.at), cid, frame);
  }

  lemma SweptGoes(cfg: Config, r: Run, i: nat, m: nat, cid: nat, frame: Frame, w: State)
    requires IsRun(cfg, r) && i < |r.steps| && r.steps[i].action.Swept?
    requires HandsQueued(cfg, r.states[i], r.steps[i], m, cid, frame, w)
    ensures Goes(Dispatch(cfg, w, cid, frame), r.states[i + 1])
  {
    hide Inv, Orderly, Goes, Dispatch, DrainAdmissible, Queue.Sorted, Queue.Released, KeepAll, Expire, Tidied, Rules.Sweep;
    hide QueueRuns.Runs, Release;
    var s, c := r.states[i], r.steps[i];
    var t, n := At(s, c.at), Queue.Due(s.delayed, c.at);
    var start := t.(delayed := []);
    assert Lawful(cfg, s, c);
    Safety.RunHolds(cfg, r, i);
    RunOrderly(cfg, r, i);
    QueueRuns.RunSorted(cfg, r, i);
    Losses.StartHolds(s, c.at);
    Losses.SameOrderly(s, start);
    SweepIs(cfg, t, c.action.order);
    var mid := Queue.Released(cfg, start, s.delayed, n);
    RunsServes(Halfway(cfg, s, c, m), s.delayed[m]);
    QueueRuns.RunsIsDispatch(cfg, Halfway(cfg, s, c, m), s.delayed[m]);
    Keys.ReleasedNext(cfg, start, s.delayed, m);
    ReleasedFrom(cfg, start, s.delayed, m + 1, n);
    Sockets.ReleasedHolds(cfg, start, s.delayed, n);
    Losses.ReleasedOrderly(cfg, start, s.delayed, n);
    var tidy := mid.(delayed := s.delayed[n..], rooms := Tidied(mid.rooms, t.now));
    HouseGoes(cfg, mid, tidy, c.action.order, t.now);
    GoesOn(Dispatch(cfg, w, cid, frame), mid, r.states[i + 1]);
  }

  /**
   * In every run, whichever saves fail: when a command hands over an acceptable request to start, the game is started as
   * asked from then on, in memory and on disk: its flags are those of the request, a stored game holds exactly the start
   * data that was sent, and a fixed roster is who was in the room at that moment.
   */
  lemma StartIsKept(cfg: Config, r: Run, i: nat, j: nat, cid: nat, frame: Frame, w: State, id: Id)
    requires IsRun(cfg, r) && i < j < |r.states| && Hands(cfg, r.states[i], r.steps[i], cid, frame, w)
    requires AsksToStart(w, cid, frame, id) && Look(r.states[j], id).Some?
    ensures StartedAs(cfg, frame.body.request, w.rooms[id], Look(r.states[j], id).value)
  {
    hide Next, Lawful, Inv, Orderly, Hands, Dispatch, StartedAs, Fixed, AsksToStart;
    StartsAtOnce(cfg, w, cid, frame, id);
    AskedThere(w, cid, frame, id);
    HandedGoes(cfg, r, i, cid, frame, w);
    Losses.HandedOrderly(cfg, r, i, cid, frame, w);
    HandledIssued(cfg, w, cid, frame, id);
    RunGoes(cfg, r, i + 1, j);
    GoesOn(Dispatch(cfg, w, cid, frame), r.states[i + 1], r.states[j]);
    StartedOn(cfg, frame.body.request, w.rooms[id], Dispatch(cfg, w, cid, frame).rooms[id], Look(r.states[j], id).value);
  }

  lemma AskedThere(w: State, cid: nat, frame: Frame, id: Id)
    requires AsksToStart(w, cid, frame, id)
    ensures id in w.rooms && frame.body.RequestBody? && frame.body.request.StartGame?
  {
  }

  lemma HandledIssued(cfg: Config, w: State, cid: nat, frame: Frame, id: Id)
    requires Orderly(w) && AsksToStart(w, cid, frame, id)
    ensures id in Dispatch(cfg, w, cid, frame).issued
  {
  }
}

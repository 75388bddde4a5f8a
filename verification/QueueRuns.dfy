/** The delayed queue over whole runs. */
module QueueRuns {
  import opened Model
  import opened Rules
  import opened Invariants
  import opened Relay
  import opened Presence
  import opened Queue
  import Safety

  lemma {:induction false} RunSorted(cfg: Config, r: Run, i: nat)
    requires IsRun(cfg, r) && i < |r.states|
    ensures Sorted(r.states[i].delayed)
    ensures forall d :: d in r.states[i].delayed ==> d.at <= r.states[i].now + cfg.delay
    ensures Paired(r.states[i].players, r.states[i].conns)
  {
    hide Next, Lawful, Turns, Inv;
    Safety.RunHolds(cfg, r, i);
    assert Paired(r.states[i].players, r.states[i].conns) by { InvPaired(r.states[i]); }
    if i > 0 {
      var s, c := r.states[i - 1], r.steps[i - 1];
      RunSorted(cfg, r, i - 1);
      StepTurns(cfg, s, c);
      QueuedAtEnd(cfg, s, c);
      LawfulClock(cfg, r, i - 1);
      StepClock(cfg, r, i - 1);
      TurnsSorted(s.delayed, Leaving(s, c), r.states[i].delayed, Queued(cfg, s, c));
    }
  }

  lemma InvPaired(s: State)
    requires Inv(s)
    ensures Paired(s.players, s.conns)
  {
  }

  lemma TurnsSorted(queue: seq<Delayed>, released: seq<Delayed>, after: seq<Delayed>, added: seq<Delayed>)
    requires Turns(queue, released, after, added) && Sorted(queue) && |added| <= 1
    requires forall a, d :: a in added && d in queue ==> d.at <= a.at
    ensures Sorted(after) && forall d :: d in after ==> d in queue || d in added
  {
  }

  lemma QueuedAtEnd(cfg: Config, s: State, c: Step)
    ensures |Queued(cfg, s, c)| <= 1 && forall d :: d in Queued(cfg, s, c) ==> d.at == c.at + cfg.delay
  {
  }

  // ---- first in, first out

  /** Everything queued by the first `i` commands, in order of arrival. */
  ghost function Arrivals(cfg: Config, r: Run, i: nat): seq<Delayed>
    requires IsRun(cfg, r) && i < |r.states|
  {
    if i == 0 then [] else Arrivals(cfg, r, i - 1) + Queued(cfg, r.states[i - 1], r.steps[i - 1])
  }

  /** Everything taken out for release by the first `i` commands, in order. */
  ghost function Releases(cfg: Config, r: Run, i: nat): seq<Delayed>
    requires IsRun(cfg, r) && i < |r.states|
  {
    if i == 0 then [] else Releases(cfg, r, i - 1) + Leaving(r.states[i - 1], r.steps[i - 1])
  }

  /**
   * In every run, what was released followed by what still waits is what arrived with some entries left out:
   * each frame is released at most once, and frames are released in the order in which they arrived.
   */
  lemma {:induction false} ReleasedInOrderOnce(cfg: Config, r: Run, i: nat)
    requires IsRun(cfg, r) && i < |r.states|
    ensures Within(Releases(cfg, r, i) + r.states[i].delayed, Arrivals(cfg, r, i))
  {
    hide Next, Lawful, Within, Queued, Leaving;
    if i == 0 {
      WithinSelf([]);
      assert Releases(cfg, r, 0) + r.states[0].delayed == [];
    } else {
      var s, c := r.states[i - 1], r.steps[i - 1];
      ReleasedInOrderOnce(cfg, r, i - 1);
      RunSorted(cfg, r, i - 1);
      StepTurns(cfg, s, c);
      var gone, come := Leaving(s, c), Queued(cfg, s, c);
      var before, after := Releases(cfg, r, i - 1), Releases(cfg, r, i - 1) + gone;
      WithinPrefixed(before, gone + r.states[i].delayed, s.delayed + come);
      assert before + (gone + r.states[i].delayed) == after + r.states[i].delayed;
      assert before + (s.delayed + come) == (before + s.delayed) + come;
      QueuedAtEnd(cfg, s, c);
      WithinMore(before + s.delayed, Arrivals(cfg, r, i - 1), come);
      WithinOn(after + r.states[i].delayed, (before + s.delayed) + come, Arrivals(cfg, r, i));
    }
  }

  lemma WithinMore(a: seq<Delayed>, b: seq<Delayed>, come: seq<Delayed>)
    requires Within(a, b) && |come| <= 1
    ensures Within(a + come, b + come)
  {
    if come == [] { assert a + come == a && b + come == b; } else { WithinAppended(a, b, come[0]); assert come == [come[0]]; }
  }

  // ---- where an entry came from

  lemma {:induction false} Origin(cfg: Config, r: Run, k: nat, d: Delayed) returns (j: nat)
    requires IsRun(cfg, r) && k < |r.states| && d in r.states[k].delayed
    ensures j < k && d in Queued(cfg, r.states[j], r.steps[j])
  {
    hide Next, Lawful, Queued, Leaving, Within;
    assert k > 0;
    var s, c := r.states[k - 1], r.steps[k - 1];
    RunSorted(cfg, r, k - 1);
    StepTurns(cfg, s, c);
    if d in s.delayed { j := Origin(cfg, r, k - 1, d); } else { j := k - 1; }
  }

  lemma QueuedIs(cfg: Config, s: State, c: Step, d: Delayed)
    requires d in Queued(cfg, s, c)
    ensures Serves(s, d.cid) && d.version == Holder(s, d.cid).version && c.action == Received(d.cid, d.frame)
    ensures d.scoped == Scoped(d.frame.body) && s.conns[d.cid].player.Some?
  {
  }

  lemma {:induction false} ReleasedOnward(cfg: Config, s: State, queue: seq<Delayed>, n: nat)
    requires n <= |queue| && s.conns.Keys <= s.sockets
    ensures Onward(s, Released(cfg, s, queue, n))
  {
    hide Release, Onward;
    StillOnward(s, s);
    if n > 0 {
      ReleasedOnward(cfg, s, queue, n - 1);
      var t := Released(cfg, s, queue, n - 1);
      OnwardOpen(s, t);
      ReleaseOnward(cfg, t, queue[n - 1]);
      OnwardOn(s, t, Released(cfg, s, queue, n));
    }
  }

  /** Does releasing `d` in state `s` hand its frame to the request handlers? */
  predicate Runs(s: State, d: Delayed) {
    && Serves(s, d.cid)
    && !s.conns[d.cid].closing
    && (!d.scoped || Holder(s, d.cid).version == d.version)
  }

  lemma RunsIsDispatch(cfg: Config, s: State, d: Delayed)
    requires d.cid in s.conns
    ensures Release(cfg, s, d) == if Runs(s, d) then Dispatch(cfg, Discharged(s, d), d.cid, d.frame) else Discharged(s, d)
  {
    hide Dispatch;
  }

  /** The state in which the `m`-th entry is released by the sweep that follows state `k`. */
  ghost function Midway(cfg: Config, r: Run, k: nat, m: nat): State
    requires IsRun(cfg, r) && k < |r.steps| && m <= |r.states[k].delayed|
  {
    Released(cfg, At(r.states[k], r.steps[k].at).(delayed := []), r.states[k].delayed, m)
  }

  /** Requests that are not about a room the sender is in: they run wherever it is when their turn comes. */
  predicate AboutNoRoom(b: Body) {
    b.RequestBody? && (b.request.CreateRoom? || b.request.EnterRoom? || b.request.LeaveRoom? || b.request.Lookup?)
  }

  /**
   * A delayed frame runs only for the player and socket that sent it, and a room-scoped one only in the stay
   * in which it was sent: between arrival and release the sender never left or changed rooms.
   */
  lemma DelayedFramesAreFenced(cfg: Config, r: Run, k: nat, m: nat) returns (j: nat)
    requires IsRun(cfg, r) && k < |r.steps| && r.steps[k].action.Swept?
    requires m < Due(r.states[k].delayed, r.steps[k].at) <= |r.states[k].delayed|
    requires Runs(Midway(cfg, r, k, m), r.states[k].delayed[m])
    ensures var d := r.states[k].delayed[m];
      && j < k && r.steps[j].action == Received(d.cid, d.frame)
      && Serves(r.states[j], d.cid)
      && Midway(cfg, r, k, m).conns[d.cid].player == r.states[j].conns[d.cid].player
      && (!AboutNoRoom(d.frame.body) ==>
            && Holder(Midway(cfg, r, k, m), d.cid).room == Holder(r.states[j], d.cid).room
            && forall i :: j <= i <= k ==>
                 Serves(r.states[i], d.cid) && Holder(r.states[i], d.cid).room == Holder(r.states[j], d.cid).room
                 && Holder(r.states[i], d.cid).entered == Holder(r.states[j], d.cid).entered)
  {
    hide Next, Lawful, Queued, Released, Onward;
    var d := r.states[k].delayed[m];
    j := Origin(cfg, r, k, d);
    QueuedIs(cfg, r.states[j], r.steps[j], d);
    var start := At(r.states[k], r.steps[k].at).(delayed := []);
    var mid := Midway(cfg, r, k, m);
    RunOnward(cfg, r, j, k);
    OnwardOpen(r.states[j], r.states[k]);
    assert r.states[k].now <= r.steps[k].at by { LawfulClock(cfg, r, k); }
    StillOnward(r.states[k], start);
    ReleasedOnward(cfg, start, r.states[k].delayed, m);
    OnwardOn(r.states[k], start, mid);
    assert mid.conns[d.cid].player == r.states[j].conns[d.cid].player && Serves(r.states[k], d.cid)
           && Grows(Holder(r.states[j], d.cid), Holder(mid, d.cid)) by {
      OnwardOn(r.states[j], r.states[k], mid);
      BackOnward(r.states[j], mid, d.cid);
      RunOnward(cfg, r, j, k);
      ForthOnward(r.states[j], r.states[k], mid, d.cid);
    }
    if Scoped(d.frame.body) {
      forall i | j <= i <= k
        ensures Serves(r.states[i], d.cid) && Holder(r.states[i], d.cid).room == Holder(r.states[j], d.cid).room
                && Holder(r.states[i], d.cid).entered == Holder(r.states[j], d.cid).entered
      {
        RunOnward(cfg, r, j, i);
        RunOnward(cfg, r, i, k);
        OnwardOn(r.states[i], r.states[k], mid);
        ForthOnward(r.states[j], r.states[i], mid, d.cid);
      }
    }
  }

  lemma StepClock(cfg: Config, r: Run, k: nat)
    requires IsRun(cfg, r) && k < |r.steps|
    ensures r.steps[k].at <= r.states[k + 1].now
  {
    hide Next, Lawful, Onward;
    RunOnward(cfg, r, k, k);
    StepOnward(cfg, r.states[k], r.steps[k]);
  }

  lemma LawfulClock(cfg: Config, r: Run, k: nat)
    requires IsRun(cfg, r) && k < |r.steps|
    ensures r.states[k].now <= r.steps[k].at
  {
    hide Next;
    assert Lawful(cfg, r.states[k], r.steps[k]);
  }

  lemma BackOnward(s: State, t: State, cid: nat)
    requires Onward(s, t) && cid in s.conns && s.conns[cid].player.Some? && Serves(t, cid)
    ensures Serves(s, cid) && Grows(Holder(s, cid), Holder(t, cid)) && t.conns[cid].player == s.conns[cid].player
  {
  }

  /** A socket that serves the same account at both ends serves it in between, with versions in order. */
  lemma ForthOnward(s: State, t: State, u: State, cid: nat)
    requires Onward(s, t) && Onward(t, u) && Serves(s, cid) && Serves(u, cid)
    ensures Serves(t, cid) && Grows(Holder(s, cid), Holder(t, cid)) && Grows(Holder(t, cid), Holder(u, cid))
    ensures t.conns[cid].player == s.conns[cid].player == u.conns[cid].player
  {
  }
}

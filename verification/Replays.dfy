/** The anti-replay window of a session over whole runs: exactly the fresh numbers get through. */
module Replays {
  import opened Model
  import opened Invariants
  import opened Relay
  import opened Presence
  import opened Udp
  import opened Channel
  import opened Opening
  import opened Handling
  import opened AntiReplay
  import Meters
  import QueueRuns
  import Rates

  /** A legal datagram for the session of `cid`, rightly tagged: only its number is still to be judged. */
  predicate Presents(cfg: Config, s: State, c: Action, cid: nat) {
    && c.Arrived? && WellFormed(cfg, c.bytes) && Fields(c.bytes).cid == cid && Live(s, cid)
    && Signed(cfg, s.conns[cid].udp.value.secret, c.bytes)
  }

  lemma GenuineIsFresh(cfg: Config, s: State, c: Action, cid: nat)
    requires Presents(cfg, s, c, cid)
    ensures cid in s.conns && s.conns[cid].udp.Some?
    ensures Genuine(cfg, s, c.bytes) <==> Admit(s.conns[cid].udp.value.replay, Fields(c.bytes).sequence).1
  {
    hide Admit, WellFormed, Signed;
  }

  // ---- one datagram

  /** The window of `cid` after the datagram. */
  ghost predicate Judges(cfg: Config, s: State, c: Action, t: State, cid: nat)
    requires cid in s.conns && s.conns[cid].udp.Some?
  {
    && cid in t.conns && t.conns[cid].udp.Some?
    && t.conns[cid].udp.value.secret == s.conns[cid].udp.value.secret
    && t.conns[cid].udp.value.replay ==
         if Presents(cfg, s, c, cid) then Admit(s.conns[cid].udp.value.replay, Fields(c.bytes).sequence).0
         else s.conns[cid].udp.value.replay
  }

  lemma RefusedStays(w: Window, n: Word)
    ensures !Admit(w, n).1 ==> Admit(w, n).0 == w
  {
  }

  lemma EmitKeepsWindow(cfg: Config, c: Connection, cid: nat, kind: byte, sender: Id, payload: seq<byte>, now: nat)
    requires c.udp.Some?
    ensures var d := Emit(cfg, c, cid, kind, sender, payload, now).0;
      d.udp.Some? && d.udp.value == c.udp.value.(outgoing := d.udp.value.outgoing)
  {
    hide Encode, Rates.Accept;
  }

  lemma DatagramJudges(cfg: Config, s: State, c: Action, cid: nat)
    requires c.Arrived? && cid in s.conns && s.conns[cid].udp.Some?
    ensures Judges(cfg, s, c, Datagram(cfg, s, c.bytes, c.source, c.nonce).0, cid)
  {
    hide Admit, Sensible, Signed, Live, Emit, Data, Rates.Accept, Genuine;
    if Genuine(cfg, s, c.bytes) {
      GenuinePresents(cfg, s, c);
      Meters.GenuineLive(cfg, s, c.bytes);
      MeteredLive(cfg, s, c.bytes);
      var pk := Fields(c.bytes);
      var (m, ok) := Metered(cfg, s.conns[pk.cid], pk.sequence, s.now);
      if ok && pk.kind == DATA {
        DataKeepsWindows(cfg, s.(conns := s.conns[pk.cid := m]), pk.cid, c.source, pk.target, pk.payload, cid);
      } else if ok && pk.kind == PROBE {
        EmitKeepsWindow(cfg, m.(udp := Some(m.udp.value.(challenge := Some(Challenge(c.source, c.nonce, s.now))))),
                        pk.cid, CHALLENGE, 0, c.nonce, s.now);
      } else if ok && Answers(cfg, m.udp.value, c.source, pk.payload, s.now) {
        EmitKeepsWindow(cfg, m.(udp := Some(m.udp.value.(challenge := None, endpoint := Some(Binding(c.source, s.now))))),
                        pk.cid, BOUND, 0, m.udp.value.challenge.value.nonce, s.now);
      }
    } else if Presents(cfg, s, c, cid) {
      GenuineIsFresh(cfg, s, c, cid);
      RefusedStays(s.conns[cid].udp.value.replay, Fields(c.bytes).sequence);
    }
  }

  lemma GenuinePresents(cfg: Config, s: State, c: Action)
    requires c.Arrived? && Genuine(cfg, s, c.bytes)
    ensures |c.bytes| >= HEADER + TAG && Presents(cfg, s, c, Fields(c.bytes).cid)
    ensures forall x :: x != Fields(c.bytes).cid ==> !Presents(cfg, s, c, x)
  {
    hide Admit, Sensible, Signed, Live;
  }

  lemma DataKeepsWindows(cfg: Config, s: State, cid: nat, source: Address, target: Id, payload: seq<byte>, x: nat)
    requires Live(s, cid) && x in s.conns && s.conns[x].udp.Some?
    ensures var t := Data(cfg, s, cid, source, target, payload).0;
      && x in t.conns && t.conns[x].udp.Some? && t.conns[x].udp.value.replay == s.conns[x].udp.value.replay
      && t.conns[x].udp.value.secret == s.conns[x].udp.value.secret
  {
    DataMoves(cfg, s, cid, source, target, payload);
    hide Data;
  }

  // ---- runs

  /** The numbers that the commands from `i` to before `j` presented to the session of `cid`, in order. */
  function Presented(cfg: Config, r: Run, i: nat, j: nat, cid: nat): seq<Word>
    requires i <= j < |r.states| == |r.steps| + 1
  {
    if i == j then []
    else
      var s, c := At(r.states[j - 1], r.steps[j - 1].at), r.steps[j - 1].action;
      Presented(cfg, r, i, j - 1, cid) + if Presents(cfg, s, c, cid) then [Fields(c.bytes).sequence] else []
  }

  /** From state `o + 1` to state `j` the window of `cid` is what the numbers presented to it made of an empty one. */
  ghost predicate Tracked(cfg: Config, r: Run, o: nat, j: nat, cid: nat)
    requires |r.states| == |r.steps| + 1 && o < j < |r.states|
  {
    && OneKey(r, o + 1, j, cid)
    && r.states[j].conns[cid].udp.value.replay == After(Presented(cfg, r, o + 1, j, cid)).0
  }

  lemma AfterOne(xs: seq<Word>, n: Word)
    ensures After(xs + [n]).0 == Admit(After(xs).0, n).0 && Accepted(xs + [n], |xs|) == Admit(After(xs).0, n).1
  {
    hide Admit;
    assert (xs + [n])[..|xs|] == xs;
  }

  /** Since a session was opened its window follows the numbers presented to it. */
  lemma {:induction false} WindowTracks(cfg: Config, r: Run, j: nat, cid: nat) returns (o: nat, w: State)
    requires IsRun(cfg, r) && j < |r.states| && cid in r.states[j].conns && r.states[j].conns[cid].udp.Some?
    ensures o < j && RunsRequest(cfg, r.states[o], r.steps[o], cid, OpenUdp(r.states[j].conns[cid].udp.value.secret), w)
    ensures Tracked(cfg, r, o, j, cid)
  {
    hide Next, Lawful, Onward, Serves, RunsRequest, Presented, Presents, After, Admit, OneKey;
    var s, c, t := r.states[j - 1], r.steps[j - 1], At(r.states[j - 1], r.steps[j - 1].at);
    var u := r.states[j].conns[cid].udp.value;
    assert Lawful(cfg, s, c);
    RunOnward(cfg, r, j - 1, j - 1);
    QueueRuns.RunSorted(cfg, r, j - 1);
    if c.action.Arrived? {
      ArrivedNext(cfg, s, c);
      DatagramMoves(cfg, t, c.action);
      DatagramJudges(cfg, t, c.action, cid);
      o, w := WindowTracks(cfg, r, j - 1, cid);
      OneKeyOn(r, o + 1, j - 1, cid);
      OneMorePresented(cfg, r, o + 1, j, cid);
    } else {
      var secret;
      secret, w := StepSession(cfg, s, c, cid);
      if cid in s.conns && s.conns[cid].udp == Some(u) {
        o, w := WindowTracks(cfg, r, j - 1, cid);
        OneKeyOn(r, o + 1, j - 1, cid);
        NonePresented(cfg, r, o + 1, j, cid);
      } else {
        o := j - 1;
        OneKeySelf(r, j, cid);
        FirstWindow(cfg, r, j, cid);
      }
    }
  }

  lemma FirstWindow(cfg: Config, r: Run, j: nat, cid: nat)
    requires j < |r.states| == |r.steps| + 1
    ensures After(Presented(cfg, r, j, j, cid)).0 == EMPTY
  {
  }

  lemma NonePresented(cfg: Config, r: Run, i: nat, j: nat, cid: nat)
    requires i < j < |r.states| == |r.steps| + 1 && !r.steps[j - 1].action.Arrived?
    ensures Presented(cfg, r, i, j, cid) == Presented(cfg, r, i, j - 1, cid)
  {
  }

  lemma OneMorePresented(cfg: Config, r: Run, i: nat, j: nat, cid: nat)
    requires i < j < |r.states| == |r.steps| + 1
    ensures var s, c := At(r.states[j - 1], r.steps[j - 1].at), r.steps[j - 1].action;
      After(Presented(cfg, r, i, j, cid)).0 ==
        if Presents(cfg, s, c, cid) then Admit(After(Presented(cfg, r, i, j - 1, cid)).0, Fields(c.bytes).sequence).0
        else After(Presented(cfg, r, i, j - 1, cid)).0
  {
    hide Admit, Presents, After;
    var s, c := At(r.states[j - 1], r.steps[j - 1].at), r.steps[j - 1].action;
    var xs := Presented(cfg, r, i, j - 1, cid);
    if Presents(cfg, s, c, cid) {
      PresentsFields(cfg, s, c, cid);
      AfterOne(xs, Fields(c.bytes).sequence);
    } else {
      assert xs + [] == xs;
    }
  }

  lemma PresentsFields(cfg: Config, s: State, c: Action, cid: nat)
    requires Presents(cfg, s, c, cid)
    ensures c.Arrived? && |c.bytes| >= HEADER + TAG && cid in s.conns && s.conns[cid].udp.Some?
  {
  }

  /**
   * In every run a legal, rightly tagged datagram passes the anti-replay check exactly when its number is not zero and was
   * not accepted before under the session, and is above, or less than 64 below, every number that was.
   */
  lemma FreshNumbersPass(cfg: Config, r: Run, j: nat, cid: nat) returns (o: nat, w: State)
    requires IsRun(cfg, r) && j < |r.steps|
    requires Presents(cfg, At(r.states[j], r.steps[j].at), r.steps[j].action, cid)
    ensures cid in r.states[j].conns && r.states[j].conns[cid].udp.Some?
    ensures o < j && RunsRequest(cfg, r.states[o], r.steps[o], cid, OpenUdp(r.states[j].conns[cid].udp.value.secret), w)
    ensures OneKey(r, o + 1, j, cid)
    ensures var bytes := r.steps[j].action.bytes;
      Genuine(cfg, At(r.states[j], r.steps[j].at), bytes) <==> FreshAmong(Presented(cfg, r, o + 1, j, cid), Fields(bytes).sequence)
  {
    hide Next, Lawful, RunsRequest, Presents, Presented, Admit, After, Accepted, OneKey, Genuine, FreshAmong;
    var s, c := At(r.states[j], r.steps[j].at), r.steps[j].action;
    PresentsFields(cfg, s, c, cid);
    GenuineIsFresh(cfg, s, c, cid);
    o, w := WindowTracks(cfg, r, j, cid);
    var xs, n := Presented(cfg, r, o + 1, j, cid), Fields(c.bytes).sequence;
    AfterOne(xs, n);
    FreshAfter(xs, n);
  }

  /** Not zero, not accepted before, and above, or less than 64 below, every number that was. */
  predicate FreshAmong(xs: seq<Word>, n: Word) {
    n != 0 && forall k: nat :: k < |xs| && Accepted(xs, k) ==> xs[k] != n && xs[k] as int < n as int + 64
  }

  lemma FreshAfter(xs: seq<Word>, n: Word)
    ensures Accepted(xs + [n], |xs|) <==> FreshAmong(xs, n)
  {
    hide Accepted;
    var more := xs + [n];
    RunAcceptsExactly(more, |xs|);
    forall k: nat | k < |xs| ensures Accepted(more, k) == Accepted(xs, k) && more[k] == xs[k] { EarlierVerdict(xs, n, k); }
    if FreshAmong(xs, n) {
      forall k: nat | k < |xs| && Accepted(more, k) ensures more[k] != n && more[k] as int < n as int + 64 { assert more[k] == xs[k]; }
    }
  }

  lemma EarlierVerdict(xs: seq<Word>, n: Word, k: nat)
    requires k < |xs|
    ensures Accepted(xs + [n], k) == Accepted(xs, k) && (xs + [n])[k] == xs[k]
  {
    assert (xs + [n])[..k] == xs[..k];
  }
}

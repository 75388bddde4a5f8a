/** Bad datagrams leave no trace. */
module Erasure {
  import opened Model
  import opened Relay
  import Udp

  /** The state after the commands `steps`. */
  ghost function Play(cfg: Config, s: State, steps: seq<Step>): State
    decreases |steps|
  {
    if steps == [] then s else Play(cfg, Next(cfg, s, steps[0]), steps[1..])
  }

  /** All packets that the commands `steps` send, in order. */
  ghost function Outputs(cfg: Config, s: State, steps: seq<Step>): Udp.Output
    decreases |steps|
  {
    if steps == [] then [] else Sent(cfg, s, steps[0]) + Outputs(cfg, Next(cfg, s, steps[0]), steps[1..])
  }

  ghost predicate Legal(cfg: Config, s: State, steps: seq<Step>)
    decreases |steps|
  {
    steps == [] || (Lawful(cfg, s, steps[0]) && Legal(cfg, Next(cfg, s, steps[0]), steps[1..]))
  }

  /** A datagram that is malformed, for no live session, wrongly tagged or replayed. */
  predicate Bad(cfg: Config, s: State, c: Step) {
    c.action.Arrived? && !Udp.Genuine(cfg, At(s, c.at), c.action.bytes)
  }

  /** The run without its bad datagrams. */
  ghost function Cleaned(cfg: Config, s: State, steps: seq<Step>): seq<Step>
    decreases |steps|
  {
    if steps == [] then []
    else
      var rest := Cleaned(cfg, Next(cfg, s, steps[0]), steps[1..]);
      if Bad(cfg, s, steps[0]) then rest else [steps[0]] + rest
  }

  /** States that differ at most in the time of the last command. */
  predicate Alike(s: State, t: State) { t == s.(now := t.now) }

  lemma BadDoesNothing(cfg: Config, s: State, c: Step)
    requires Bad(cfg, s, c)
    ensures Next(cfg, s, c) == At(s, c.at) && Sent(cfg, s, c) == []
  {
    hide Udp.Genuine;
  }

  lemma AlikeNext(cfg: Config, s: State, t: State, c: Step)
    requires Alike(s, t)
    ensures Next(cfg, t, c) == Next(cfg, s, c) && Sent(cfg, t, c) == Sent(cfg, s, c) && Bad(cfg, t, c) == Bad(cfg, s, c)
  {
    hide Udp.Genuine, Udp.Datagram;
    assert At(t, c.at) == At(s, c.at);
  }

  /**
   * Erasure: dropping every bad datagram from any sequence of commands gives the same packets out and the same
   * server state, so a bad datagram spends no quota, moves no window and binds no endpoint.
   */
  lemma {:induction false} BadDatagramsLeaveNoTrace(cfg: Config, s: State, t: State, steps: seq<Step>)
    requires Alike(s, t)
    ensures Outputs(cfg, t, Cleaned(cfg, s, steps)) == Outputs(cfg, s, steps)
    ensures Alike(Play(cfg, s, steps), Play(cfg, t, Cleaned(cfg, s, steps)))
    decreases |steps|
  {
    hide Next, Sent, Bad;
    if steps != [] {
      var c := steps[0];
      if Bad(cfg, s, c) {
        BadDoesNothing(cfg, s, c);
        BadDatagramsLeaveNoTrace(cfg, At(s, c.at), t, steps[1..]);
      } else {
        AlikeNext(cfg, s, t, c);
        BadDatagramsLeaveNoTrace(cfg, Next(cfg, s, c), Next(cfg, s, c), steps[1..]);
        assert Cleaned(cfg, s, steps)[1..] == Cleaned(cfg, Next(cfg, s, c), steps[1..]);
      }
    }
  }

  lemma LawfulEarlier(cfg: Config, s: State, t: State, c: Step)
    requires Alike(s, t) && t.now <= s.now && Lawful(cfg, s, c)
    ensures Lawful(cfg, t, c)
  {
    assert At(t, c.at) == At(s, c.at);
    hide DrainAdmissible, Udp.Genuine;
  }

  /** What is left is a possible run. */
  lemma {:induction false} CleanedIsLegal(cfg: Config, s: State, t: State, steps: seq<Step>)
    requires Alike(s, t) && t.now <= s.now && Legal(cfg, s, steps)
    ensures Legal(cfg, t, Cleaned(cfg, s, steps))
    ensures forall i :: 0 <= i < |Cleaned(cfg, s, steps)| ==> Cleaned(cfg, s, steps)[i] in steps
    decreases |steps|
  {
    hide Next, Bad;
    if steps != [] {
      var c := steps[0];
      if Bad(cfg, s, c) {
        BadDoesNothing(cfg, s, c);
        CleanedIsLegal(cfg, At(s, c.at), t, steps[1..]);
      } else {
        AlikeNext(cfg, s, t, c);
        LawfulEarlier(cfg, s, t, c);
        CleanedIsLegal(cfg, Next(cfg, s, c), Next(cfg, s, c), steps[1..]);
        assert Cleaned(cfg, s, steps)[1..] == Cleaned(cfg, Next(cfg, s, c), steps[1..]);
      }
    }
  }
}

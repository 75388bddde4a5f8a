/** The other side of a fixed-window limit: it refuses only what it must. */
module Refusals {
  import opened Model
  import opened Rates

  /** The counter after events at the given times. */
  function After(times: seq<nat>, limit: nat): Rate {
    if times == [] then Rate(0, 0)
    else Accept(After(times[..|times| - 1], limit), times[|times| - 1], limit).0
  }

  /** The events among them that were let through, at time `a` or later. */
  function Taken(times: seq<nat>, limit: nat, a: nat): nat {
    if times == [] then 0
    else
      var front, t := times[..|times| - 1], times[|times| - 1];
      Taken(front, limit, a) + if t >= a && Accept(After(front, limit), t, limit).1 then 1 else 0
  }

  predicate Ordered(times: seq<nat>) {
    forall i, j :: 0 <= i < j < |times| ==> times[i] <= times[j]
  }

  lemma {:induction false} NoneLater(times: seq<nat>, limit: nat, a: nat)
    requires forall i :: 0 <= i < |times| ==> times[i] < a
    ensures Taken(times, limit, a) == 0
  {
    if times != [] { NoneLater(times[..|times| - 1], limit, a); }
  }

  lemma {:induction false} CountsTaken(times: seq<nat>, limit: nat)
    requires Ordered(times)
    ensures var g := After(times, limit);
      && g.count == Taken(times, limit, g.at)
      && (times == [] ==> g.at == 0) && (times != [] ==> g.at <= times[|times| - 1] < g.at + SECOND)
  {
    if times != [] {
      var front, t := times[..|times| - 1], times[|times| - 1];
      CountsTaken(front, limit);
      if Minus(t, After(front, limit).at) >= SECOND {
        forall i | 0 <= i < |front| ensures front[i] < t { assert front[i] <= front[|front| - 1]; }
        NoneLater(front, limit, t);
      }
    }
  }

  /**
   * A limiter refuses only when it must: an event is refused exactly when the limit was reached by events let through in
   * the window of the event, which opened less than a second before it.
   */
  lemma RefusedExactly(times: seq<nat>, limit: nat, t: nat)
    requires Ordered(times + [t])
    ensures var w := Window(After(times, limit), t, SECOND);
      && w.at <= t < w.at + SECOND
      && (!Accept(After(times, limit), t, limit).1 <==> Taken(times, limit, w.at) >= limit)
      && Taken(times, limit, w.at) <= limit
  {
    forall i, j | 0 <= i < j < |times| ensures times[i] <= times[j] {
      assert (times + [t])[i] == times[i] && (times + [t])[j] == times[j];
    }
    forall i | 0 <= i < |times| ensures times[i] <= t { assert (times + [t])[i] == times[i] && (times + [t])[|times|] == t; }
    CountsTaken(times, limit);
    var g := After(times, limit);
    if Minus(t, g.at) >= SECOND {
      forall i | 0 <= i < |times| ensures times[i] < t { assert times[i] <= times[|times| - 1]; }
      NoneLater(times, limit, t);
    }
    NeverOver(times, limit);
  }

  lemma {:induction false} NeverOver(times: seq<nat>, limit: nat)
    ensures After(times, limit).count <= limit
  {
    if times != [] { NeverOver(times[..|times| - 1], limit); }
  }
}

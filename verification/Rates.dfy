/** Fixed-window rate limits, and the one bound they all obey. */
module Rates {
  import opened Model

  const SECOND: nat := 1000

  /** The window in which an event at time `t` counts: a new one opens once the old one is `width` old. */
  function Window(r: Rate, t: nat, width: nat): Rate {
    if Minus(t, r.at) >= width then Rate(t, 0) else r
  }

  /** `Rate::accept`. */
  function Accept(r: Rate, t: nat, limit: nat): (Rate, bool) {
    var w := Window(r, t, SECOND);
    if w.count >= limit then (w, false) else (w.(count := w.count + 1), true)
  }

  /** The limiter as a connection holds it. */
  class Limiter {
    var at: nat
    var count: nat

    constructor ()
      ensures at == 0 && count == 0
    {
      at, count := 0, 0;
    }

    method Admit(t: nat, limit: nat) returns (ok: bool)
      modifies this
      ensures (Rate(at, count), ok) == Accept(old(Rate(at, count)), t, limit)
    {
      if Minus(t, at) >= SECOND {
        at := t;
        count := 0;
      }
      if count >= limit { return false; }
      count := count + 1;
      return true;
    }
  }

  // ---- the bound

  /** What a limiter sees of one command: nothing, or an event that it lets through or not. */
  datatype Event = Quiet | Seen(at: nat, ok: bool)

  /** How an event moves a fixed-window counter: whatever is let through finds room and is counted. */
  predicate Passes(g: Rate, e: Event, h: Rate, limit: nat, width: nat) {
    match e
    case Quiet => h == g
    case Seen(t, ok) =>
      var w := Window(g, t, width);
      h.at == w.at && h.count >= w.count + (if ok then 1 else 0) && (ok ==> w.count < limit)
  }

  /** A limiter over time. */
  ghost predicate IsTrace(gates: seq<Rate>, events: seq<Event>, limit: nat, width: nat) {
    && width > 0
    && |gates| == |events| + 1
    && (forall i :: 0 <= i < |events| ==> Passes(gates[i], events[i], gates[i + 1], limit, width))
    && (forall i, j :: 0 <= i < j < |events| && events[i].Seen? && events[j].Seen? ==> events[i].at <= events[j].at)
    && (forall i :: 0 <= i < |events| && events[i].Seen? ==> gates[0].at <= events[i].at)
  }

  /** The events let through at times from `a` to `b`. */
  function Count(events: seq<Event>, a: nat, b: nat): nat {
    if events == [] then 0
    else
      var e := events[|events| - 1];
      Count(events[..|events| - 1], a, b) + (if e.Seen? && e.ok && a <= e.at <= b then 1 else 0)
  }

  /** The number of windows of `width` that it takes to cover `span`. */
  function Windows(span: nat, width: nat): nat
    requires width > 0
  {
    if span == 0 then 0 else (span - 1) / width + 1
  }

  function Level(g: Rate, limit: nat): nat {
    if g.count < limit then g.count else limit
  }

  /** What may have passed since time `a`, when the counter stands at `g`. */
  function Room(g: Rate, a: nat, limit: nat, width: nat): nat
    requires width > 0
  {
    (if g.at > a then limit * Windows(g.at - a, width) else 0) + Level(g, limit)
  }

  lemma WindowsGrow(x: nat, y: nat, width: nat)
    requires width > 0 && 0 < x && x + width <= y
    ensures Windows(x, width) + 1 <= Windows(y, width)
  {
    var q := (x - 1) / width;
    assert x - 1 == width * q + (x - 1) % width;
    assert width * (q + 1) == width * q + width;
    Covers(y - 1, width, q + 1);
  }

  lemma Quotients(x: nat, y: nat, width: nat)
    requires width > 0 && x <= y
    ensures x / width <= y / width
  {
    assert x == width * (x / width) + x % width;
    Covers(y, width, x / width);
  }

  lemma Covers(y: nat, width: nat, q: nat)
    requires width > 0 && width * q <= y
    ensures q <= y / width
  {
    assert y < width * (y / width + 1);
    if q > y / width { Times(width, y / width + 1, q); }
  }

  lemma Times(limit: nat, x: nat, y: nat)
    requires x <= y
    ensures limit * x <= limit * y
  {
  }

  /** Opening a new window leaves room for everything that passed before. */
  lemma Reopens(g: Rate, t: nat, a: nat, limit: nat, width: nat)
    requires width > 0 && g.at + width <= t && t > a
    ensures Room(g, a, limit, width) <= Room(Rate(t, 0), a, limit, width)
  {
    if g.at > a {
      WindowsGrow(g.at - a, t - a, width);
      Times(limit, Windows(g.at - a, width) + 1, Windows(t - a, width));
      assert limit * (Windows(g.at - a, width) + 1) == limit * Windows(g.at - a, width) + limit;
    } else {
      Times(limit, 1, Windows(t - a, width));
    }
  }

  lemma {:induction false} CountBound(gates: seq<Rate>, events: seq<Event>, limit: nat, width: nat, a: nat, b: nat)
    requires IsTrace(gates, events, limit, width)
    ensures Count(events, a, b) <= Room(gates[|events|], a, limit, width)
    ensures Count(events, a, b) > 0 ==> gates[|events|].at + width > a
  {
    if events != [] {
      var n := |events| - 1;
      var e, g := events[n], gates[n];
      CountBound(gates[..n + 1], events[..n], limit, width, a, b);
      assert Passes(g, e, gates[n + 1], limit, width);
      if e.Seen? && Minus(e.at, g.at) >= width && e.at > a { Reopens(g, e.at, a, limit, width); }
    }
  }

  /** A window never opens ahead of the clock. */
  lemma {:induction false} GatesBehind(gates: seq<Rate>, events: seq<Event>, limit: nat, width: nat, i: nat, j: nat)
    requires IsTrace(gates, events, limit, width) && i <= j < |events| && events[j].Seen?
    ensures gates[i].at <= events[j].at
  {
    if i > 0 {
      GatesBehind(gates, events, limit, width, i - 1, j);
      assert Passes(gates[i - 1], events[i - 1], gates[i], limit, width);
    }
  }

  lemma PrefixTrace(gates: seq<Rate>, events: seq<Event>, limit: nat, width: nat)
    requires IsTrace(gates, events, limit, width) && events != []
    ensures IsTrace(gates[..|events|], events[..|events| - 1], limit, width)
  {
  }

  /**
   * The fixed-window bound: a limiter of `limit` events per `width` lets at most `limit` times one more than the
   * number of windows that cover `span` through in any stretch of time of length `span`.
   */
  lemma {:induction false} Bound(gates: seq<Rate>, events: seq<Event>, limit: nat, width: nat, a: nat, span: nat)
    requires IsTrace(gates, events, limit, width)
    ensures Count(events, a, a + span) <= limit * (Windows(span, width) + 1)
  {
    hide Passes;
    if events == [] {
      Times(limit, 0, Windows(span, width) + 1);
    } else {
      var n := |events| - 1;
      var e := events[n];
      if e.Seen? && e.ok && a <= e.at <= a + span {
        var g := gates[n + 1];
        CountBound(gates, events, limit, width, a, a + span);
        assert g.at <= e.at by { OpenedInTime(gates, events, limit, width); }
        if g.at > a {
          Quotients(g.at - a - 1, span - 1, width);
          Times(limit, Windows(g.at - a, width), Windows(span, width));
        } else {
          Times(limit, 0, Windows(span, width));
        }
        assert limit * (Windows(span, width) + 1) == limit * Windows(span, width) + limit;
      } else {
        PrefixTrace(gates, events, limit, width);
        Bound(gates[..n + 1], events[..n], limit, width, a, span);
      }
    }
  }

  lemma OpenedInTime(gates: seq<Rate>, events: seq<Event>, limit: nat, width: nat)
    requires IsTrace(gates, events, limit, width) && events != [] && events[|events| - 1].Seen?
    ensures gates[|events|].at <= events[|events| - 1].at
  {
    var n := |events| - 1;
    GatesBehind(gates, events, limit, width, n, n);
    assert Passes(gates[n], events[n], gates[n + 1], limit, width);
  }
}

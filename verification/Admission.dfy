/** Admission of new connections: global, per-address and per-minute limits. */
module Admission {
  import opened Model
  import Rates

  const MINUTE: nat := 60000

  type Ip = nat

  datatype Limits = Limits(connections: nat, perIp: nat, perMinute: nat)

  datatype Op = Acquire(ip: Ip, at: nat) | Drop(ip: Ip)

  /** The bookkeeping, and for each address the last window in which it was counted. */
  datatype Book = Book(active: map<Ip, nat>, total: nat, attempts: map<Ip, Rate>)

  function Active(b: Book, ip: Ip): nat {
    if ip in b.active then b.active[ip] else 0
  }

  /** The attempt windows that are still open. */
  function Retained(attempts: map<Ip, Rate>, t: nat): map<Ip, Rate> {
    map ip | ip in attempts && Minus(t, attempts[ip].at) < MINUTE :: attempts[ip]
  }

  function Entry(attempts: map<Ip, Rate>, ip: Ip, t: nat): Rate {
    var e := if ip in attempts then attempts[ip] else Rate(t, 0);
    e.(count := e.count + 1)
  }

  /** `acquire`: the book afterwards, and whether the connection may stay. */
  function Acquired(l: Limits, b: Book, ip: Ip, t: nat): (Book, bool) {
    var kept := Retained(b.attempts, t);
    if ip !in kept && |kept| >= l.connections * 4 then (b.(attempts := kept), false)
    else
      var e := Entry(kept, ip, t);
      var tried := b.(attempts := kept[ip := e]);
      if e.count > l.perMinute || b.total >= l.connections || Active(b, ip) >= l.perIp then (tried, false)
      else (tried.(total := b.total + 1, active := b.active[ip := Active(b, ip) + 1]), true)
  }

  /** The end of a connection. */
  function Dropped(b: Book, ip: Ip): Book {
    b.(total := Minus(b.total, 1),
       active := if Active(b, ip) <= 1 then b.active - {ip} else b.active[ip := Active(b, ip) - 1])
  }

  // ---- the object

  class Admission {
    var active: map<Ip, nat>
    var total: nat
    var attempts: map<Ip, Rate>

    function Value(): Book
      reads this
    {
      Book(active, total, attempts)
    }

    constructor ()
      ensures Value() == Book(map[], 0, map[])
    {
      active, total, attempts := map[], 0, map[];
    }

    /** Drops the attempt windows that are over. */
    method Forget(t: nat)
      modifies this`attempts
      ensures attempts == Retained(old(attempts), t)
    {
      var todo := attempts.Keys;
      while todo != {}
        invariant todo <= attempts.Keys <= old(attempts.Keys)
        invariant forall x :: x in old(attempts) ==>
          (x in attempts <==> x in todo || Minus(t, old(attempts)[x].at) < MINUTE) && (x in attempts ==> attempts[x] == old(attempts)[x])
        decreases todo
      {
        var x :| x in todo;
        todo := todo - {x};
        if Minus(t, attempts[x].at) >= MINUTE { attempts := attempts - {x}; }
      }
    }

    method Acquire(l: Limits, ip: Ip, t: nat) returns (ok: bool)
      modifies this
      ensures (Value(), ok) == Acquired(l, old(Value()), ip, t)
    {
      hide Retained;
      Forget(t);
      if ip !in attempts && |attempts| >= l.connections * 4 { return false; }
      var entry := if ip in attempts then attempts[ip] else Rate(t, 0);
      entry := entry.(count := entry.count + 1);
      attempts := attempts[ip := entry];
      if entry.count > l.perMinute || total >= l.connections || (if ip in active then active[ip] else 0) >= l.perIp {
        return false;
      }
      total := total + 1;
      active := active[ip := (if ip in active then active[ip] else 0) + 1];
      ok := true;
    }

    /** `Permit::drop`, for a connection that was admitted. */
    method Drop(ip: Ip)
      requires ip in active && active[ip] > 0 && total > 0
      modifies this`active, this`total
      ensures Value() == Dropped(old(Value()), ip)
    {
      total := total - 1;
      var count := active[ip] - 1;
      active := if count == 0 then active - {ip} else active[ip := count];
    }
  }

  // ---- whole runs

  function Play(l: Limits, b: Book, op: Op): Book {
    match op
    case Acquire(ip, t) => Acquired(l, b, ip, t).0
    case Drop(ip) => Dropped(b, ip)
  }

  /** The permits given for `ip` and not yet dropped. */
  function Open(l: Limits, books: seq<Book>, ops: seq<Op>, ip: Ip): int
    requires |books| == |ops| + 1
  {
    if ops == [] then 0
    else
      var n := |ops| - 1;
      var op := ops[n];
      Open(l, books[..n + 1], ops[..n], ip)
      + (if op.Drop? then (if op.ip == ip then -1 else 0)
         else if op.ip == ip && Acquired(l, books[n], op.ip, op.at).1 then 1 else 0)
  }

  /** A history: permits are dropped at most once each, and time does not run back. */
  ghost predicate IsRun(l: Limits, books: seq<Book>, ops: seq<Op>) {
    && |books| == |ops| + 1 && books[0] == Book(map[], 0, map[])
    && (forall i :: 0 <= i < |ops| ==> books[i + 1] == Play(l, books[i], ops[i]))
    && (forall i :: 0 <= i < |ops| && ops[i].Drop? ==> Open(l, books[..i + 1], ops[..i], ops[i].ip) > 0)
    && (forall i, j :: 0 <= i < j < |ops| && ops[i].Acquire? && ops[j].Acquire? ==> ops[i].at <= ops[j].at)
  }

  ghost function Sum(active: map<Ip, nat>): nat {
    if active == map[] then 0
    else
      var ip :| ip in active;
      active[ip] + Sum(active - {ip})
  }

  lemma {:induction false} SumWithout(active: map<Ip, nat>, ip: Ip)
    requires ip in active
    ensures Sum(active) == active[ip] + Sum(active - {ip})
  {
    var x :| x in active && Sum(active) == active[x] + Sum(active - {x});
    if x != ip {
      SumWithout(active - {x}, ip);
      SumWithout(active - {ip}, x);
      assert active - {x} - {ip} == active - {ip} - {x};
    }
  }

  lemma SumSet(active: map<Ip, nat>, ip: Ip, n: nat)
    ensures Sum(active[ip := n]) == Sum(active - {ip}) + n
    ensures Sum(active) == Sum(active - {ip}) + if ip in active then active[ip] else 0
  {
    SumWithout(active[ip := n], ip);
    assert active[ip := n] - {ip} == active - {ip};
    if ip in active { SumWithout(active, ip); } else { assert active - {ip} == active; }
  }

  /** The total is the sum over the addresses, no entry is empty, and every limit holds. */
  ghost predicate Valid(l: Limits, b: Book) {
    && b.total == Sum(b.active) <= l.connections
    && (forall ip :: ip in b.active ==> 0 < b.active[ip] <= l.perIp)
    && |b.attempts| <= l.connections * 4
  }

  lemma RetainedSmaller(attempts: map<Ip, Rate>, t: nat)
    ensures |Retained(attempts, t)| <= |attempts|
  {
    var kept := Retained(attempts, t);
    assert kept.Keys <= attempts.Keys;
    Subset(kept.Keys, attempts.Keys);
    assert |kept| == |kept.Keys| && |attempts| == |attempts.Keys|;
  }

  lemma Subset(a: set<Ip>, b: set<Ip>)
    requires a <= b
    ensures |a| <= |b|
  {
    assert b == a + (b - a);
  }

  lemma AcquireValid(l: Limits, b: Book, ip: Ip, t: nat)
    requires Valid(l, b)
    ensures Valid(l, Acquired(l, b, ip, t).0)
    ensures var (c, ok) := Acquired(l, b, ip, t);
      if ok then c.total == b.total + 1 && c.active == b.active[ip := Active(b, ip) + 1] else c.total == b.total && c.active == b.active
  {
    hide Retained, Entry, Sum;
    var kept := Retained(b.attempts, t);
    RetainedSmaller(b.attempts, t);
    OneMore(kept, ip, Entry(kept, ip, t));
    SumSet(b.active, ip, Active(b, ip) + 1);
  }

  lemma OneMore(kept: map<Ip, Rate>, ip: Ip, e: Rate)
    ensures |kept[ip := e]| == |kept| + if ip in kept then 0 else 1
  {
    var more := kept[ip := e];
    assert |kept| == |kept.Keys| && |more| == |more.Keys|;
    assert more.Keys == kept.Keys + {ip};
  }

  lemma DropActive(b: Book, ip: Ip)
    requires Active(b, ip) > 0
    ensures Active(Dropped(b, ip), ip) == Active(b, ip) - 1 && forall x :: x != ip ==> Active(Dropped(b, ip), x) == Active(b, x)
    ensures Sum(Dropped(b, ip).active) == Sum(b.active) - 1
  {
    SumSet(b.active, ip, Minus(Active(b, ip), 1));
  }

  lemma DropValid(l: Limits, b: Book, ip: Ip)
    requires Valid(l, b) && Active(b, ip) > 0
    ensures Valid(l, Dropped(b, ip)) && b.total > 0 && Dropped(b, ip).total == b.total - 1
    ensures Active(Dropped(b, ip), ip) == Active(b, ip) - 1 && forall x :: x != ip ==> Active(Dropped(b, ip), x) == Active(b, x)
  {
    hide Sum;
    DropActive(b, ip);
    SumSet(b.active, ip, 0);
    var c := Dropped(b, ip);
    forall x | x in c.active ensures 0 < c.active[x] <= l.perIp {
      if x != ip { assert Active(c, x) == Active(b, x); }
    }
  }

  /** Giving a permit back undoes having got it. */
  lemma DropUndoesAcquire(l: Limits, b: Book, ip: Ip, t: nat)
    requires Valid(l, b) && Acquired(l, b, ip, t).1
    ensures var c := Dropped(Acquired(l, b, ip, t).0, ip); c.total == b.total && c.active == b.active
  {
    var c := Dropped(Acquired(l, b, ip, t).0, ip);
    if ip !in b.active { assert b.active[ip := 1] - {ip} == b.active; }
    else { assert b.active[ip := b.active[ip] + 1][ip := b.active[ip]] == b.active; }
  }

  lemma OpenStep(l: Limits, books: seq<Book>, ops: seq<Op>, n: nat, ip: Ip)
    requires |books| == |ops| + 1 && 0 < n <= |ops|
    ensures var op := ops[n - 1];
      Open(l, books[..n + 1], ops[..n], ip) == Open(l, books[..n], ops[..n - 1], ip)
        + (if op.Drop? then (if op.ip == ip then -1 else 0)
           else if op.ip == ip && Acquired(l, books[n - 1], op.ip, op.at).1 then 1 else 0)
  {
    hide Acquired;
    assert books[..n + 1][..n] == books[..n] && ops[..n][..n - 1] == ops[..n - 1];
    assert ops[..n][n - 1] == ops[n - 1] && books[..n + 1][n - 1] == books[n - 1];
  }

  /** In every history the book counts the open permits of each address exactly, within the limits. */
  lemma {:induction false} RunValid(l: Limits, books: seq<Book>, ops: seq<Op>, n: nat)
    requires IsRun(l, books, ops) && n <= |ops|
    ensures Valid(l, books[n])
    ensures forall ip: Ip :: Active(books[n], ip) == Open(l, books[..n + 1], ops[..n], ip)
  {
    hide Acquired, Dropped, Valid, Open;
    if n == 0 {
      EmptyValid(l);
      forall ip: Ip ensures Active(books[0], ip) == Open(l, books[..1], ops[..0], ip) { OpenNone(l, books[..1], ops[..0], ip); }
    } else {
      RunValid(l, books, ops, n - 1);
      var b, op := books[n - 1], ops[n - 1];
      assert books[n] == Play(l, b, op);
      if op.Acquire? { AcquireValid(l, b, op.ip, op.at); } else { DropValid(l, b, op.ip); }
      forall ip: Ip ensures Active(books[n], ip) == Open(l, books[..n + 1], ops[..n], ip) {
        OpenStep(l, books, ops, n, ip);
        assert books[..n - 1 + 1] == books[..n];
        assert Active(b, ip) == Open(l, books[..n - 1 + 1], ops[..n - 1], ip);
      }
    }
  }

  lemma OpenNone(l: Limits, books: seq<Book>, ops: seq<Op>, ip: Ip)
    requires |books| == |ops| + 1 && ops == []
    ensures Open(l, books, ops, ip) == 0
  {
  }

  lemma EmptyValid(l: Limits)
    ensures Valid(l, Book(map[], 0, map[]))
  {
  }

  // ---- attempts per minute

  /** How the limit of one address sees an operation. */
  function EventOf(l: Limits, b: Book, op: Op, ip: Ip): Rates.Event {
    if op.Drop? || op.ip != ip then Rates.Quiet
    else if ip !in Retained(b.attempts, op.at) && |Retained(b.attempts, op.at)| >= l.connections * 4 then Rates.Quiet
    else Rates.Seen(op.at, Acquired(l, b, ip, op.at).1)
  }

  function Events(l: Limits, books: seq<Book>, ops: seq<Op>, ip: Ip): seq<Rates.Event>
    requires |books| == |ops| + 1
  {
    seq(|ops|, i requires 0 <= i < |ops| => EventOf(l, books[i], ops[i], ip))
  }

  /** The window in which the address was last counted: the book's while it is open, remembered after that. */
  function GateAt(l: Limits, books: seq<Book>, ops: seq<Op>, ip: Ip, first: nat, n: nat): Rate
    requires |books| == |ops| + 1 && n <= |ops|
  {
    if n == 0 then Rate(first, 0)
    else if EventOf(l, books[n - 1], ops[n - 1], ip).Quiet? then GateAt(l, books, ops, ip, first, n - 1)
    else Entry(Retained(books[n - 1].attempts, ops[n - 1].at), ip, ops[n - 1].at)
  }

  function Gates(l: Limits, books: seq<Book>, ops: seq<Op>, ip: Ip, first: nat): seq<Rate>
    requires |books| == |ops| + 1
  {
    seq(|ops| + 1, n requires 0 <= n <= |ops| => GateAt(l, books, ops, ip, first, n))
  }

  /** The book agrees with the remembered window, or that window was over when an earlier connection came. */
  ghost predicate Remembers(books: seq<Book>, ops: seq<Op>, ip: Ip, g: Rate, n: nat)
    requires n < |books| && n <= |ops|
  {
    if ip in books[n].attempts then books[n].attempts[ip] == g
    else exists k :: 0 <= k < n && ops[k].Acquire? && g.at + MINUTE <= ops[k].at
  }

  /** What a connection attempt does to the windows. */
  lemma AttemptsAfter(l: Limits, b: Book, ip: Ip, t: nat)
    ensures var kept := Retained(b.attempts, t);
      Acquired(l, b, ip, t).0.attempts ==
        if ip !in kept && |kept| >= l.connections * 4 then kept else kept[ip := Entry(kept, ip, t)]
  {
  }

  lemma {:induction false} RunRemembers(l: Limits, books: seq<Book>, ops: seq<Op>, ip: Ip, i0: nat, n: nat)
    requires IsRun(l, books, ops) && n <= |ops| && i0 < |ops|
    requires EventOf(l, books[i0], ops[i0], ip).Seen? && forall i :: 0 <= i < i0 ==> EventOf(l, books[i], ops[i], ip).Quiet?
    ensures var g := GateAt(l, books, ops, ip, ops[i0].at, n);
      if n <= i0 then ip !in books[n].attempts && g == Rate(ops[i0].at, 0) else Remembers(books, ops, ip, g, n)
  {
    hide Acquired, Open, Dropped;
    if n > 0 {
      RunRemembers(l, books, ops, ip, i0, n - 1);
      var b, op := books[n - 1], ops[n - 1];
      assert books[n] == Play(l, b, op);
      var g := GateAt(l, books, ops, ip, ops[i0].at, n - 1);
      if op.Acquire? {
        AttemptsAfter(l, b, op.ip, op.at);
        if n > i0 && ip !in books[n].attempts && ip in b.attempts { assert g.at + MINUTE <= ops[n - 1].at; }
      } else {
        DropKeepsAttempts(b, op.ip);
      }
    }
  }

  lemma DropKeepsAttempts(b: Book, ip: Ip)
    ensures Dropped(b, ip).attempts == b.attempts
  {
  }

  lemma AcquirePasses(l: Limits, b: Book, ip: Ip, t: nat, g: Rate, op: Op)
    requires op == Acquire(ip, t) && EventOf(l, b, op, ip).Seen?
    requires if ip in b.attempts then b.attempts[ip] == g else Minus(t, g.at) >= MINUTE || (g == Rate(t, 0))
    ensures Rates.Passes(g, EventOf(l, b, op, ip), Entry(Retained(b.attempts, t), ip, t), l.perMinute, MINUTE)
  {
  }

  /** The attempts of one address run as a fixed window does. */
  lemma AttemptsTrace(l: Limits, books: seq<Book>, ops: seq<Op>, ip: Ip, i0: nat)
    requires IsRun(l, books, ops) && i0 < |ops|
    requires EventOf(l, books[i0], ops[i0], ip).Seen? && forall i :: 0 <= i < i0 ==> EventOf(l, books[i], ops[i], ip).Quiet?
    ensures Rates.IsTrace(Gates(l, books, ops, ip, ops[i0].at), Events(l, books, ops, ip), l.perMinute, MINUTE)
  {
    hide Acquired, Open, Dropped, Play;
    var gates, events := Gates(l, books, ops, ip, ops[i0].at), Events(l, books, ops, ip);
    forall n | 0 <= n < |events| ensures Rates.Passes(gates[n], events[n], gates[n + 1], l.perMinute, MINUTE) {
      RunRemembers(l, books, ops, ip, i0, n);
      if events[n].Seen? {
        if n > i0 && ip !in books[n].attempts {
          var k :| 0 <= k < n && ops[k].Acquire? && gates[n].at + MINUTE <= ops[k].at;
          assert ops[k].at <= ops[n].at;
        }
        AcquirePasses(l, books[n], ip, ops[n].at, gates[n], ops[n]);
      }
    }
  }

  /** No address gets more than `perMinute * (ceil(span / 60000) + 1)` connections in any stretch of `span` milliseconds. */
  lemma AttemptsBound(l: Limits, books: seq<Book>, ops: seq<Op>, ip: Ip, a: nat, span: nat)
    requires IsRun(l, books, ops)
    ensures Rates.Count(Events(l, books, ops, ip), a, a + span) <= l.perMinute * (Rates.Windows(span, MINUTE) + 1)
  {
    hide IsRun, Rates.IsTrace, Rates.Count, EventOf;
    RunShape(l, books, ops);
    var events := Events(l, books, ops, ip);
    if forall i :: 0 <= i < |events| ==> events[i].Quiet? {
      NothingCounted(events, a, a + span);
      Rates.Times(l.perMinute, 0, Rates.Windows(span, MINUTE) + 1);
    } else {
      var i0 := FirstSeen(events);
      forall i | 0 <= i < i0 ensures EventOf(l, books[i], ops[i], ip).Quiet? { assert events[i].Quiet?; }
      SeenIsAcquire(l, books[i0], ops[i0], ip);
      AttemptsTrace(l, books, ops, ip, i0);
      Rates.Bound(Gates(l, books, ops, ip, ops[i0].at), events, l.perMinute, MINUTE, a, span);
    }
  }

  lemma SeenIsAcquire(l: Limits, b: Book, op: Op, ip: Ip)
    ensures EventOf(l, b, op, ip).Seen? ==> op.Acquire?
  {
  }

  lemma RunShape(l: Limits, books: seq<Book>, ops: seq<Op>)
    requires IsRun(l, books, ops)
    ensures |books| == |ops| + 1
  {
  }

  lemma {:induction false} FirstSeen(events: seq<Rates.Event>) returns (i: nat)
    requires exists i :: 0 <= i < |events| && !events[i].Quiet?
    ensures i < |events| && events[i].Seen? && forall k :: 0 <= k < i ==> events[k].Quiet?
  {
    i := 0;
    while events[i].Quiet?
      invariant i < |events| && forall k :: 0 <= k < i ==> events[k].Quiet?
      decreases |events| - i
    {
      i := i + 1;
    }
  }

  lemma {:induction false} NothingCounted(events: seq<Rates.Event>, a: nat, b: nat)
    requires forall i :: 0 <= i < |events| ==> events[i].Quiet?
    ensures Rates.Count(events, a, b) == 0
  {
    if events != [] { NothingCounted(events[..|events| - 1], a, b); }
  }

  // ---- who is admitted

  /** The attempts of `ip` at time `a` or later. */
  function Tries(ops: seq<Op>, ip: Ip, a: nat): nat {
    if ops == [] then 0
    else
      var op := ops[|ops| - 1];
      Tries(ops[..|ops| - 1], ip, a) + if op.Acquire? && op.ip == ip && op.at >= a then 1 else 0
  }

  /** The addresses that tried less than a minute before `t`. */
  function Recent(ops: seq<Op>, t: nat): set<Ip> {
    set k | 0 <= k < |ops| && ops[k].Acquire? && t < ops[k].at + MINUTE :: ops[k].ip
  }

  /** The permits that are open, over all addresses. */
  function AllOpen(l: Limits, books: seq<Book>, ops: seq<Op>): int
    requires |books| == |ops| + 1
  {
    if ops == [] then 0
    else
      var n := |ops| - 1;
      AllOpen(l, books[..n + 1], ops[..n])
      + if ops[n].Drop? then -1 else if Acquired(l, books[n], ops[n].ip, ops[n].at).1 then 1 else 0
  }

  lemma {:induction false} TotalIsAllOpen(l: Limits, books: seq<Book>, ops: seq<Op>, n: nat)
    requires IsRun(l, books, ops) && n <= |ops|
    ensures books[n].total == AllOpen(l, books[..n + 1], ops[..n])
  {
    hide Acquired, Dropped, Valid, Open;
    if n > 0 {
      TotalIsAllOpen(l, books, ops, n - 1);
      RunValid(l, books, ops, n - 1);
      var b, op := books[n - 1], ops[n - 1];
      assert books[n] == Play(l, b, op);
      assert books[..n + 1][..n] == books[..n] && ops[..n][..n - 1] == ops[..n - 1] && books[..n - 1 + 1] == books[..n];
      assert books[..n + 1][n - 1] == b && ops[..n][n - 1] == op;
      if op.Acquire? { AcquireValid(l, b, op.ip, op.at); } else { DropValid(l, b, op.ip); }
    }
  }

  /** A window in the book opened with an attempt of its address, and counts no more than the attempts since. */
  ghost predicate Tallied(ops: seq<Op>, ip: Ip, e: Rate) {
    && e.count <= Tries(ops, ip, e.at)
    && exists k :: 0 <= k < |ops| && ops[k] == Acquire(ip, e.at)
  }

  lemma TalliedOn(ops: seq<Op>, op: Op, ip: Ip, e: Rate)
    requires Tallied(ops, ip, e)
    ensures Tallied(ops + [op], ip, e)
    ensures op.Acquire? && op.ip == ip && op.at >= e.at ==> Tallied(ops + [op], ip, e.(count := e.count + 1))
  {
    var more := ops + [op];
    assert more[..|ops|] == ops;
    var k :| 0 <= k < |ops| && ops[k] == Acquire(ip, e.at);
    assert more[k] == Acquire(ip, e.at);
  }

  lemma TalliedNew(ops: seq<Op>, ip: Ip, t: nat)
    ensures Tallied(ops + [Acquire(ip, t)], ip, Rate(t, 1))
  {
    var more := ops + [Acquire(ip, t)];
    assert more[..|ops|] == ops && more[|ops|] == Acquire(ip, t);
  }

  lemma {:induction false} RunTallied(l: Limits, books: seq<Book>, ops: seq<Op>, n: nat, ip: Ip)
    requires IsRun(l, books, ops) && n <= |ops| && ip in books[n].attempts
    ensures Tallied(ops[..n], ip, books[n].attempts[ip])
  {
    hide Acquired, Dropped, Open, Tallied;
    if n > 0 {
      var b, op := books[n - 1], ops[n - 1];
      assert books[n] == Play(l, b, op);
      assert ops[..n] == ops[..n - 1] + [op];
      if ip in b.attempts { RunTallied(l, books, ops, n - 1, ip); TalliedOn(ops[..n - 1], op, ip, b.attempts[ip]); }
      if op.Acquire? {
        AttemptsAfter(l, b, op.ip, op.at);
        if op.ip == ip {
          TalliedNew(ops[..n - 1], ip, op.at);
          if ip in b.attempts { TalliedEarlier(l, books, ops, n - 1, ip); }
        }
      } else {
        DropKeepsAttempts(b, op.ip);
      }
    }
  }

  lemma TalliedEarlier(l: Limits, books: seq<Book>, ops: seq<Op>, n: nat, ip: Ip)
    requires IsRun(l, books, ops) && n < |ops| && ops[n].Acquire? && ip in books[n].attempts
    requires Tallied(ops[..n], ip, books[n].attempts[ip])
    ensures books[n].attempts[ip].at <= ops[n].at
  {
    hide Acquired, Open, Play;
    var k :| 0 <= k < n && ops[..n][k] == Acquire(ip, books[n].attempts[ip].at);
    assert ops[k].Acquire? && ops[k].at == books[n].attempts[ip].at;
  }

  lemma {:induction false} FewerLater(ops: seq<Op>, ip: Ip, a: nat, b: nat)
    requires a <= b
    ensures Tries(ops, ip, b) <= Tries(ops, ip, a)
  {
    if ops != [] { FewerLater(ops[..|ops| - 1], ip, a, b); }
  }

  /**
   * In every history an attempt that keeps within the limits is admitted: fewer than `perMinute` attempts of its address
   * and fewer than four times `connections` addresses in the minute before, fewer than `connections` permits open, and
   * fewer than `perIp` of its address.
   */
  lemma AdmittedWithinLimits(l: Limits, books: seq<Book>, ops: seq<Op>, n: nat)
    requires IsRun(l, books, ops) && n < |ops| && ops[n].Acquire?
    requires Tries(ops[..n], ops[n].ip, Minus(ops[n].at + 1, MINUTE)) < l.perMinute
    requires |Recent(ops[..n], ops[n].at)| < l.connections * 4
    requires AllOpen(l, books[..n + 1], ops[..n]) < l.connections
    requires Open(l, books[..n + 1], ops[..n], ops[n].ip) < l.perIp
    ensures Acquired(l, books[n], ops[n].ip, ops[n].at).1
  {
    hide IsRun, Open, AllOpen, Valid, Tries;
    RunShape(l, books, ops);
    var ip, t, b := ops[n].ip, ops[n].at, books[n];
    RunValid(l, books, ops, n);
    TotalIsAllOpen(l, books, ops, n);
    var kept := Retained(b.attempts, t);
    forall x | x in kept ensures x in Recent(ops[..n], t) { KeptIsRecent(l, books, ops, n, x); }
    assert |kept| == |kept.Keys|;
    Subset(kept.Keys, Recent(ops[..n], t));
    if ip in kept {
      RunTallied(l, books, ops, n, ip);
      FewerLater(ops[..n], ip, Minus(t + 1, MINUTE), kept[ip].at);
    }
  }

  lemma KeptIsRecent(l: Limits, books: seq<Book>, ops: seq<Op>, n: nat, ip: Ip)
    requires IsRun(l, books, ops) && n < |ops| && ops[n].Acquire? && ip in Retained(books[n].attempts, ops[n].at)
    ensures ip in Recent(ops[..n], ops[n].at)
  {
    hide IsRun, Tries;
    RunShape(l, books, ops);
    RunTallied(l, books, ops, n, ip);
    var e := books[n].attempts[ip];
    var k :| 0 <= k < n && ops[..n][k] == Acquire(ip, e.at);
  }
}

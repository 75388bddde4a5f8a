/**
 * The outgoing queue of one connection: the state thread reserves, enqueues and closes, the socket writer takes,
 * writes and releases, and their atomic steps interleave in any order.
 */
module Outbox {
  import opened Model

  datatype Message = Message(size: nat, control: bool, close: bool)

  /** Payload plus the largest header: ten bytes, or two for a control frame. */
  function Cost(m: Message): nat {
    m.size + if m.control then 2 else 10
  }

  function Total(queue: seq<Message>): nat {
    if queue == [] then 0 else Cost(queue[0]) + Total(queue[1..])
  }

  /** Where the state thread is inside `raw`. */
  datatype Sender =
    | Idle
    | Admitted(m: Message)             // passed the closing check
    | Reserved(m: Message, over: bool) // counted, and perhaps over the limit
    | Undone                           // gave an overrun back, has not terminated the connection yet
    | Refused(m: Message)              // the receiver is gone, the count has not been given back yet

  /** Where the socket writer is in its loop. */
  datatype Writer =
    | Waiting
    | Writing(m: Message)
    | Written(m: Message, ok: bool)
    | Stopped
    | Dropped

  /** `log` is the history of everything enqueued, `lost` the cost of what the socket writer gave up on. */
  datatype Queue = Queue(counter: nat, frames: seq<Message>, sender: Sender, writer: Writer,
                         closing: bool, aborted: bool, log: seq<Message>, taken: seq<Message>, lost: nat)

  function Empty(): Queue {
    Queue(0, [], Idle, Waiting, false, false, [], [], 0)
  }

  datatype Action =
    | Call(m: Message)   // `raw` is called: closing check and mark
    | Add                // `fetch_add`
    | GiveBack           // `fetch_sub` after an overrun
    | Terminate          // closing mark and abort signal after an overrun
    | Send               // `tx.send`
    | TakeBack           // `fetch_sub` after a failed send
    | Take               // `rx.recv`
    | Finish(ok: bool)   // `ws.send` returned
    | Release            // saturating subtraction, and the end of the loop after a failure or a Close
    | Break              // abort, shutdown, or the end of the incoming side
    | Drop               // the receiver is dropped

  predicate Enabled(q: Queue, a: Action) {
    match a
    case Call(_) => q.sender.Idle?
    case Add => q.sender.Admitted?
    case GiveBack => q.sender.Reserved? && q.sender.over
    case Terminate => q.sender.Undone?
    case Send => q.sender.Reserved? && !q.sender.over
    case TakeBack => q.sender.Refused?
    case Take => q.writer.Waiting? && q.frames != []
    case Finish(_) => q.writer.Writing?
    case Release => q.writer.Written?
    case Break => q.writer.Waiting? || q.writer.Writing?
    case Drop => q.writer.Stopped?
  }

  function Next(max: nat, q: Queue, a: Action): Queue
    requires Enabled(q, a)
  {
    match a
    case Call(m) => if q.closing then q else q.(sender := Admitted(m), closing := m.close)
    case Add =>
      var n := Cost(q.sender.m);
      q.(counter := q.counter + n, sender := Reserved(q.sender.m, q.counter + n > max))
    case GiveBack => q.(counter := Minus(q.counter, Cost(q.sender.m)), sender := Undone)
    case Terminate => q.(closing := true, aborted := true, sender := Idle)
    case Send =>
      if q.writer.Dropped? then q.(sender := Refused(q.sender.m))
      else q.(frames := q.frames + [q.sender.m], log := q.log + [q.sender.m], sender := Idle)
    case TakeBack => q.(counter := Minus(q.counter, Cost(q.sender.m)), sender := Idle)
    case Take => q.(frames := q.frames[1..], taken := q.taken + [q.frames[0]], writer := Writing(q.frames[0]))
    case Finish(ok) => q.(writer := Written(q.writer.m, ok))
    case Release =>
      q.(counter := Minus(q.counter, Cost(q.writer.m)), writer := if q.writer.ok && !q.writer.m.close then Waiting else Stopped)
    case Break => q.(writer := Stopped, lost := if q.writer.Writing? then Cost(q.writer.m) else 0)
    case Drop => q.(writer := Dropped, frames := [], lost := q.lost + Total(q.frames))
  }

  // ---- the invariant

  function InFlight(q: Queue): nat {
    if q.writer.Writing? || q.writer.Written? then Cost(q.writer.m) else 0
  }

  function Reservation(q: Queue): nat {
    if q.sender.Reserved? || q.sender.Refused? then Cost(q.sender.m) else 0
  }

  /** A Close in the log ends it, and while one is being sent nothing else is. */
  ghost predicate CloseIsLast(q: Queue) {
    && (forall i :: 0 <= i < |q.log| - 1 ==> !q.log[i].close)
    && (q.log != [] && q.log[|q.log| - 1].close ==> q.closing && q.sender.Idle?)
    && (q.aborted ==> q.closing && q.sender.Idle?)
    && ((q.sender.Admitted? || q.sender.Reserved? || q.sender.Refused?) ==> q.closing == q.sender.m.close)
  }

  ghost predicate Valid(max: nat, q: Queue) {
    Counts(max, q) && InOrder(q) && CloseIsLast(q)
  }

  lemma {:induction false} TotalSnoc(queue: seq<Message>, m: Message)
    ensures Total(queue + [m]) == Total(queue) + Cost(m)
  {
    if queue == [] {
      assert queue + [m] == [m];
    } else {
      assert (queue + [m])[1..] == queue[1..] + [m];
      TotalSnoc(queue[1..], m);
    }
  }

  lemma CloseStaysLast(max: nat, q: Queue, a: Action)
    requires CloseIsLast(q) && Enabled(q, a)
    ensures CloseIsLast(Next(max, q, a))
  {
    hide Total, Cost;
    if a.Send? && !q.writer.Dropped? {
      var log := Next(max, q, a).log;
      assert forall i :: 0 <= i < |q.log| ==> log[i] == q.log[i] && (i == |q.log| - 1 ==> !q.log[i].close);
    }
  }

  /** What the socket writer has taken and what it has still to take. */
  ghost predicate InOrder(q: Queue) {
    if q.writer.Dropped? then q.frames == [] && q.taken <= q.log else q.log == q.taken + q.frames
  }

  lemma StaysInOrder(max: nat, q: Queue, a: Action)
    requires InOrder(q) && Enabled(q, a)
    ensures InOrder(Next(max, q, a))
  {
    hide Total, Cost;
    if a.Send? && !q.writer.Dropped? { assert q.taken + (q.frames + [q.sender.m]) == q.log + [q.sender.m]; }
    if a.Take? { assert q.taken + q.frames == q.taken + [q.frames[0]] + q.frames[1..]; }
  }

  /** The counter is exact, and what is queued, in flight or abandoned was admitted within the limit. */
  ghost predicate Counts(max: nat, q: Queue) {
    && q.counter == Total(q.frames) + InFlight(q) + Reservation(q) + q.lost
    && (q.lost > 0 ==> q.writer.Stopped? || q.writer.Dropped?)
    && Total(q.frames) + InFlight(q) + q.lost <= max
    && (q.sender.Reserved? && !q.sender.over ==> q.counter <= max)
    && (q.writer.Dropped? ==> q.frames == [])
  }

  lemma SenderCounts(max: nat, q: Queue, a: Action)
    requires Counts(max, q) && Enabled(q, a)
    requires (a.Call? || a.Add? || a.GiveBack? || a.Terminate? || a.Send? || a.TakeBack?)
    ensures Counts(max, Next(max, q, a))
    ensures a.GiveBack? || a.TakeBack? ==> Cost(q.sender.m) <= q.counter
  {
    hide Cost;
    if a.Send? && !q.writer.Dropped? { TotalSnoc(q.frames, q.sender.m); }
  }

  lemma WriterCounts(max: nat, q: Queue, a: Action)
    requires Counts(max, q) && Enabled(q, a) && (a.Take? || a.Finish? || a.Release? || a.Break? || a.Drop?)
    ensures Counts(max, Next(max, q, a))
    ensures a.Release? ==> Cost(q.writer.m) <= q.counter
  {
    hide Cost;
  }

  /** Every step of either thread keeps the invariant, and no subtraction goes below zero. */
  lemma StepValid(max: nat, q: Queue, a: Action)
    requires Valid(max, q) && Enabled(q, a)
    ensures Valid(max, Next(max, q, a))
    ensures a.GiveBack? || a.TakeBack? ==> Cost(q.sender.m) <= q.counter
    ensures a.Release? ==> Cost(q.writer.m) <= q.counter
  {
    hide Next, Counts, InOrder, CloseIsLast;
    CloseStaysLast(max, q, a);
    StaysInOrder(max, q, a);
    if a.Take? || a.Finish? || a.Release? || a.Break? || a.Drop? { WriterCounts(max, q, a); } else { SenderCounts(max, q, a); }
  }

  // ---- runs

  datatype Run = Run(states: seq<Queue>, actions: seq<Action>)

  ghost predicate IsRun(max: nat, r: Run) {
    && |r.states| == |r.actions| + 1 && r.states[0] == Empty()
    && forall i :: 0 <= i < |r.actions| ==> Enabled(r.states[i], r.actions[i]) && r.states[i + 1] == Next(max, r.states[i], r.actions[i])
  }

  lemma {:induction false} RunValid(max: nat, r: Run, i: nat)
    requires IsRun(max, r) && i < |r.states|
    ensures Valid(max, r.states[i])
  {
    if i > 0 {
      RunValid(max, r, i - 1);
      StepValid(max, r.states[i - 1], r.actions[i - 1]);
    }
  }

  /**
   * Under every interleaving the counter is the cost of the queued frames, of the frame in flight and of the
   * reservation in progress while the socket writer runs, and what is queued stays inside the limit.
   */
  lemma CounterIsExact(max: nat, r: Run, i: nat)
    requires IsRun(max, r) && i < |r.states| && !r.states[i].writer.Stopped? && !r.states[i].writer.Dropped?
    ensures r.states[i].counter == Total(r.states[i].frames) + InFlight(r.states[i]) + Reservation(r.states[i])
    ensures Total(r.states[i].frames) + InFlight(r.states[i]) <= max
  {
    RunValid(max, r, i);
  }

  /** Frames are written in the order in which they were sent, none twice and none invented. */
  lemma WrittenInOrder(max: nat, r: Run, i: nat)
    requires IsRun(max, r) && i < |r.states|
    ensures r.states[i].taken <= r.states[i].log
    ensures !r.states[i].writer.Dropped? ==> r.states[i].taken + r.states[i].frames == r.states[i].log
  {
    RunValid(max, r, i);
  }

  /** After a Close was enqueued or the connection was terminated, nothing is enqueued any more. */
  lemma {:induction false} NothingAfterTheEnd(max: nat, r: Run, i: nat, j: nat)
    requires IsRun(max, r) && i <= j < |r.states|
    requires r.states[i].aborted || exists m :: m in r.states[i].log && m.close
    ensures r.states[j].log == r.states[i].log && r.states[j].closing && r.states[j].sender.Idle?
    decreases j
  {
    RunValid(max, r, i);
    if i < j {
      NothingAfterTheEnd(max, r, i, j - 1);
      var q, a := r.states[j - 1], r.actions[j - 1];
      assert Enabled(q, a);
    } else if m :| m in r.states[i].log && m.close {
      var k :| 0 <= k < |r.states[i].log| && r.states[i].log[k] == m;
    }
  }
}

/** The 64-packet anti-replay window of the UDP channel. */
module AntiReplay {
  const WORD: nat := 0x1_0000_0000_0000_0000

  /** The values of a 64-bit word. */
  type Word = n: nat | n < WORD witness 0

  /** The two machine words of the window; `bits` holds one bit for each of the 64 newest numbers. */
  datatype Window = Window(highest: nat, bits: nat) {
    predicate Valid() { highest < WORD && bits < WORD }
  }

  const EMPTY: Window := Window(0, 0)

  function Pow2(n: nat): (r: nat)
    ensures r > 0
  {
    if n == 0 then 1 else 2 * Pow2(n - 1)
  }

  /** Bit `d` of a machine word. */
  predicate Bit(b: nat, d: nat) {
    if d == 0 then b % 2 == 1 else Bit(b / 2, d - 1)
  }

  /** A left shift of a 64-bit word: bits pushed past the top are lost. */
  function ShiftLeft(b: nat, n: nat): (r: nat)
    ensures r < WORD
  {
    b * Pow2(n) % WORD
  }

  /** `Replay::accept` on values: the new window and the verdict. */
  function Admit(w: Window, sequence: Word): (Window, bool) {
    if sequence == 0 then (w, false)
    else if sequence > w.highest then
      var shift := sequence - w.highest;
      (Window(sequence, if shift >= 64 then 1 else SetBit(ShiftLeft(w.bits, shift), 0)), true)
    else
      var distance := w.highest - sequence;
      if distance >= 64 || Bit(w.bits, distance) then (w, false)
      else (w.(bits := SetBit(w.bits, distance)), true)
  }

  /** The word with bit `d` set. */
  function SetBit(b: nat, d: nat): nat {
    if Bit(b, d) then b else b + Pow2(d)
  }

  // ---- facts about machine words

  lemma {:induction false} SetBitIsOr(b: nat, d: nat, k: nat)
    ensures Bit(SetBit(b, d), k) <==> k == d || Bit(b, k)
  {
    if d == 0 {
      if !Bit(b, 0) { assert (b + 1) / 2 == b / 2; }
    } else {
      SetBitIsOr(b / 2, d - 1, if k == 0 then 0 else k - 1);
      if !Bit(b, d) {
        assert (b + Pow2(d)) / 2 == b / 2 + Pow2(d - 1);
        assert (b + Pow2(d)) % 2 == b % 2;
      }
    }
  }

  lemma WordIsPow2()
    ensures Pow2(64) == WORD
  {
    Square(4, 16);
    Square(8, 256);
    Square(16, 65536);
    Square(32, 0x1_0000_0000);
  }

  lemma Square(n: nat, v: nat)
    requires Pow2(n) == v
    ensures Pow2(2 * n) == v * v
  {
    Pow2Sum(n, n);
  }

  lemma {:induction false} Pow2Sum(a: nat, b: nat)
    ensures Pow2(a + b) == Pow2(a) * Pow2(b)
  {
    if a > 0 {
      Pow2Sum(a - 1, b);
      assert Pow2(a) * Pow2(b) == 2 * (Pow2(a - 1) * Pow2(b));
    }
  }

  lemma {:induction false} BelowPow2(b: nat, m: nat, d: nat)
    requires b < Pow2(m) && d < m && !Bit(b, d)
    ensures b + Pow2(d) < Pow2(m)
  {
    if d > 0 {
      BelowPow2(b / 2, m - 1, d - 1);
      assert b + Pow2(d) < 2 * (b / 2 + Pow2(d - 1)) + 2;
    }
  }

  lemma {:induction false} NoBits(d: nat)
    ensures !Bit(0, d)
    ensures Bit(1, d) <==> d == 0
  {
    if d > 0 { NoBits(d - 1); }
  }

  /** Halving commutes with truncation. */
  lemma HalfOfRest(b: nat, p: nat)
    requires p > 0
    ensures (b % (2 * p)) / 2 == (b / 2) % p && (b % (2 * p)) % 2 == b % 2
  {
    var q, r := b / (2 * p), b % (2 * p);
    var m := p * q;
    assert b == 2 * m + r by { assert b == (2 * p) * q + r; assert (2 * p) * q == 2 * m; }
    assert b / 2 == m + r / 2 && r / 2 < p;
    ModUnique(b / 2, p, q, r / 2);
  }

  /** Truncation to `m` bits keeps the bits below `m`. */
  lemma {:induction false} TruncateKeeps(b: nat, m: nat, k: nat)
    requires k < m
    ensures Bit(b % Pow2(m), k) <==> Bit(b, k)
  {
    HalfOfRest(b, Pow2(m - 1));
    if k > 0 { TruncateKeeps(b / 2, m - 1, k - 1); }
  }

  lemma ModUnique(x: nat, p: nat, q: nat, r: nat)
    requires p > 0 && x == p * q + r && r < p
    ensures x % p == r
  {
    var k := q - x / p;
    assert x == p * (x / p) + x % p;
    assert p * k == p * q - p * (x / p);
    if k > 0 { Multiple(p, k); }
    if k < 0 { Multiple(p, -k); }
  }

  lemma {:induction false} Multiple(p: int, k: int)
    requires p >= 0 && k > 0
    ensures p * k >= p
    ensures p * -k <= -p
  {
    if k > 1 {
      Multiple(p, k - 1);
      assert p * k == p * (k - 1) + p;
    }
  }

  lemma {:induction false} MultiplyMovesBits(b: nat, n: nat, k: nat)
    ensures Bit(b * Pow2(n), k) <==> n <= k && Bit(b, k - n)
  {
    if n > 0 {
      assert b * Pow2(n) == 2 * (b * Pow2(n - 1));
      if k > 0 { MultiplyMovesBits(b, n - 1, k - 1); }
    }
  }

  lemma ShiftMovesBits(b: nat, n: nat, k: nat)
    requires k < 64
    ensures Bit(ShiftLeft(b, n), k) <==> n <= k && Bit(b, k - n)
  {
    WordIsPow2();
    TruncateKeeps(b * Pow2(n), 64, k);
    MultiplyMovesBits(b, n, k);
  }

  lemma SetBitFits(b: nat, d: nat)
    requires b < WORD && d < 64
    ensures SetBit(b, d) < WORD
  {
    WordIsPow2();
    if !Bit(b, d) { BelowPow2(b, 64, d); }
  }

  // ---- the window refines the set of accepted numbers

  /** The window `w` remembers exactly what it must of the accepted numbers `seen`. */
  ghost predicate Tracks(w: Window, seen: set<nat>) {
    && w.Valid()
    && (forall x :: x in seen ==> 0 < x <= w.highest)
    && (w.highest > 0 ==> w.highest in seen)
    && (forall d: nat :: d < 64 ==> (Bit(w.bits, d) <==> d <= w.highest && w.highest - d in seen))
  }

  /** A number is fresh when it is non-zero, never accepted, and above or less than 64 below the highest. */
  ghost predicate Fresh(w: Window, seen: set<nat>, sequence: Word) {
    sequence != 0 && sequence !in seen && sequence + 64 > w.highest
  }

  lemma NothingSeen()
    ensures Tracks(EMPTY, {})
  {
    forall d: nat | d < 64 ensures !Bit(0, d) { NoBits(d); }
  }

  lemma AcceptRefinesSet(w: Window, seen: set<nat>, sequence: Word)
    requires Tracks(w, seen)
    ensures Admit(w, sequence).1 <==> Fresh(w, seen, sequence)
    ensures !Admit(w, sequence).1 ==> Admit(w, sequence).0 == w
    ensures Tracks(Admit(w, sequence).0, if Admit(w, sequence).1 then seen + {sequence} else seen)
  {
    var (v, ok) := Admit(w, sequence);
    if ok {
      var after := seen + {sequence};
      if sequence > w.highest {
        var shift := sequence - w.highest;
        if shift < 64 { SetBitFits(ShiftLeft(w.bits, shift), 0); }
        forall d: nat | d < 64 ensures Bit(v.bits, d) <==> d <= v.highest && v.highest - d in after {
          if shift >= 64 {
            NoBits(d);
          } else {
            SetBitIsOr(ShiftLeft(w.bits, shift), 0, d);
            ShiftMovesBits(w.bits, shift, d);
          }
        }
      } else {
        var distance := w.highest - sequence;
        SetBitFits(w.bits, distance);
        forall d: nat | d < 64 ensures Bit(v.bits, d) <==> d <= v.highest && v.highest - d in after {
          SetBitIsOr(w.bits, distance, d);
        }
      }
    }
  }

  // ---- whole runs

  /** The window and the accepted numbers after the arrivals `xs`, starting from an empty window. */
  function After(xs: seq<Word>): (Window, set<nat>) {
    if xs == [] then (EMPTY, {})
    else
      var (w, seen) := After(xs[..|xs| - 1]);
      var (v, ok) := Admit(w, xs[|xs| - 1]);
      (v, if ok then seen + {xs[|xs| - 1]} else seen)
  }

  /** Was arrival `i` of the run accepted? */
  predicate Accepted(xs: seq<Word>, i: nat)
    requires i < |xs|
  {
    Admit(After(xs[..i]).0, xs[i]).1
  }

  lemma {:induction false} RunTracks(xs: seq<Word>)
    ensures Tracks(After(xs).0, After(xs).1)
  {
    if xs == [] {
      NothingSeen();
    } else {
      RunTracks(xs[..|xs| - 1]);
      var (w, seen) := After(xs[..|xs| - 1]);
      AcceptRefinesSet(w, seen, xs[|xs| - 1]);
    }
  }

  lemma {:induction false} SeenIsAccepted(xs: seq<Word>, x: nat)
    ensures x in After(xs).1 <==> exists i: nat :: i < |xs| && xs[i] == x && Accepted(xs, i)
  {
    if xs != [] {
      var n := |xs| - 1;
      SeenIsAccepted(xs[..n], x);
      forall i: nat | i < n ensures Accepted(xs[..n], i) == Accepted(xs, i) && xs[..n][i] == xs[i] {
        assert xs[..n][..i] == xs[..i];
      }
    }
  }

  /**
   * In every run an arrival is accepted exactly when it is non-zero, no equal number was accepted before it,
   * and it is above, or less than 64 below, every number accepted before it.
   */
  lemma RunAcceptsExactly(xs: seq<Word>, i: nat)
    requires i < |xs|
    ensures Accepted(xs, i) <==>
      && xs[i] != 0
      && forall j: nat :: j < i && Accepted(xs, j) ==> xs[j] != xs[i] && xs[j] as int < xs[i] as int + 64
  {
    var (w, seen) := After(xs[..i]);
    RunTracks(xs[..i]);
    AcceptRefinesSet(w, seen, xs[i]);
    forall j: nat | j < i ensures Accepted(xs[..i], j) == Accepted(xs, j) && xs[..i][j] == xs[j] {
      assert xs[..i][..j] == xs[..j];
    }
    forall x: nat
      ensures x in seen <==> exists j: nat :: j < i && xs[j] == x && Accepted(xs, j)
    {
      SeenIsAccepted(xs[..i], x);
    }
    if w.highest > 0 {
      var j: nat :| j < i && xs[j] == w.highest && Accepted(xs, j);
    }
    forall j: nat | j < i && Accepted(xs, j) ensures xs[j] in seen {}
  }

  /** The window as the connection holds it. */
  class Replay {
    var highest: nat
    var bits: nat
    ghost var seen: set<nat>

    ghost predicate Valid()
      reads this
    {
      Tracks(Window(highest, bits), seen)
    }

    constructor ()
      ensures Valid() && seen == {}
    {
      highest, bits, seen := 0, 0, {};
      NothingSeen();
    }

    method Accept(sequence: Word) returns (ok: bool)
      requires Valid()
      modifies this
      ensures Valid()
      ensures ok <==> Fresh(old(Window(highest, bits)), old(seen), sequence)
      ensures (Window(highest, bits), ok) == Admit(old(Window(highest, bits)), sequence)
      ensures seen == if ok then old(seen) + {sequence} else old(seen)
    {
      AcceptRefinesSet(Window(highest, bits), seen, sequence);
      if sequence == 0 { return false; }
      if sequence > highest {
        var shift := sequence - highest;
        bits := if shift >= 64 then 1 else SetBit(ShiftLeft(bits, shift), 0);
        highest := sequence;
        seen := seen + {sequence};
        return true;
      }
      var distance := highest - sequence;
      if distance >= 64 || Bit(bits, distance) { return false; }
      bits := SetBit(bits, distance);
      seen := seen + {sequence};
      return true;
    }
  }
}

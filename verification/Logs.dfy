/** Log segments under a byte budget: rotation, eviction of the oldest, and restart. */
module Logs {
  /** The longest record that is kept as it is. */
  const LONGEST: nat := 8 * 1024 * 1024

  type Line = string

  /** A segment on disk. Its file name carries the number, so a sorted listing is in order of numbers. */
  datatype Segment = Segment(number: nat, lines: seq<Line>)

  /** What the logger remembers of a segment. */
  datatype Entry = Entry(number: nat, size: nat)

  /** A line with its line break. */
  function Length(line: Line): nat {
    |line| + 1
  }

  function Size(lines: seq<Line>): nat {
    if lines == [] then 0 else Size(lines[..|lines| - 1]) + Length(lines[|lines| - 1])
  }

  function Sum(files: seq<Entry>): nat {
    if files == [] then 0 else files[0].size + Sum(files[1..])
  }

  function Contents(dir: seq<Segment>): seq<Line> {
    if dir == [] then [] else dir[0].lines + Contents(dir[1..])
  }

  predicate Ascending(dir: seq<Segment>) {
    forall i, j :: 0 <= i < j < |dir| ==> dir[i].number < dir[j].number
  }

  predicate Matches(f: Entry, g: Segment) {
    f.number == g.number && f.size == Size(g.lines)
  }

  /** `files` are the segments of the directory with their sizes. */
  predicate Mirrors(files: seq<Entry>, dir: seq<Segment>) {
    |files| == |dir| && forall i :: 0 <= i < |dir| ==> Matches(files[i], dir[i])
  }

  predicate IsSuffix(a: seq<Line>, b: seq<Line>) {
    |a| <= |b| && b[|b| - |a|..] == a
  }

  /** A segment over the limit holds one record. */
  predicate Segmented(dir: seq<Segment>, limit: nat) {
    forall i :: 0 <= i < |dir| ==> Size(dir[i].lines) <= limit || |dir[i].lines| == 1
  }

  function Min(a: nat, b: nat): nat { if a <= b then a else b }

  // ---- facts

  lemma SumOfNone()
    ensures Sum([]) == 0
  {
  }

  lemma {:induction false} SumSnoc(files: seq<Entry>, f: Entry)
    ensures Sum(files + [f]) == Sum(files) + f.size
  {
    if files == [] {
      assert files + [f] == [f];
    } else {
      assert (files + [f])[1..] == files[1..] + [f];
      SumSnoc(files[1..], f);
    }
  }

  lemma {:induction false} ContentsSnoc(dir: seq<Segment>, g: Segment)
    ensures Contents(dir + [g]) == Contents(dir) + g.lines
  {
    if dir == [] {
      assert dir + [g] == [g];
    } else {
      assert (dir + [g])[1..] == dir[1..] + [g];
      ContentsSnoc(dir[1..], g);
    }
  }

  lemma SuffixWithout(a: seq<Line>, b: seq<Line>, stream: seq<Line>)
    requires IsSuffix(a + b, stream)
    ensures IsSuffix(b, stream)
  {
    assert b == (a + b)[|a|..];
  }

  lemma SuffixSnoc(a: seq<Line>, stream: seq<Line>, line: Line)
    requires IsSuffix(a, stream)
    ensures IsSuffix(a + [line], stream + [line])
  {
  }

  lemma LastIsSuffix(a: seq<Line>, line: Line)
    ensures IsSuffix([line], a + [line])
  {
  }

  lemma SizeSnoc(lines: seq<Line>, line: Line)
    ensures Size(lines + [line]) == Size(lines) + Length(line)
  {
    assert (lines + [line])[..|lines|] == lines;
  }

  /** The newest segment, with `line` written to it. */
  function Written(dir: seq<Segment>, line: Line): seq<Segment>
    requires dir != []
  {
    var last := dir[|dir| - 1];
    dir[|dir| - 1 := last.(lines := last.lines + [line])]
  }

  function Counted(files: seq<Entry>, line: Line): seq<Entry>
    requires files != []
  {
    var last := files[|files| - 1];
    files[|files| - 1 := last.(size := last.size + Length(line))]
  }

  lemma WrittenContents(dir: seq<Segment>, line: Line)
    requires dir != []
    ensures Contents(Written(dir, line)) == Contents(dir) + [line]
  {
    var front, last := dir[..|dir| - 1], dir[|dir| - 1];
    var grown := last.(lines := last.lines + [line]);
    assert dir == front + [last] && Written(dir, line) == front + [grown];
    ContentsSnoc(front, last);
    ContentsSnoc(front, grown);
  }

  lemma CountedSum(files: seq<Entry>, line: Line)
    requires files != []
    ensures Sum(Counted(files, line)) == Sum(files) + Length(line)
  {
    var front, last := files[..|files| - 1], files[|files| - 1];
    var grown := last.(size := last.size + Length(line));
    assert files == front + [last] && Counted(files, line) == front + [grown];
    SumSnoc(front, last);
    SumSnoc(front, grown);
  }

  lemma StillMirrors(files: seq<Entry>, dir: seq<Segment>, line: Line)
    requires Mirrors(files, dir) && dir != []
    ensures Mirrors(Counted(files, line), Written(dir, line))
  {
    SizeSnoc(dir[|dir| - 1].lines, line);
  }

  lemma MirrorsSize(files: seq<Entry>, dir: seq<Segment>)
    requires Mirrors(files, dir)
    ensures |files| == |dir|
    ensures dir != [] ==> files[|files| - 1].size == Size(dir[|dir| - 1].lines)
  {
  }

  lemma StillSegmented(dir: seq<Segment>, line: Line, limit: nat)
    requires Segmented(dir, limit) && dir != []
    requires var last := dir[|dir| - 1]; last.lines == [] || Size(last.lines) + Length(line) <= limit
    ensures Segmented(Written(dir, line), limit)
  {
    SizeSnoc(dir[|dir| - 1].lines, line);
  }

  lemma NewSegment(files: seq<Entry>, dir: seq<Segment>, n: nat, limit: nat)
    requires Ascending(dir) && Mirrors(files, dir) && Segmented(dir, limit) && forall i :: 0 <= i < |dir| ==> dir[i].number < n
    ensures Ascending(dir + [Segment(n, [])]) && Mirrors(files + [Entry(n, 0)], dir + [Segment(n, [])])
    ensures Segmented(dir + [Segment(n, [])], limit)
    ensures Sum(files + [Entry(n, 0)]) == Sum(files) && Contents(dir + [Segment(n, [])]) == Contents(dir)
  {
    hide Sum, Contents;
    ContentsSnoc(dir, Segment(n, []));
    SumSnoc(files, Entry(n, 0));
    assert Matches(Entry(n, 0), Segment(n, []));
  }

  // ---- the logger

  class Logger {
    const max: nat
    const fileMax: nat
    /** The directory, in order of file names. */
    var dir: seq<Segment>
    var files: seq<Entry>
    var total: nat
    var number: nat
    var open: bool
    /** Every record ever accepted, in order. */
    ghost var stream: seq<Line>

    /** What holds at every moment, even while room is being made. */
    ghost predicate Sound()
      reads this
    {
      && Ascending(dir) && Mirrors(files, dir) && total == Sum(files)
      && (forall i :: 0 <= i < |dir| ==> dir[i].number <= number)
      && (open ==> files != [])
      && IsSuffix(Contents(dir), stream)
      && Segmented(dir, Min(fileMax, max))
    }

    ghost predicate Valid()
      reads this
    {
      Sound() && total <= max
    }

    /**
     * `Logger::new`: a logger over whatever an earlier process left. Nothing is reopened, and only as many old
     * segments as the budget asks for are removed.
     */
    constructor (dir: seq<Segment>, max: nat, fileMax: nat, ghost stream: seq<Line>)
      requires Ascending(dir) && Segmented(dir, Min(fileMax, max)) && IsSuffix(Contents(dir), stream)
      ensures Valid() && this.max == max && this.fileMax == fileMax && this.stream == stream && !open
      ensures exists k :: 0 <= k <= |dir| && this.dir == dir[k..]
    {
      this.max, this.fileMax, this.dir, this.stream := max, fileMax, dir, stream;
      files, total, number, open := [], 0, 0, false;
      new;
      files, total, number := Survey(dir);
      ghost var k := MakeRoom(0);
    }

    /** The segments found with their sizes, the total, and the highest number. */
    static method Survey(dir: seq<Segment>) returns (files: seq<Entry>, total: nat, number: nat)
      ensures Mirrors(files, dir) && total == Sum(files) && forall k :: 0 <= k < |dir| ==> dir[k].number <= number
    {
      hide Size, Sum;
      files, total, number := [], 0, 0;
      SumOfNone();
      for i := 0 to |dir|
        invariant Mirrors(files, dir[..i]) && total == Sum(files)
        invariant forall k :: 0 <= k < i ==> dir[k].number <= number
      {
        var f := Entry(dir[i].number, Size(dir[i].lines));
        SumSnoc(files, f);
        files := files + [f];
        total := total + f.size;
        if dir[i].number > number { number := dir[i].number; }
      }
      assert dir[..|dir|] == dir;
    }

    /** Forgets and deletes the oldest segment. */
    method Evict()
      requires Sound() && files != []
      modifies this`dir, this`files, this`total, this`open
      ensures Sound() && files == old(files)[1..] && dir == old(dir)[1..] && (open ==> old(open))
    {
      SuffixWithout(dir[0].lines, Contents(dir[1..]), stream);
      var oldest := files[0];
      files := files[1..];
      if files == [] { open := false; }
      dir := dir[1..];
      total := total - oldest.size;
    }

    /** `room`: removes the oldest segments until `n` more bytes fit, and not one more than that. */
    method MakeRoom(n: nat) returns (ghost k: nat)
      requires Sound() && n <= max
      modifies this`dir, this`files, this`total, this`open
      ensures Sound() && total + n <= max
      ensures open ==> old(open) && old(files) != [] && files[|files| - 1] == old(files)[|old(files)| - 1]
      ensures k <= |old(files)| && files == old(files)[k..] && dir == old(dir)[k..]
      ensures (k > 0 ==> Sum(old(files)[k - 1..]) + n > max)
    {
      k := 0;
      assert files == old(files)[0..] && dir == old(dir)[0..];
      while total + n > max && files != []
        invariant Sound() && (open ==> old(open))
        invariant k <= |old(files)| && files == old(files)[k..] && dir == old(dir)[k..]
        invariant (k > 0 ==> Sum(old(files)[k - 1..]) + n > max)
        decreases |files|
      {
        Evict();
        k := k + 1;
      }
    }

    /** What becomes of a record that is too long: a short notice in its place, or nothing. */
    function Accepted(line: Line, notice: Line): seq<Line>
      reads this
    {
      var kept := if Length(line) > max || Length(line) > LONGEST then notice else line;
      if Length(kept) > max then [] else [kept]
    }

    /** Starts a new segment. */
    method Begin()
      requires Sound() && !open
      modifies this`dir, this`files, this`number, this`open
      ensures Sound() && open && dir == old(dir) + [Segment(number, [])] && files == old(files) + [Entry(number, 0)]
    {
      hide Sum, Contents, Mirrors, Ascending, Segmented, IsSuffix;
      number := number + 1;
      NewSegment(files, dir, number, Min(fileMax, max));
      dir := dir + [Segment(number, [])];
      files := files + [Entry(number, 0)];
      open := true;
    }

    /** Writes the record to the open segment. */
    method Append(record: Line)
      requires Sound() && open
      requires var last := dir[|dir| - 1]; last.lines == [] || Size(last.lines) + Length(record) <= Min(fileMax, max)
      modifies this`dir, this`files, this`total, this`stream
      ensures Sound() && total == old(total) + Length(record) && stream == old(stream) + [record]
      ensures Contents(dir) == old(Contents(dir)) + [record]
    {
      hide Sum, Contents, Size, Segmented, Mirrors, IsSuffix;
      assert |files| == |dir| && files != [] by { MirrorsSize(files, dir); }
      SuffixSnoc(Contents(dir), stream, record);
      WrittenContents(dir, record);
      CountedSum(files, record);
      StillMirrors(files, dir, record);
      StillSegmented(dir, record, Min(fileMax, max));
      var last, segment := files[|files| - 1], dir[|dir| - 1];
      dir := dir[|dir| - 1 := segment.(lines := segment.lines + [record])];
      files := files[|files| - 1 := last.(size := last.size + Length(record))];
      total := total + Length(record);
      stream := stream + [record];
    }

    /**
     * `write`: the record goes, whole, to the end of the newest segment or of a new one. The retained segments are
     * the newest part of everything accepted, this record included, within the budget.
     */
    method Write(line: Line, notice: Line)
      requires Valid()
      modifies this
      ensures Valid() && stream == old(stream) + old(Accepted(line, notice))
      ensures old(Accepted(line, notice)) == [] ==> dir == old(dir)
      ensures old(Accepted(line, notice)) != [] ==> IsSuffix(old(Accepted(line, notice)), Contents(dir))
    {
      hide Sum, Contents, Sound, IsSuffix;
      var record := line;
      if Length(record) > max || Length(record) > LONGEST { record := notice; }
      if Length(record) > max { return; }
      Put(record);
    }

    /** A record within the budget goes to the open segment if it fits there, else to a new one. */
    method Put(record: Line)
      requires Valid() && Length(record) <= max
      modifies this
      ensures Valid() && stream == old(stream) + [record] && IsSuffix([record], Contents(dir))
    {
      hide Sum, Contents, Ascending, Segmented, Mirrors, Size, IsSuffix;
      if open && files[|files| - 1].size + Length(record) > Min(fileMax, max) { open := false; }
      ghost var k := MakeRoom(Length(record));
      MirrorsSize(files, dir);
      if !open { Begin(); }
      LastIsSuffix(Contents(dir), record);
      Append(record);
    }
  }
}

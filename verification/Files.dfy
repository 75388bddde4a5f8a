/** Room files: their layout, and how they are replaced so that a crash leaves a whole one. */
module Files {
  import opened Model
  import Bytes

  // ---- layout

  /** The longest header that a room file may have. */
  const LONGEST: nat := 1024 * 1024

  /** A way to write headers as bytes. */
  datatype Codec = Codec(encode: World -> seq<byte>, decode: seq<byte> -> Option<World>)

  /** Does the codec read back the header of `w`? The body is stored beside it. */
  predicate Reads(c: Codec, w: World) {
    c.decode(c.encode(w)) == Some(w.(state := []))
  }

  /** `Store::save`: the header's length in four bytes, which wraps, then header and body. */
  function Write(c: Codec, w: World): seq<byte> {
    var h := c.encode(w);
    Bytes.BigEndian(|h| % 0x1_0000_0000, 4) + h + w.state
  }

  /** `Store::load`. */
  function Read(c: Codec, file: seq<byte>): Option<World> {
    if |file| < 4 then None
    else
      var n := Bytes.Value(file[..4]);
      if n > LONGEST || 4 + n > |file| then None
      else
        var w := c.decode(file[4..4 + n]);
        if w.None? then None else Some(w.value.(state := file[4 + n..]))
  }

  /** A world comes back from its file exactly when its header is at most a mebibyte long. */
  lemma FileRoundTrip(c: Codec, w: World)
    requires Reads(c, w) && |c.encode(w)| < 0x1_0000_0000
    ensures Read(c, Write(c, w)) == (if |c.encode(w)| <= LONGEST then Some(w) else None)
    ensures Read(c, Write(c, w)) == Some(w) <==> |c.encode(w)| <= LONGEST
  {
    var h, file := c.encode(w), Write(c, w);
    Bytes.FourBytes();
    Bytes.ValueOfBigEndian(|h|, 4);
    assert file[..4] == Bytes.BigEndian(|h|, 4);
    if |h| <= LONGEST {
      assert file[4..4 + |h|] == h && file[4 + |h|..] == w.state;
    }
  }

  // ---- replacing a file

  type Path = nat

  /** A file as the operating system holds it: what has not been synced may be lost or torn by a crash. */
  datatype Content = Content(data: seq<byte>, synced: bool)

  type Disk = map<Path, Content>

  datatype Op =
    | Truncate(path: Path)
    | Append(path: Path, bytes: seq<byte>)
    | Sync(path: Path)
    | Rename(source: Path, target: Path)

  function Do(d: Disk, op: Op): Disk {
    match op
    case Truncate(p) => d[p := Content([], false)]
    case Append(p, bytes) => if p in d then d[p := Content(d[p].data + bytes, false)] else d
    case Sync(p) => if p in d then d[p := d[p].(synced := true)] else d
    case Rename(a, b) => if a in d then (d - {a})[b := d[a]] else d
  }

  /** The disk after the first `k` operations. */
  function After(d: Disk, ops: seq<Op>, k: nat): Disk
    requires k <= |ops|
  {
    if k == 0 then d else Do(After(d, ops, k - 1), ops[k - 1])
  }

  function Appends(tmp: Path, parts: seq<seq<byte>>): seq<Op> {
    if parts == [] then [] else Appends(tmp, parts[..|parts| - 1]) + [Append(tmp, parts[|parts| - 1])]
  }

  function Joined(parts: seq<seq<byte>>): seq<byte> {
    if parts == [] then [] else Joined(parts[..|parts| - 1]) + parts[|parts| - 1]
  }

  /** `Store::atomic`: the operations that replace the file `path` by `parts` through `tmp`. */
  function Replace(tmp: Path, path: Path, parts: seq<seq<byte>>): seq<Op> {
    [Truncate(tmp)] + Appends(tmp, parts) + [Sync(tmp), Rename(tmp, path)]
  }

  /** A disk that a crash may leave of `d`: synced files are whole, others may hold anything. */
  ghost predicate Crashes(d: Disk, left: Disk) {
    left.Keys == d.Keys && forall p :: p in d && d[p].synced ==> left[p].data == d[p].data
  }

  lemma {:induction false} AppendsAre(tmp: Path, parts: seq<seq<byte>>)
    ensures |Appends(tmp, parts)| == |parts|
    ensures forall i :: 0 <= i < |parts| ==> Appends(tmp, parts)[i] == Append(tmp, parts[i])
  {
    if parts != [] { AppendsAre(tmp, parts[..|parts| - 1]); }
  }

  /** While the parts are written only `tmp` changes. */
  lemma {:induction false} Writing(d: Disk, tmp: Path, path: Path, parts: seq<seq<byte>>, k: nat)
    requires k <= |parts| + 1
    ensures |Replace(tmp, path, parts)| == |parts| + 3
    ensures var now := After(d, Replace(tmp, path, parts), k);
      && (forall p :: p != tmp ==> (p in now <==> p in d) && (p in d ==> now[p] == d[p]))
      && (k > 0 ==> tmp in now && now[tmp].data == Joined(parts[..k - 1]))
  {
    AppendsAre(tmp, parts);
    if k > 1 {
      Writing(d, tmp, path, parts, k - 1);
      assert Replace(tmp, path, parts)[k - 1] == Append(tmp, parts[k - 2]);
      assert parts[..k - 1][..k - 2] == parts[..k - 2];
    }
  }

  /**
   * Crash safety: after any number of the operations, and whatever a crash then makes of unsynced data, the file
   * is the old one, complete, or the new one, complete; and no third file is touched.
   */
  lemma CrashLeavesWholeFile(d: Disk, tmp: Path, path: Path, parts: seq<seq<byte>>, k: nat, left: Disk)
    requires tmp != path && k <= |Replace(tmp, path, parts)|
    requires forall p :: p in d && p != tmp ==> d[p].synced
    requires Crashes(After(d, Replace(tmp, path, parts), k), left)
    ensures if k < |Replace(tmp, path, parts)| then
              (path in left <==> path in d) && (path in d ==> left[path].data == d[path].data)
            else path in left && left[path].data == Joined(parts)
    ensures forall p :: p != path && p != tmp ==> (p in left <==> p in d) && (p in d ==> left[p].data == d[p].data)
  {
    var ops, n := Replace(tmp, path, parts), |parts|;
    AppendsAre(tmp, parts);
    if k <= n + 1 {
      Writing(d, tmp, path, parts, k);
    } else {
      Writing(d, tmp, path, parts, n + 1);
      assert ops[n + 1] == Sync(tmp) && ops[n + 2] == Rename(tmp, path);
      assert parts[..n] == parts;
      assert After(d, ops, n + 2) == Do(After(d, ops, n + 1), ops[n + 1]);
      if k == n + 3 { assert After(d, ops, k) == Do(After(d, ops, n + 2), ops[n + 2]); }
    }
  }

  /** Without the sync the new file could be torn. */
  lemma SyncMatters(tmp: Path, path: Path) returns (d: Disk, left: Disk)
    requires tmp != path
    ensures forall p :: p in d ==> d[p].synced
    ensures var ops := [Truncate(tmp), Append(tmp, [1, 2]), Rename(tmp, path)];
      && Crashes(After(d, ops, 3), left) && path in left && path in d
      && left[path].data != d[path].data && left[path].data != Joined([[1, 2]])
  {
    d, left := map[path := Content([7], true)], map[path := Content([1], false)];
    var ops := [Truncate(tmp), Append(tmp, [1, 2]), Rename(tmp, path)];
    assert After(d, ops, 1) == Do(d, ops[0]);
    assert After(d, ops, 2) == Do(After(d, ops, 1), ops[1]);
    assert After(d, ops, 3) == Do(After(d, ops, 2), ops[2]);
    assert [[1, 2]][..0] == [] && Joined([[1, 2]]) == [] + [1, 2];
  }
}

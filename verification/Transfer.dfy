/** Uploading a state in chunks and downloading it again: together, the identity. */
module Transfer {
  import opened Model
  import opened Sessions
  import Bytes

  const CHUNK: nat := 32000

  /** The settings allow at most this much for one session. */
  const SESSION_LIMIT: nat := 2147483647

  // ---- upload

  /** A binary frame that carries `chunk` for the upload `request`. */
  function ChunkFrame(request: Id, offset: nat, chunk: seq<byte>): seq<byte> {
    [2] + Bytes.BigEndian(request, 16) + Bytes.BigEndian(offset, 4) + chunk
  }

  function Joined(chunks: seq<seq<byte>>): seq<byte> {
    if chunks == [] then [] else Joined(chunks[..|chunks| - 1]) + chunks[|chunks| - 1]
  }

  /** The room and the last reply after the frames of `chunks` came in, at times `times`. */
  function Fed(r: Room, p: Id, request: Id, chunks: seq<seq<byte>>, times: seq<nat>): (Room, Reply)
    requires |times| == |chunks|
  {
    if chunks == [] then (r, Offset(0))
    else
      var n := |chunks| - 1;
      Chunk(Fed(r, p, request, chunks[..n], times[..n]).0, p, ChunkFrame(request, |Joined(chunks[..n])|, chunks[n]), times[n])
  }

  /** The room `r` with an upload of `size` bytes, of which `done` have come. */
  ghost predicate Receiving(r: Room, after: Room, p: Id, request: Id, size: nat, done: seq<byte>) {
    && after == r.(upload := after.upload)
    && after.upload.Some?
    && (var u := after.upload.value;
        && u.id == request && u.owner == p && u.generation == r.generation && u.revision == r.revision
        && |u.bytes| == size && u.offset == |done| <= size && u.bytes[..|done|] == done)
  }

  lemma FrameParts(request: Id, offset: nat, chunk: seq<byte>)
    requires request < Bytes.Power(16) && offset < Bytes.Power(4)
    ensures var b := ChunkFrame(request, offset, chunk);
      |b| == 21 + |chunk| && b[0] == 2 && Bytes.Value(b[1..17]) == request && Bytes.Value(b[17..21]) == offset && b[21..] == chunk
  {
    var b := ChunkFrame(request, offset, chunk);
    assert b[1..17] == Bytes.BigEndian(request, 16) && b[17..21] == Bytes.BigEndian(offset, 4);
    Bytes.ValueOfBigEndian(request, 16);
    Bytes.ValueOfBigEndian(offset, 4);
  }

  /** One more chunk. */
  lemma ChunkReceived(r: Room, before: Room, p: Id, request: Id, size: nat, done: seq<byte>, chunk: seq<byte>, now: nat)
    requires Receiving(r, before, p, request, size, done) && r.owner == p
    requires chunk != [] && |done| + |chunk| <= size < Bytes.Power(4) && request < Bytes.Power(16)
    ensures var (after, reply) := Chunk(before, p, ChunkFrame(request, |done|, chunk), now);
      Receiving(r, after, p, request, size, done + chunk) && reply == Offset(|done| + |chunk|)
  {
    var b := ChunkFrame(request, |done|, chunk);
    FrameParts(request, |done|, chunk);
    ChunkFills(r, before, p, request, size, done, chunk, b, now);
  }

  /** The bytes after a chunk whose frame `b` says what it should. */
  lemma ChunkFills(r: Room, before: Room, p: Id, request: Id, size: nat, done: seq<byte>, chunk: seq<byte>,
          b: seq<byte>, now: nat)
    requires Receiving(r, before, p, request, size, done) && r.owner == p && chunk != [] && |done| + |chunk| <= size
    requires |b| == 21 + |chunk| && Bytes.Value(b[1..17]) == request && Bytes.Value(b[17..21]) == |done|
    requires b[21..] == chunk
    ensures var (after, reply) := Chunk(before, p, b, now);
      Receiving(r, after, p, request, size, done + chunk) && reply == Offset(|done| + |chunk|)
  {
    hide Bytes.Value;
    var after := Chunk(before, p, b, now).0;
    assert after.upload.value.bytes[..|done| + |chunk|] == done + chunk;
  }

  lemma {:induction false} JoinedPrefix(chunks: seq<seq<byte>>, n: nat)
    requires n <= |chunks|
    ensures |Joined(chunks[..n])| <= |Joined(chunks)|
  {
    if n < |chunks| {
      JoinedPrefix(chunks[..|chunks| - 1], n);
      assert chunks[..|chunks| - 1][..n] == chunks[..n];
    } else {
      assert chunks[..n] == chunks;
    }
  }

  lemma {:induction false} UploadFills(cfg: Config, r: Room, p: Id, request: Id, size: nat, chunks: seq<seq<byte>>,
          times: seq<nat>, start: nat)
    requires |times| == |chunks| && r.persistent && r.owner == p && size <= cfg.maxSession && size < Bytes.Power(4)
    requires request < Bytes.Power(16)
    requires forall i :: 0 <= i < |chunks| ==> chunks[i] != []
    requires |Joined(chunks)| <= size
    ensures var begun := Begin(cfg, r, p, request, r.revision, r.generation, size, start).0;
      && Receiving(r, Fed(begun, p, request, chunks, times).0, p, request, size, Joined(chunks))
      && Fed(begun, p, request, chunks, times).1 == Offset(|Joined(chunks)|)
  {
    hide Chunk, Receiving;
    var begun := Begin(cfg, r, p, request, r.revision, r.generation, size, start).0;
    if chunks == [] {
      BegunReceives(cfg, r, p, request, size, start);
    } else {
      var n := |chunks| - 1;
      JoinedPrefix(chunks, n);
      UploadFills(cfg, r, p, request, size, chunks[..n], times[..n], start);
      ChunkReceived(r, Fed(begun, p, request, chunks[..n], times[..n]).0, p, request, size, Joined(chunks[..n]), chunks[n], times[n]);
    }
  }

  lemma BegunReceives(cfg: Config, r: Room, p: Id, request: Id, size: nat, start: nat)
    requires r.persistent && r.owner == p && size <= cfg.maxSession
    ensures Receiving(r, Begin(cfg, r, p, request, r.revision, r.generation, size, start).0, p, request, size, [])
  {
  }

  /**
   * However a byte string is split into non-empty chunks, beginning an upload of its length, sending the chunks in
   * order and committing installs exactly that string and raises the revision by one.
   */
  lemma UploadStores(cfg: Config, r: Room, p: Id, request: Id, chunks: seq<seq<byte>>, times: seq<nat>, start: nat,
                     scheduled: Option<Notice>, immediate: Option<Notice>, now: nat)
    requires |times| == |chunks| && r.persistent && r.owner == p && request < Bytes.Power(16)
    requires |Joined(chunks)| <= cfg.maxSession <= SESSION_LIMIT
    requires forall i :: 0 <= i < |chunks| ==> chunks[i] != []
    requires Addressed(r, scheduled) && Addressed(r, immediate)
    ensures var begun := Begin(cfg, r, p, request, r.revision, r.generation, |Joined(chunks)|, start).0;
      var full := Fed(begun, p, request, chunks, times).0;
      var (after, reply) := Commit(full, p, request, scheduled, immediate, true, now);
      && reply == Revision(r.revision + 1) && after.state == Joined(chunks) && after.revision == r.revision + 1
      && after.upload.None? && after.owner == r.owner && after.generation == r.generation && after.updated == now
      && after == r.(state := after.state, revision := after.revision, upload := None, updated := now, events := after.events)
  {
    hide Chunk, Begin, Commit, Receiving, Fed;
    Bytes.FourBytes();
    UploadFills(cfg, r, p, request, |Joined(chunks)|, chunks, times, start);
    var full := Fed(Begin(cfg, r, p, request, r.revision, r.generation, |Joined(chunks)|, start).0, p, request, chunks, times).0;
    FullIsCommitted(r, full, p, request, Joined(chunks), scheduled, immediate, now);
  }

  lemma FullyReceived(r: Room, after: Room, p: Id, request: Id, size: nat, done: seq<byte>)
    requires Receiving(r, after, p, request, size, done) && |done| == size && r.owner == p && r.persistent
    ensures Complete(after, p, request) && after.upload.value.bytes == done
  {
    assert after.upload.value.bytes[..size] == after.upload.value.bytes;
  }

  /** A full upload commits. */
  lemma FullIsCommitted(r: Room, full: Room, p: Id, request: Id, data: seq<byte>, scheduled: Option<Notice>,
          immediate: Option<Notice>, now: nat)
    requires Receiving(r, full, p, request, |data|, data) && r.owner == p && r.persistent
    requires Addressed(r, scheduled) && Addressed(r, immediate)
    ensures var (after, reply) := Commit(full, p, request, scheduled, immediate, true, now);
      && reply == Revision(r.revision + 1) && after.state == data && after.revision == r.revision + 1
      && after.upload.None? && after.owner == r.owner && after.generation == r.generation && after.updated == now
      && after == r.(state := after.state, revision := after.revision, upload := None, updated := now, events := after.events)
  {
    hide Remember;
    FullyReceived(r, full, p, request, |data|, data);
  }

  /** `Client::save` against the room: chunks of 32000 bytes, each acknowledged. */
  method Save(cfg: Config, room: Room, p: Id, request: Id, bytes: seq<byte>, scheduled: Option<Notice>,
          immediate: Option<Notice>, now: nat)
    returns (r: Room)
    requires room.persistent && room.owner == p && request < Bytes.Power(16)
    requires |bytes| <= cfg.maxSession <= SESSION_LIMIT
    requires Addressed(room, scheduled) && Addressed(room, immediate)
    ensures r.state == bytes && r.revision == room.revision + 1 && r.upload.None?
    ensures r == room.(state := bytes, revision := r.revision, upload := None, updated := now, events := r.events)
  {
    hide Sessions.Chunk, ChunkFrame, Receiving, Sessions.Commit, Sessions.Begin;
    Bytes.FourBytes();
    var reply: Reply;
    r, reply := Sessions.Begin(cfg, room, p, request, room.revision, room.generation, |bytes|, now).0, Silent;
    BegunReceives(cfg, room, p, request, |bytes|, now);
    var offset := 0;
    assert bytes[..0] == [];
    while offset < |bytes|
      invariant offset <= |bytes| && Receiving(room, r, p, request, |bytes|, bytes[..offset])
    {
      var end := if offset + CHUNK < |bytes| then offset + CHUNK else |bytes|;
      ChunkReceived(room, r, p, request, |bytes|, bytes[..offset], bytes[offset..end], now);
      assert bytes[..offset] + bytes[offset..end] == bytes[..end];
      var answer := Sessions.Chunk(r, p, ChunkFrame(request, offset, bytes[offset..end]), now);
      r, reply := answer.0, answer.1;
      assert reply == Offset(end);
      offset := end;
    }
    assert bytes[..offset] == bytes;
    FullIsCommitted(room, r, p, request, bytes, scheduled, immediate, now);
    r := Sessions.Commit(r, p, request, scheduled, immediate, true, now).0;
  }

  // ---- download

  function Min(a: nat, b: nat): nat { if a <= b then a else b }

  /** `getSession`: revision, generation and size. */
  function Advertised(r: Room): (nat, nat, nat) {
    (r.revision, r.generation, |r.state|)
  }

  /** `getSessionChunk`: the frame sent, or nothing when the request is stale. */
  function ServeChunk(cfg: Config, r: Room, request: Id, revision: nat, offset: nat): Option<seq<byte>> {
    if !r.persistent || revision != r.revision || offset >= |r.state| then None
    else
      var n := Min(Min(CHUNK, Minus(cfg.maxPayload, 21)), Min(Minus(cfg.maxBuffered, 31), |r.state| - offset));
      Some([3] + Bytes.BigEndian(request, 16) + Bytes.BigEndian(offset % 0x1_0000_0000, 4) + r.state[offset..offset + n])
  }

  /** Every chunk frame is inside both byte budgets, says where it belongs and holds the bytes from there on. */
  lemma ChunkFits(cfg: Config, r: Room, request: Id, offset: nat)
    requires r.persistent && offset < |r.state| <= SESSION_LIMIT && cfg.maxPayload > 21 && cfg.maxBuffered > 31
    ensures var frame := ServeChunk(cfg, r, request, r.revision, offset);
      && frame.Some? && cfg.Fits(|frame.value|) && 21 < |frame.value| <= 21 + CHUNK && frame.value[0] == 3
      && Bytes.Value(frame.value[17..21]) == offset
      && offset + |frame.value| - 21 <= |r.state| && frame.value[21..] == r.state[offset..offset + |frame.value| - 21]
  {
    var frame := ServeChunk(cfg, r, request, r.revision, offset).value;
    Bytes.FourBytes();
    assert frame[17..21] == Bytes.BigEndian(offset, 4);
    Bytes.ValueOfBigEndian(offset, 4);
  }

  /** `Client::load`: asks for the chunk after what it has until it has the advertised size. */
  method Load(cfg: Config, r: Room, request: Id) returns (bytes: seq<byte>)
    requires r.persistent && |r.state| <= SESSION_LIMIT && cfg.maxPayload > 21 && cfg.maxBuffered > 31
    ensures bytes == r.state
  {
    var (revision, generation, size) := Advertised(r);
    bytes := [];
    while |bytes| < size
      invariant |bytes| <= |r.state| && bytes == r.state[..|bytes|]
      decreases size - |bytes|
    {
      ChunkFits(cfg, r, request, |bytes|);
      var frame := ServeChunk(cfg, r, request, revision, |bytes|).value;
      assert Bytes.Value(frame[17..21]) == |bytes|;
      assert r.state[..|bytes|] + r.state[|bytes|..|bytes| + |frame| - 21] == r.state[..|bytes| + |frame| - 21];
      bytes := bytes + frame[21..];
    }
  }

  /** What a client saves another client loads. */
  method SaveThenLoad(cfg: Config, room: Room, p: Id, request: Id, bytes: seq<byte>, now: nat)
    returns (r: Room, back: seq<byte>)
    requires room.persistent && room.owner == p && request < Bytes.Power(16)
    requires |bytes| <= cfg.maxSession <= SESSION_LIMIT
    requires cfg.maxPayload > 21 && cfg.maxBuffered > 31
    ensures back == bytes && r.revision == room.revision + 1
  {
    r := Save(cfg, room, p, request, bytes, None, None, now);
    back := Load(cfg, r, request);
  }

  /** A budget of 21 payload bytes or 31 buffer bytes leaves no room for data: the download cannot progress. */
  lemma NoProgressBelowTheBudgets(cfg: Config, r: Room, request: Id, offset: nat)
    requires r.persistent && offset < |r.state|
    ensures ServeChunk(cfg, r, request, r.revision, offset).Some?
    ensures |ServeChunk(cfg, r, request, r.revision, offset).value| == 21 <==> cfg.maxPayload <= 21 || cfg.maxBuffered <= 31
  {
  }
}

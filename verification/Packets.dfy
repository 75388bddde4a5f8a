/** The datagram layout reads back what it writes, and only that. */
module Packets {
  import opened Model
  import opened Udp
  import AntiReplay
  import Bytes

  /** Widths of the fields on the wire. */
  predicate Narrow(p: Packet) {
    p.cid < Bytes.Power(8) && p.target < Bytes.Power(16)
  }

  function Write(cfg: Config, secret: seq<byte>, p: Packet): seq<byte> {
    Encode(cfg, secret, p.kind, p.cid, p.sequence, p.target, p.payload)
  }

  lemma PlainParts(p: Packet)
    ensures var b := Plain(p.kind, p.cid, p.sequence, p.target, p.payload);
      && |b| == HEADER + |p.payload| && b[..4] == MAGIC && b[4] == p.kind
      && b[5..13] == Bytes.BigEndian(p.cid, 8) && b[13..21] == Bytes.BigEndian(p.sequence, 8)
      && b[21..37] == Bytes.BigEndian(p.target, 16) && b[37..] == p.payload
  {
  }

  /** What is written under a key reads back field by field and verifies under that key. */
  lemma WrittenReadsBack(cfg: Config, secret: seq<byte>, p: Packet)
    requires Narrow(p) && |cfg.mac(secret, Plain(p.kind, p.cid, p.sequence, p.target, p.payload))| == TAG
    ensures var bytes := Write(cfg, secret, p);
      && |bytes| == HEADER + |p.payload| + TAG && bytes[..4] == MAGIC
      && Fields(bytes) == p && Signed(cfg, secret, bytes)
  {
    var plain, bytes := Plain(p.kind, p.cid, p.sequence, p.target, p.payload), Write(cfg, secret, p);
    PlainParts(p);
    assert bytes[..|bytes| - TAG] == plain;
    assert bytes[5..13] == plain[5..13] && bytes[13..21] == plain[13..21] && bytes[21..37] == plain[21..37];
    assert bytes[..4] == plain[..4];
    assert bytes[HEADER..|bytes| - TAG] == plain[HEADER..];
    Bytes.EightBytes();
    Bytes.ValueOfBigEndian(p.cid, 8);
    Bytes.ValueOfBigEndian(p.sequence, 8);
    Bytes.ValueOfBigEndian(p.target, 16);
  }

  /** A framed and rightly tagged datagram is the encoding of its own fields: nothing else passes. */
  lemma OnlyWrittenVerifies(cfg: Config, secret: seq<byte>, bytes: seq<byte>)
    requires Framed(cfg, bytes) && Signed(cfg, secret, bytes)
    ensures Narrow(Fields(bytes)) && Write(cfg, secret, Fields(bytes)) == bytes
  {
    hide Bytes.Value, Bytes.BigEndian, Plain;
    var p := Fields(bytes);
    var plain := Plain(p.kind, p.cid, p.sequence, p.target, p.payload);
    var front := bytes[..|bytes| - TAG];
    FieldsFit(bytes);
    PlainParts(p);
    Pieces(plain);
    Pieces(front);
    SameFront(bytes);
    assert plain == front;
  }

  lemma SameFront(bytes: seq<byte>)
    requires HEADER + TAG <= |bytes|
    ensures var front := bytes[..|bytes| - TAG];
      front[..4] == bytes[..4] && front[5..13] == bytes[5..13] && front[13..21] == bytes[13..21] && front[21..37] == bytes[21..37]
      && front[37..] == bytes[HEADER..|bytes| - TAG]
  {
  }

  lemma FieldsFit(bytes: seq<byte>)
    requires HEADER + TAG <= |bytes|
    ensures var p := Fields(bytes);
      && Narrow(p) && Bytes.BigEndian(p.cid, 8) == bytes[5..13] && Bytes.BigEndian(p.sequence, 8) == bytes[13..21]
      && Bytes.BigEndian(p.target, 16) == bytes[21..37]
  {
    hide Bytes.Value, Bytes.BigEndian, Bytes.Power;
    Bytes.BigEndianOfValue(bytes[5..13]);
    Bytes.BigEndianOfValue(bytes[13..21]);
    Bytes.BigEndianOfValue(bytes[21..37]);
  }

  lemma Pieces(b: seq<byte>)
    requires |b| >= HEADER
    ensures b == b[..4] + [b[4]] + b[5..13] + b[13..21] + b[21..37] + b[37..]
  {
  }
}

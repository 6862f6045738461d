/** The 28-byte heartbeat frame of src/heartbeat.h and src/heartbeat.cpp: its layout, the encoder
    that fills a buffer, the decoder that validates one, and the proof that the two are inverse
    bijections between valid messages and accepted buffers. */
module Heartbeat {
  import opened Crc32

  type uint16 = x: int | 0 <= x < 0x1_0000
  type uint32 = x: int | 0 <= x < 0x1_0000_0000
  type uint64 = x: int | 0 <= x < 0x1_0000_0000_0000_0000
  type int64 = x: int | -0x8000_0000_0000_0000 <= x < 0x8000_0000_0000_0000

  const MAGIC: uint16 := 0xFEED
  const VERSION: uint8 := 1
  const MESSAGE_SIZE: nat := 28
  const CRC_OFFSET: nat := 24

  const CONNECT_HELLO: uint8 := 1
  const CONNECT_ACK: uint8 := 2
  const PING: uint8 := 3
  const PONG: uint8 := 4
  const DISCONNECT: uint8 := 5

  datatype Option<+T> = None | Some(value: T)

  datatype HeartbeatMessage = HeartbeatMessage(
    magic: uint16,
    version: uint8,
    kind: uint8,
    feedId: uint32,
    sequence: uint64,
    timestampNs: int64,
    crc32: bv32)

  predicate IsKnownMessageType(kind: uint8) {
    kind == CONNECT_HELLO || kind == CONNECT_ACK || kind == PING || kind == PONG || kind == DISCONNECT
  }

  /** A message this protocol version may send. */
  predicate Valid(m: HeartbeatMessage) {
    m.magic == MAGIC && m.version == VERSION && IsKnownMessageType(m.kind)
  }

  // ---- Big-endian integers ----

  function Pow256(n: nat): (r: nat)
    ensures r > 0
  {
    if n == 0 then 1 else 256 * Pow256(n - 1)
  }

  function BigEndian(x: nat, n: nat): (r: seq<byte>)
    ensures |r| == n
  {
    seq(n, i requires 0 <= i < n => ToByte(x / Pow256(n - 1 - i) % 256))
  }

  /** Dividing by 256 first shifts the bytes down by one. */
  lemma DivideTwice(x: nat, p: nat)
    requires p > 0
    ensures x / (256 * p) == (x / 256) / p
  {
    var y, low := x / 256, x % 256;
    var q, rest := y / p, y % p;
    assert x == 256 * (p * q + rest) + low;
    assert 256 * rest + low < 256 * p;
    Quotient(x, 256 * p, q, 256 * rest + low);
  }

  lemma Quotient(x: nat, d: nat, q: nat, rest: nat)
    requires d > 0 && rest < d && x == d * q + rest
    ensures x / d == q
  {
    var k, r := x / d, x % d;
    assert x == d * k + r;
    if k > q {
      Scale(d, k, q + 1);
    } else if k < q {
      Scale(d, q, k + 1);
    }
  }

  lemma Scale(d: nat, a: nat, b: nat)
    requires a >= b
    ensures d * a >= d * b
    ensures d * (b + 1) == d * b + d && (b > 0 ==> d * b == d * (b - 1) + d)
  {}

  /** The last byte is the lowest. */
  lemma BigEndianStep(x: nat, n: nat)
    ensures BigEndian(x, 0) == []
    ensures n > 0 ==> BigEndian(x, n) == BigEndian(x / 256, n - 1) + [ToByte(x % 256)]
  {
    hide ToByte;
    if n > 0 {
      forall i | 0 <= i < n
        ensures BigEndian(x, n)[i] == (BigEndian(x / 256, n - 1) + [ToByte(x % 256)])[i]
      {
        if i < n - 1 {
          var p := Pow256(n - 2 - i);
          assert Pow256(n - 1 - i) == 256 * p;
          DivideTwice(x, p);
          assert BigEndian(x, n)[i] == ToByte(x / (256 * p) % 256);
          assert BigEndian(x / 256, n - 1)[i] == ToByte((x / 256) / p % 256);
        } else {
          assert n - 1 - i == 0 && Pow256(0) == 1;
          assert BigEndian(x, n)[i] == ToByte(x / Pow256(n - 1 - i) % 256);
          assert x / 1 == x;
        }
      }
    }
  }

  function FromBigEndian(s: seq<byte>): (r: nat)
    ensures r < Pow256(|s|)
    decreases |s|
  {
    if s == [] then 0 else 256 * FromBigEndian(s[..|s| - 1]) + FromByte(s[|s| - 1])
  }

  lemma {:induction false} BigEndianRoundTrip(x: nat, n: nat)
    requires x < Pow256(n)
    ensures FromBigEndian(BigEndian(x, n)) == x
    decreases n
  {
    hide ToByte;
    hide FromByte;
    BigEndianStep(x, n);
    hide BigEndian;
    if n > 0 {
      BigEndianRoundTrip(x / 256, n - 1);
      FromToByte(x % 256);
      assert BigEndian(x, n)[..n - 1] == BigEndian(x / 256, n - 1);
    }
  }

  lemma {:induction false} FromBigEndianRoundTrip(s: seq<byte>)
    ensures BigEndian(FromBigEndian(s), |s|) == s
    decreases |s|
  {
    hide ToByte;
    hide FromByte;
    BigEndianStep(FromBigEndian(s), |s|);
    hide BigEndian;
    if s != [] {
      var n := |s| - 1;
      FromBigEndianRoundTrip(s[..n]);
      var hi := FromBigEndian(s[..n]);
      var lo := FromByte(s[n]);
      assert (256 * hi + lo) / 256 == hi && (256 * hi + lo) % 256 == lo;
      ToFromByte(s[n]);
      assert s == s[..n] + [s[n]];
    }
  }

  lemma FieldWidths()
    ensures Pow256(2) == 0x1_0000
    ensures Pow256(4) == 0x1_0000_0000
    ensures Pow256(8) == 0x1_0000_0000_0000_0000
  {
    assert Pow256(2) == 256 * Pow256(1);
    assert Pow256(4) == 256 * Pow256(3) == 65536 * Pow256(2);
    assert Pow256(6) == 256 * Pow256(5) == 65536 * Pow256(4);
    assert Pow256(8) == 256 * Pow256(7) == 65536 * Pow256(6);
  }

  // ---- Two's complement timestamps and the checksum field ----

  function TimestampBits(t: int64): (r: uint64) {
    if t < 0 then t + 0x1_0000_0000_0000_0000 else t
  }

  function TimestampFromBits(u: uint64): (r: int64) {
    if u < 0x8000_0000_0000_0000 then u else u - 0x1_0000_0000_0000_0000
  }

  function CrcBytes(c: bv32): (r: seq<byte>)
    ensures |r| == 4
  {
    [((c >> 24) & 0xFF) as bv8, ((c >> 16) & 0xFF) as bv8, ((c >> 8) & 0xFF) as bv8, (c & 0xFF) as bv8]
  }

  function FromCrcBytes(s: seq<byte>): (r: bv32)
    requires |s| == 4
  {
    Word(s[0], s[1], s[2], s[3])
  }

  lemma CrcBytesRoundTrip(c: bv32)
    ensures FromCrcBytes(CrcBytes(c)) == c
  {}

  lemma FromCrcBytesRoundTrip(s: seq<byte>)
    requires |s| == 4
    ensures CrcBytes(FromCrcBytes(s)) == s
  {
    hide Word;
    WordHigh(s[0], s[1], s[2], s[3]);
    WordLow(s[0], s[1], s[2], s[3]);
  }

  function Word(a: byte, b: byte, c: byte, d: byte): (r: bv32) {
    ((a as bv32) << 24) | ((b as bv32) << 16) | ((c as bv32) << 8) | (d as bv32)
  }

  lemma WordHigh(a: byte, b: byte, c: byte, d: byte)
    ensures ((Word(a, b, c, d) >> 24) & 0xFF) as bv8 == a
    ensures ((Word(a, b, c, d) >> 16) & 0xFF) as bv8 == b
  {}

  lemma WordLow(a: byte, b: byte, c: byte, d: byte)
    ensures ((Word(a, b, c, d) >> 8) & 0xFF) as bv8 == c
    ensures (Word(a, b, c, d) & 0xFF) as bv8 == d
  {}

  // ---- The frame ----

  /** The 24 bytes the checksum covers. */
  function Payload(m: HeartbeatMessage): (r: seq<byte>)
    ensures |r| == CRC_OFFSET
  {
    BigEndian(m.magic, 2) + BigEndian(m.version, 1) + BigEndian(m.kind, 1)
    + BigEndian(m.feedId, 4) + BigEndian(m.sequence, 8) + BigEndian(TimestampBits(m.timestampNs), 8)
  }

  function Encode(m: HeartbeatMessage): (r: seq<byte>)
    ensures |r| == MESSAGE_SIZE
  {
    Payload(m) + CrcBytes(Checksum(Payload(m)))
  }

  /** `m` with its checksum field filled in, which is what a receiver sees. */
  function Sealed(m: HeartbeatMessage): (r: HeartbeatMessage) {
    m.(crc32 := Checksum(Payload(m)))
  }

  function Fields(b: seq<byte>): (r: HeartbeatMessage)
    requires |b| == MESSAGE_SIZE
  {
    FieldWidths();
    HeartbeatMessage(
      FromBigEndian(b[0..2]), FromByte(b[2]), FromByte(b[3]), FromBigEndian(b[4..8]),
      FromBigEndian(b[8..16]), TimestampFromBits(FromBigEndian(b[16..24])), FromCrcBytes(b[24..28]))
  }

  /** The four checks of the decoder, in its order. */
  function Decode(b: seq<byte>): (r: Option<HeartbeatMessage>)
    requires |b| == MESSAGE_SIZE
  {
    var m := Fields(b);
    if m.magic != MAGIC then None
    else if m.version != VERSION then None
    else if !IsKnownMessageType(m.kind) then None
    else if Checksum(b[..CRC_OFFSET]) != m.crc32 then None
    else Some(m)
  }

  lemma OneByte(x: uint8)
    ensures BigEndian(x, 1) == [ToByte(x)]
  {
    assert x % 256 == x;
    BigEndianStep(x, 1);
    BigEndianStep(x / 256, 0);
  }

  lemma FieldsOfEncode(m: HeartbeatMessage)
    ensures Fields(Encode(m)) == Sealed(m)
    ensures Encode(m)[..CRC_OFFSET] == Payload(m)
  {
    hide BigEndian;
    hide FromBigEndian;
    hide Checksum;
    hide FromByte;
    hide ToByte;
    hide CrcBytes;
    hide FromCrcBytes;
    FieldWidths();
    hide Pow256;
    var b := Encode(m);
    var t := TimestampBits(m.timestampNs);
    OneByte(m.version);
    OneByte(m.kind);
    FromToByte(m.version);
    FromToByte(m.kind);
    assert b[0..2] == BigEndian(m.magic, 2);
    assert b[2] == ToByte(m.version) && b[3] == ToByte(m.kind);
    assert b[4..8] == BigEndian(m.feedId, 4);
    assert b[8..16] == BigEndian(m.sequence, 8);
    assert b[16..24] == BigEndian(t, 8);
    assert b[24..28] == CrcBytes(Checksum(Payload(m)));
    BigEndianRoundTrip(m.magic, 2);
    BigEndianRoundTrip(m.feedId, 4);
    BigEndianRoundTrip(m.sequence, 8);
    BigEndianRoundTrip(t, 8);
    CrcBytesRoundTrip(Checksum(Payload(m)));
  }

  /** Decoding an encoding gives the message back, and succeeds exactly for the valid ones. */
  lemma DecodeEncode(m: HeartbeatMessage)
    ensures Decode(Encode(m)) == if Valid(m) then Some(Sealed(m)) else None
  {
    hide Fields;
    hide Encode;
    hide Payload;
    hide Checksum;
    FieldsOfEncode(m);
  }

  lemma PayloadOfFields(b: seq<byte>)
    requires |b| == MESSAGE_SIZE
    ensures Payload(Fields(b)) == b[..CRC_OFFSET]
  {
    hide BigEndian;
    hide FromBigEndian;
    hide FromByte;
    hide ToByte;
    hide FromCrcBytes;
    FieldWidths();
    hide Pow256;
    var m := Fields(b);
    OneByte(m.version);
    OneByte(m.kind);
    ToFromByte(b[2]);
    ToFromByte(b[3]);
    FromBigEndianRoundTrip(b[0..2]);
    FromBigEndianRoundTrip(b[4..8]);
    FromBigEndianRoundTrip(b[8..16]);
    FromBigEndianRoundTrip(b[16..24]);
    SplitPayload(b);
  }

  lemma SplitPayload(b: seq<byte>)
    requires |b| == MESSAGE_SIZE
    ensures b[..CRC_OFFSET] == b[0..2] + [b[2]] + [b[3]] + b[4..8] + b[8..16] + b[16..24]
  {}

  /** Re-encoding what the decoder accepted reproduces the buffer, byte for byte. */
  lemma EncodeDecode(b: seq<byte>)
    requires |b| == MESSAGE_SIZE
    requires Decode(b).Some?
    ensures Encode(Decode(b).value) == b
    ensures Valid(Decode(b).value) && Decode(b).value == Sealed(Decode(b).value)
  {
    hide Payload;
    hide Checksum;
    hide FromCrcBytes;
    hide CrcBytes;
    PayloadOfFields(b);
    FromCrcBytesRoundTrip(b[24..28]);
    assert b == b[..24] + b[24..28];
  }

  /** Hence distinct valid messages have distinct encodings, and every accepted buffer is one. */
  lemma EncodeInjective(m: HeartbeatMessage, n: HeartbeatMessage)
    requires Encode(m) == Encode(n)
    ensures Sealed(m) == Sealed(n)
  {
    hide Fields;
    hide Payload;
    hide Checksum;
    hide Encode;
    FieldsOfEncode(m);
    FieldsOfEncode(n);
  }

  // ---- The implementation ----

  /** The byte-order swap and memcpy of one field: writes `x` big-endian at `offset`. */
  method PutBigEndian(out: array<byte>, offset: nat, x: nat, n: nat)
    requires offset + n <= out.Length
    modifies out
    ensures out[..] == old(out[..offset]) + BigEndian(x, n) + old(out[offset + n..])
  {
    hide ToByte;
    hide BigEndian;
    var i, rest := n, x;
    while i > 0
      invariant 0 <= i <= n
      invariant BigEndian(x, n) == BigEndian(rest, i) + out[offset + i..offset + n]
      invariant out[..offset + i] == old(out[..offset + i])
      invariant out[offset + n..] == old(out[offset + n..])
    {
      BigEndianStep(rest, i);
      i := i - 1;
      ghost var before := out[offset + i + 1..offset + n];
      out[offset + i] := ToByte(rest % 256);
      assert out[offset + i..offset + n] == [ToByte(rest % 256)] + before;
      rest := rest / 256;
    }
    BigEndianStep(rest, 0);
    assert out[..] == out[..offset] + out[offset..offset + n] + out[offset + n..];
  }

  method PutPayload(msg: HeartbeatMessage, out: array<byte>) returns (offset: nat)
    requires out.Length == MESSAGE_SIZE
    modifies out
    ensures offset == CRC_OFFSET
    ensures out[..offset] == Payload(msg)
  {
    hide BigEndian;
    hide TimestampBits;
    PutBigEndian(out, 0, msg.magic, 2);
    ghost var done := BigEndian(msg.magic, 2);
    assert out[..2] == done;
    PutBigEndian(out, 2, msg.version, 1);
    done := done + BigEndian(msg.version, 1);
    assert out[..3] == done;
    PutBigEndian(out, 3, msg.kind, 1);
    done := done + BigEndian(msg.kind, 1);
    assert out[..4] == done;
    PutBigEndian(out, 4, msg.feedId, 4);
    done := done + BigEndian(msg.feedId, 4);
    assert out[..8] == done;
    PutBigEndian(out, 8, msg.sequence, 8);
    done := done + BigEndian(msg.sequence, 8);
    assert out[..16] == done;
    PutBigEndian(out, 16, TimestampBits(msg.timestampNs), 8);
    offset := 24;
  }

  method EncodeHeartbeat(table: array<bv32>, msg: HeartbeatMessage, out: array<byte>)
    requires IsTable(table[..])
    requires out.Length == MESSAGE_SIZE
    modifies out
    ensures out[..] == Encode(msg)
  {
    hide IsTable;
    hide Checksum;
    hide Payload;
    hide CrcBytes;
    var offset := PutPayload(msg, out);
    var crc := Crc32Ieee(table, out, offset);
    var bytes := CrcBytes(crc);
    out[offset], out[offset + 1], out[offset + 2], out[offset + 3] := bytes[0], bytes[1], bytes[2], bytes[3];
    assert out[..] == out[..offset] + out[offset..];
  }

  method DecodeHeartbeat(table: array<bv32>, input: array<byte>) returns (ok: bool, msg: HeartbeatMessage)
    requires IsTable(table[..])
    requires input.Length == MESSAGE_SIZE
    ensures ok == Decode(input[..]).Some?
    ensures ok ==> msg == Decode(input[..]).value
  {
    hide IsTable;
    hide Checksum;
    msg := Fields(input[..]);
    if msg.magic != MAGIC {
      return false, msg;
    }
    if msg.version != VERSION {
      return false, msg;
    }
    if !IsKnownMessageType(msg.kind) {
      return false, msg;
    }
    var actual := Crc32Ieee(table, input, CRC_OFFSET);
    assert input[..][..CRC_OFFSET] == input[..CRC_OFFSET];
    ok := actual == msg.crc32;
  }
}

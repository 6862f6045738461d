/** What the checksum of a heartbeat frame detects. A corruption confined to four consecutive bytes
    is rejected wherever it falls in the 28 bytes, with one exception: because the frame stores the
    checksum most significant byte first, there is exactly one four-byte difference, straddling the
    last two payload bytes and the first two checksum bytes, that the decoder cannot see. */
module Corruption {
  import opened Crc32
  import opened Heartbeat

  // ---- A four-byte word through the register ----

  /** The first message byte ends up lowest. */
  function LittleEndian(w: seq<byte>): (r: bv32)
    requires |w| == 4
  {
    Word(w[3], w[2], w[1], w[0])
  }

  lemma ShiftsClearByte(c: bv32)
    requires c & 0xFF == 0
    ensures Shifts(c, 8) == c >> 8
  {
    hide Shift;
    Shifts8(c);
    assert HighBytes(c) == c;
    HighBytesPassThrough(c);
  }

  lemma Aligned(b: byte)
    ensures (Widen(b) << 8) & 0xFF == 0 && (Widen(b) << 8) >> 8 == Widen(b)
    ensures (Widen(b) << 16) & 0xFF == 0 && (Widen(b) << 16) >> 8 == Widen(b) << 8
    ensures (Widen(b) << 24) & 0xFF == 0 && (Widen(b) << 24) >> 8 == Widen(b) << 16
  {}

  /** A byte placed `8*i` bits up surfaces at the bottom after `8*i` shifts. */
  lemma Surfaces(b: byte)
    ensures Shifts(Widen(b) << 8, 8) == Widen(b)
    ensures Shifts(Widen(b) << 16, 16) == Widen(b)
    ensures Shifts(Widen(b) << 24, 24) == Widen(b)
  {
    hide Shifts;
    Aligned(b);
    ShiftsClearByte(Widen(b) << 8);
    ShiftsClearByte(Widen(b) << 16);
    ShiftsClearByte(Widen(b) << 24);
    ShiftsAdd(Widen(b) << 16, 8, 8);
    ShiftsAdd(Widen(b) << 24, 8, 16);
  }

  /** Adding a byte late is adding it early, `n` shifts up. */
  lemma AddEarly(x: bv32, b: byte, up: bv32, n: nat)
    requires Shifts(up, n) == Widen(b)
    ensures StepByte(Shifts(x, n), b) == Shifts(Xor(x, up), n + 8)
  {
    hide Shift;
    hide Xor;
    hide Shifts;
    ShiftsLinear(x, up, n);
    ShiftsAdd(Xor(x, up), n, 8);
  }

  lemma FourSteps(s: bv32, a: byte, b: byte, c: byte, d: byte)
    ensures StepByte(StepByte(StepByte(StepByte(s, a), b), c), d)
         == Shifts(Xor(Xor(Xor(Xor(s, Widen(a)), Widen(b) << 8), Widen(c) << 16), Widen(d) << 24), 32)
  {
    hide Shift;
    hide Xor;
    hide Shifts;
    hide Widen;
    var x0 := Xor(s, Widen(a));
    var x1 := Xor(x0, Widen(b) << 8);
    var x2 := Xor(x1, Widen(c) << 16);
    Surfaces(b);
    Surfaces(c);
    Surfaces(d);
    AddEarly(x0, b, Widen(b) << 8, 8);
    AddEarly(x1, c, Widen(c) << 16, 16);
    AddEarly(x2, d, Widen(d) << 24, 24);
  }

  lemma GatherWord(s: bv32, a: byte, b: byte, c: byte, d: byte)
    ensures Xor(Xor(Xor(Xor(s, Widen(a)), Widen(b) << 8), Widen(c) << 16), Widen(d) << 24)
         == Xor(s, Word(d, c, b, a))
  {}

  lemma RunWord(s: bv32, w: seq<byte>)
    requires |w| == 4
    ensures RunBytes(s, w) == Shifts(Xor(s, LittleEndian(w)), 32)
  {
    hide StepByte;
    hide Shifts;
    hide Xor;
    hide Widen;
    hide Word;
    assert w[..3][..2] == w[..2] && w[..2][..1] == w[..1] && w[..1][..0] == [];
    assert RunBytes(s, w[..1]) == StepByte(s, w[0]);
    assert RunBytes(s, w[..2]) == StepByte(RunBytes(s, w[..1]), w[1]);
    assert RunBytes(s, w[..3]) == StepByte(RunBytes(s, w[..2]), w[2]);
    assert RunBytes(s, w) == StepByte(RunBytes(s, w[..3]), w[3]);
    FourSteps(s, w[0], w[1], w[2], w[3]);
    GatherWord(s, w[0], w[1], w[2], w[3]);
  }

  /** Two words fed to the same register differ afterwards by the shifted difference of the words. */
  lemma RunDifference(s: bv32, w: seq<byte>, v: seq<byte>)
    requires |w| == |v| == 4
    ensures Xor(RunBytes(s, w), RunBytes(s, v)) == Shifts(Xor(LittleEndian(w), LittleEndian(v)), 32)
  {
    hide Xor;
    hide LittleEndian;
    hide Shifts;
    hide RunBytes;
    RunWord(s, w);
    RunWord(s, v);
    ShiftsLinear(Xor(s, LittleEndian(w)), Xor(s, LittleEndian(v)), 32);
    XorCommon(s, LittleEndian(w), LittleEndian(v));
  }

  lemma XorCommon(s: bv32, x: bv32, y: bv32)
    ensures Xor(Xor(s, x), Xor(s, y)) == Xor(x, y)
  {
    hide Xor;
    XorCommutes(s, x);
    XorAssociates(x, s, Xor(s, y));
    XorAssociates(s, s, y);
    XorUnit(s);
    XorCommutes(0, y);
    XorUnit(y);
  }

  lemma {:induction false} RunInjective(s: bv32, t: bv32, data: seq<byte>)
    requires RunBytes(s, data) == RunBytes(t, data)
    ensures s == t
    decreases |data|
  {
    hide Xor;
    hide Shifts;
    if data != [] {
      var n := |data| - 1;
      var a, b := RunBytes(s, data[..n]), RunBytes(t, data[..n]);
      ShiftsInjective(Xor(a, Widen(data[n])), Xor(b, Widen(data[n])), 8);
      XorCancels(a, b, Widen(data[n]));
      RunInjective(s, t, data[..n]);
    }
  }

  lemma WordInjective(w: seq<byte>, v: seq<byte>)
    requires |w| == |v| == 4
    requires LittleEndian(w) == LittleEndian(v)
    ensures w == v
  {
    hide Word;
    WordHigh(w[3], w[2], w[1], w[0]);
    WordLow(w[3], w[2], w[1], w[0]);
    WordHigh(v[3], v[2], v[1], v[0]);
    WordLow(v[3], v[2], v[1], v[0]);
  }

  // ---- Differences the shifted register can hide in its top bytes ----

  /** One shift backwards. */
  function Unshift(c: bv32): (r: bv32) {
    if c & 0x80000000 != 0 then ((c ^ POLY) << 1) | 1 else c << 1
  }

  lemma UnshiftShift(c: bv32)
    ensures Unshift(Shift(c)) == c
  {}

  lemma Unshift8Shifts(c: bv32, n: nat)
    requires n >= 8
    ensures Unshift(Unshift(Unshift(Unshift(Unshift(Unshift(Unshift(Unshift(Shifts(c, n))))))))) == Shifts(c, n - 8)
  {
    hide Shift;
    hide Unshift;
    UnshiftShift(Shifts(c, n - 1));
    UnshiftShift(Shifts(c, n - 2));
    UnshiftShift(Shifts(c, n - 3));
    UnshiftShift(Shifts(c, n - 4));
    UnshiftShift(Shifts(c, n - 5));
    UnshiftShift(Shifts(c, n - 6));
    UnshiftShift(Shifts(c, n - 7));
    UnshiftShift(Shifts(c, n - 8));
  }

  lemma OneByteBits(v: bv32)
    requires v < 0x100
    requires Shift(Shift(Shift(Shift(Shift(Shift(Shift(Shift(v)))))))) & 0xFF == 0
    ensures v == 0
  {}

  lemma OneByteTail(v: bv32)
    requires v < 0x100 && Shifts(v, 8) & 0xFF == 0
    ensures v == 0
  {
    hide Shift;
    Shifts8(v);
    OneByteBits(v);
  }

  lemma TwoByteBits(v: bv32)
    requires v < 0x1_0000
    requires Shift(Shift(Shift(Shift(Shift(Shift(Shift(Shift(
               Shift(Shift(Shift(Shift(Shift(Shift(Shift(Shift(v)))))))))))))))) & 0xFFFF == 0
    ensures v == 0 || v == 0xD861
  {}

  lemma BlindBits()
    ensures Shift(Shift(Shift(Shift(Shift(Shift(Shift(Shift(
              Shift(Shift(Shift(Shift(Shift(Shift(Shift(Shift(0xD861)))))))))))))))) == 0xF4EE0000
  {}

  lemma Shifts16(v: bv32)
    ensures Shifts(v, 16) == Shift(Shift(Shift(Shift(Shift(Shift(Shift(Shift(
                               Shift(Shift(Shift(Shift(Shift(Shift(Shift(Shift(v))))))))))))))))
  {
    hide Shift;
    hide Shifts;
    Shifts8(v);
    Shifts8(Shifts(v, 8));
    ShiftsAdd(v, 8, 8);
  }

  /** Exactly one nonzero two-byte difference leaves the low half of the register unchanged. */
  lemma TwoByteTail(v: bv32)
    requires v < 0x1_0000 && Shifts(v, 16) & 0xFFFF == 0
    ensures v == 0 || v == 0xD861
  {
    hide Shift;
    Shifts16(v);
    hide Shifts;
    TwoByteBits(v);
  }

  lemma BlindTail()
    ensures Shifts(0xD861, 16) == 0xF4EE0000
  {
    hide Shift;
    Shifts16(0xD861);
    hide Shifts;
    BlindBits();
  }

  lemma ZeroStays()
    ensures Shift(0) == 0
  {}

  lemma ThreeByteBits(u: bv32)
    requires u & 0xFFFFFF == 0
    requires Unshift(Unshift(Unshift(Unshift(Unshift(Unshift(Unshift(Unshift(
               Unshift(Unshift(Unshift(Unshift(Unshift(Unshift(Unshift(Unshift(
                 Unshift(Unshift(Unshift(Unshift(Unshift(Unshift(Unshift(Unshift(u)))))))))))))))))))))))) < 0x100_0000
    ensures u == 0
  {}

  lemma ThreeByteTail(v: bv32)
    requires v < 0x100_0000 && Shifts(v, 24) & 0xFFFFFF == 0
    ensures v == 0
  {
    hide Shift;
    hide Unshift;
    Unshift8Shifts(v, 24);
    Unshift8Shifts(v, 16);
    Unshift8Shifts(v, 8);
    ThreeByteBits(Shifts(v, 24));
    ZeroStays();
    ShiftsOfZero(24);
    ShiftsInjective(v, 0, 24);
  }

  lemma {:induction false} ShiftsOfZero(n: nat)
    ensures Shifts(0, n) == 0
    decreases n
  {
    hide Shift;
    ZeroStays();
    if n > 0 {
      ShiftsOfZero(n - 1);
    }
  }

  // ---- Corrupted frames ----

  /** `b` and `e` agree outside the four bytes starting at `k`. */
  predicate AgreeOutside(e: seq<byte>, b: seq<byte>, k: nat)
    requires |e| == |b| == MESSAGE_SIZE
  {
    forall i :: 0 <= i < MESSAGE_SIZE && !(k <= i < k + 4) ==> b[i] == e[i]
  }

  function Flip(x: byte, mask: byte): (r: byte) {
    x ^ mask
  }

  /** The one difference the decoder cannot see, applied to a frame. */
  function Blind(e: seq<byte>): (r: seq<byte>)
    requires |e| == MESSAGE_SIZE
    ensures |r| == MESSAGE_SIZE
  {
    e[..22] + [Flip(e[22], 0x61), Flip(e[23], 0xD8), Flip(e[24], 0xF4), Flip(e[25], 0xEE)] + e[26..]
  }

  /** The register difference caused by a corruption of payload bytes `j..j+4`. */
  lemma PayloadDifference(p: seq<byte>, q: seq<byte>, j: nat)
    requires |p| == |q| == CRC_OFFSET && j <= 20
    requires p[..j] == q[..j] && p[j + 4..] == q[j + 4..]
    ensures Checksum(p) == Checksum(q) ==> p == q
    ensures j == 20 ==> Xor(Checksum(p), Checksum(q)) == Shifts(Xor(LittleEndian(p[20..]), LittleEndian(q[20..])), 32)
  {
    hide Xor;
    hide Shifts;
    hide RunBytes;
    hide LittleEndian;
    hide Checksum;
    var s := RunBytes(ONES, p[..j]);
    var w, v, tail := p[j..j + 4], q[j..j + 4], p[j + 4..];
    assert p == p[..j] + w + tail && q == q[..j] + v + tail;
    RunConcat(ONES, p[..j] + w, tail);
    RunConcat(ONES, p[..j], w);
    RunConcat(ONES, q[..j] + v, tail);
    RunConcat(ONES, q[..j], v);
    ChecksumAsRun(p);
    ChecksumAsRun(q);
    var x, y := RunBytes(s, w), RunBytes(s, v);
    if Checksum(p) == Checksum(q) {
      XorCancels(RunBytes(x, tail), RunBytes(y, tail), ONES);
      RunInjective(x, y, tail);
      RunWord(s, w);
      RunWord(s, v);
      ShiftsInjective(Xor(s, LittleEndian(w)), Xor(s, LittleEndian(v)), 32);
      XorCommutes(s, LittleEndian(w));
      XorCommutes(s, LittleEndian(v));
      XorCancels(LittleEndian(w), LittleEndian(v), s);
      WordInjective(w, v);
    }
    if j == 20 {
      assert tail == [] && w == p[20..] && v == q[20..];
      RunEmpty(x);
      RunEmpty(y);
      RunDifference(s, w, v);
      XorCommutes(x, ONES);
      XorCommutes(y, ONES);
      XorCommon(ONES, x, y);
    }
  }

  lemma RunEmpty(x: bv32)
    ensures RunBytes(x, []) == x
  {}

  lemma ChecksumAsRun(p: seq<byte>)
    ensures Checksum(p) == Xor(RunBytes(ONES, p), ONES)
  {
    hide Xor;
    hide BitSerial;
    hide RunBytes;
    BitSerialIsRun(ONES, p);
  }

  /** Acceptance in terms of checksums: the stored field must match the payload. */
  lemma AcceptedMeansMatching(b: seq<byte>)
    requires |b| == MESSAGE_SIZE
    ensures Decode(b).Some? ==> CrcBytes(Checksum(b[..CRC_OFFSET])) == b[CRC_OFFSET..]
  {
    hide Checksum;
    hide CrcBytes;
    hide FromCrcBytes;
    FromCrcBytesRoundTrip(b[24..28]);
  }

  lemma EncodedMatches(m: HeartbeatMessage)
    ensures CrcBytes(Checksum(Encode(m)[..CRC_OFFSET])) == Encode(m)[CRC_OFFSET..]
  {
    hide Checksum;
    hide CrcBytes;
    hide Payload;
  }

  /** Which checksum bits two stored fields agree on, byte by byte from the back. */
  lemma StoredDifference(c: bv32, d: bv32)
    ensures CrcBytes(c)[3] == CrcBytes(d)[3] ==> Xor(c, d) & 0xFF == 0
    ensures CrcBytes(c)[2..] == CrcBytes(d)[2..] ==> Xor(c, d) & 0xFFFF == 0
    ensures CrcBytes(c)[1..] == CrcBytes(d)[1..] ==> Xor(c, d) & 0xFFFFFF == 0
  {
    StoredBits(c, d);
    var x, y := CrcBytes(c), CrcBytes(d);
    assert x[2..] == y[2..] ==> x[2..][0] == y[2..][0] && x[2..][1] == y[2..][1];
    assert x[1..] == y[1..] ==> x[1..][0] == y[1..][0] && x[1..][1] == y[1..][1] && x[1..][2] == y[1..][2];
  }

  lemma StoredBits(c: bv32, d: bv32)
    ensures (c & 0xFF) as bv8 == (d & 0xFF) as bv8 ==> (c ^ d) & 0xFF == 0
    ensures (c & 0xFF) as bv8 == (d & 0xFF) as bv8 && ((c >> 8) & 0xFF) as bv8 == ((d >> 8) & 0xFF) as bv8
            ==>
            (c ^ d) & 0xFFFF == 0
    ensures (c & 0xFF) as bv8 == (d & 0xFF) as bv8 && ((c >> 8) & 0xFF) as bv8 == ((d >> 8) & 0xFF) as bv8
            && ((c >> 16) & 0xFF) as bv8 == ((d >> 16) & 0xFF) as bv8
            ==>
            (c ^ d) & 0xFFFFFF == 0
  {}

  lemma WordDifference(w: seq<byte>, v: seq<byte>)
    requires |w| == |v| == 4
    ensures w[0] == v[0] ==> Xor(LittleEndian(w), LittleEndian(v)) & 0xFF == 0
    ensures w[0] == v[0] && w[1] == v[1] ==> Xor(LittleEndian(w), LittleEndian(v)) & 0xFFFF == 0
    ensures w[0] == v[0] && w[1] == v[1] && w[2] == v[2] ==>
              Xor(LittleEndian(w), LittleEndian(v)) & 0xFFFFFF == 0
  {}

  lemma LowClear(c: bv32)
    ensures c & 0xFFFFFF == 0 ==> c & 0xFFFF == 0 && (c >> 16) & 0xFF == 0
    ensures c & 0xFFFF == 0 ==> c & 0xFF == 0 && (c >> 8) & 0xFF == 0
    ensures (c >> 8) >> 8 == c >> 16 && (c >> 16) >> 8 == c >> 24
    ensures c >> 8 < 0x100_0000 && c >> 16 < 0x1_0000 && c >> 24 < 0x100
  {}

  /** Clear low bytes cost eight shifts each. */
  lemma SkipClear(c: bv32)
    ensures c & 0xFF == 0 ==> Shifts(c, 32) == Shifts(c >> 8, 24)
    ensures c & 0xFFFF == 0 ==> Shifts(c, 32) == Shifts(c >> 16, 16)
    ensures c & 0xFFFFFF == 0 ==> Shifts(c, 32) == Shifts(c >> 24, 8)
  {
    hide Shift;
    hide Shifts;
    LowClear(c);
    ShiftsAdd(c, 8, 24);
    ShiftsAdd(c >> 8, 8, 16);
    ShiftsAdd(c >> 16, 8, 8);
    if c & 0xFF == 0 {
      ShiftsClearByte(c);
    }
    if c & 0xFFFF == 0 {
      ShiftsClearByte(c >> 8);
    }
    if c & 0xFFFFFF == 0 {
      ShiftsClearByte(c >> 16);
    }
  }

  lemma NoDifference(c: bv32)
    ensures c & 0xFF == 0 && c >> 8 == 0 ==> c == 0
    ensures c & 0xFFFFFF == 0 && c >> 24 == 0 ==> c == 0
    ensures c & 0xFFFF == 0 && c >> 16 == 0 ==> c == 0
    ensures c & 0xFFFF == 0 && c >> 16 == 0xD861 ==> c == 0xD861_0000
    ensures (0xD861_0000 as bv32) >> 16 == 0xD861
  {}

  lemma XorZero(x: bv32, y: bv32)
    requires Xor(x, y) == 0
    ensures x == y
  {}

  /** A corruption that spares the first bytes of the last payload word and touches as many of the
      stored checksum is visible, except for the one blind difference. */
  lemma Straddle(w: seq<byte>, v: seq<byte>, c: bv32, d: bv32)
    requires |w| == |v| == 4 && w != v
    requires Xor(c, d) == Shifts(Xor(LittleEndian(w), LittleEndian(v)), 32)
    ensures !(w[..1] == v[..1] && CrcBytes(c)[1..] == CrcBytes(d)[1..])
    ensures !(w[..3] == v[..3] && CrcBytes(c)[3..] == CrcBytes(d)[3..])
    ensures w[..2] == v[..2] && CrcBytes(c)[2..] == CrcBytes(d)[2..] ==>
              Xor(LittleEndian(w), LittleEndian(v)) == 0xD861_0000 && Xor(c, d) == 0xF4EE_0000
  {
    hide Xor;
    hide Shifts;
    hide CrcBytes;
    hide LittleEndian;
    var delta := Xor(LittleEndian(w), LittleEndian(v));
    if delta == 0 {
      XorZero(LittleEndian(w), LittleEndian(v));
      WordInjective(w, v);
    }
    StoredDifference(c, d);
    WordDifference(w, v);
    SkipClear(delta);
    LowClear(delta);
    NoDifference(delta);
    if w[..1] == v[..1] && CrcBytes(c)[1..] == CrcBytes(d)[1..] {
      assert w[..1][0] == v[..1][0];
      ThreeByteTail(delta >> 8);
    }
    if w[..3] == v[..3] && CrcBytes(c)[3..] == CrcBytes(d)[3..] {
      assert w[..3][0] == v[..3][0] && w[..3][1] == v[..3][1] && w[..3][2] == v[..3][2];
      assert CrcBytes(c)[3..][0] == CrcBytes(d)[3..][0];
      OneByteTail(delta >> 24);
    }
    if w[..2] == v[..2] && CrcBytes(c)[2..] == CrcBytes(d)[2..] {
      assert w[..2][0] == v[..2][0] && w[..2][1] == v[..2][1];
      TwoByteTail(delta >> 16);
      BlindTail();
    }
  }

  lemma BlindBytes(w: seq<byte>, v: seq<byte>)
    requires |w| == |v| == 4 && w[0] == v[0] && w[1] == v[1]
    ensures Xor(LittleEndian(w), LittleEndian(v)) == 0xD861_0000 <==> v[2] == Flip(w[2], 0x61) && v[3] == Flip(w[3], 0xD8)
  {}

  lemma BlindCrcBytes(c: bv32, d: bv32)
    ensures Xor(c, d) == 0xF4EE_0000 ==>
              CrcBytes(d) == [Flip(CrcBytes(c)[0], 0xF4), Flip(CrcBytes(c)[1], 0xEE), CrcBytes(c)[2], CrcBytes(c)[3]]
  {
    if Xor(c, d) == 0xF4EE_0000 {
      BlindCrcBits(c, d);
    }
  }

  lemma BlindCrcBits(c: bv32, d: bv32)
    requires c ^ d == 0xF4EE_0000
    ensures ((d >> 24) & 0xFF) as bv8 == ((c >> 24) & 0xFF) as bv8 ^ 0xF4
    ensures ((d >> 16) & 0xFF) as bv8 == ((c >> 16) & 0xFF) as bv8 ^ 0xEE
    ensures ((d >> 8) & 0xFF) as bv8 == ((c >> 8) & 0xFF) as bv8 && (d & 0xFF) as bv8 == (c & 0xFF) as bv8
  {}

  /** Any burst of at most four bytes inside the payload is rejected, whatever the message. */
  lemma PayloadBurstRejected(m: HeartbeatMessage, b: seq<byte>, k: nat)
    requires |b| == MESSAGE_SIZE && k <= 20
    requires AgreeOutside(Encode(m), b, k) && b != Encode(m)
    ensures Decode(b).None?
  {
    hide Encode;
    hide Decode;
    hide Checksum;
    hide CrcBytes;
    var e := Encode(m);
    var p, q := e[..CRC_OFFSET], b[..CRC_OFFSET];
    assert p[..k] == q[..k] && p[k + 4..] == q[k + 4..];
    assert e[CRC_OFFSET..] == b[CRC_OFFSET..];
    PayloadDifference(p, q, k);
    AcceptedMeansMatching(b);
    EncodedMatches(m);
    CrcBytesRoundTrip(Checksum(p));
    CrcBytesRoundTrip(Checksum(q));
    assert e == p + e[CRC_OFFSET..] && b == q + b[CRC_OFFSET..];
  }

  /** What acceptance of a burst at `k > 20` forces. */
  lemma StraddleAccepted(m: HeartbeatMessage, b: seq<byte>, k: nat)
    requires |b| == MESSAGE_SIZE && 20 < k <= 24
    requires AgreeOutside(Encode(m), b, k) && b != Encode(m)
    requires Decode(b).Some?
    ensures k == 22 && b == Blind(Encode(m))
  {
    hide Encode;
    hide Decode;
    hide Checksum;
    hide CrcBytes;
    hide LittleEndian;
    hide Shifts;
    hide Xor;
    hide Flip;
    var e := Encode(m);
    var p, q := e[..CRC_OFFSET], b[..CRC_OFFSET];
    var c, d := Checksum(p), Checksum(q);
    var w, v := p[20..], q[20..];
    assert p[..20] == q[..20] && p[24..] == q[24..];
    PayloadDifference(p, q, 20);
    AcceptedMeansMatching(b);
    EncodedMatches(m);
    assert e == p[..20] + w + e[CRC_OFFSET..] && b == q[..20] + v + b[CRC_OFFSET..];
    assert w != v;
    assert w[..k - 20] == v[..k - 20];
    assert CrcBytes(c)[k - 20..] == CrcBytes(d)[k - 20..] by {
      assert e[CRC_OFFSET..][k - 20..] == b[CRC_OFFSET..][k - 20..];
    }
    TakeAll(w);
    TakeAll(v);
    Straddle(w, v, c, d);
    assert k == 22;
    assert w[..2][0] == v[..2][0] && w[..2][1] == v[..2][1];
    BlindBytes(w, v);
    BlindCrcBytes(c, d);
    BlindLayout(e, b, w, v, CrcBytes(c), CrcBytes(d));
  }

  lemma TakeAll(w: seq<byte>)
    ensures w[..|w|] == w
  {}

  lemma BlindLayout(e: seq<byte>, b: seq<byte>, w: seq<byte>, v: seq<byte>, c: seq<byte>, d: seq<byte>)
    requires |e| == |b| == MESSAGE_SIZE && |w| == |v| == |c| == |d| == 4
    requires e[..20] == b[..20] && e[20..24] == w && b[20..24] == v && e[24..] == c && b[24..] == d
    requires v == [w[0], w[1], Flip(w[2], 0x61), Flip(w[3], 0xD8)]
    requires d == [Flip(c[0], 0xF4), Flip(c[1], 0xEE), c[2], c[3]]
    ensures b == Blind(e)
  {
    hide Flip;
    assert w[0] == e[20] && w[1] == e[21] && w[2] == e[22] && w[3] == e[23];
    assert c[0] == e[24] && c[1] == e[25] && c[2] == e[26] && c[3] == e[27];
    forall i | 0 <= i < MESSAGE_SIZE
      ensures b[i] == Blind(e)[i]
    {
      if i < 20 {
        assert b[i] == b[..20][i] && e[i] == e[..20][i];
      } else if i < 24 {
        assert b[i] == v[i - 20];
      } else {
        assert b[i] == d[i - 24];
      }
    }
  }

  /** The checksum moves with the payload under the blind difference. */
  lemma BlindMatches(m: HeartbeatMessage)
    ensures CrcBytes(Checksum(Blind(Encode(m))[..CRC_OFFSET])) == Blind(Encode(m))[CRC_OFFSET..]
  {
    hide Encode;
    hide Checksum;
    hide CrcBytes;
    hide LittleEndian;
    hide Shifts;
    hide Xor;
    hide Flip;
    var e := Encode(m);
    var b := Blind(e);
    var p, q := e[..CRC_OFFSET], b[..CRC_OFFSET];
    var w, v := p[20..], q[20..];
    assert p[..20] == q[..20] && p[24..] == q[24..];
    PayloadDifference(p, q, 20);
    assert v[2] == Flip(w[2], 0x61) && v[3] == Flip(w[3], 0xD8);
    BlindBytes(w, v);
    SkipClear(0xD861_0000);
    NoDifference(0xD861_0000);
    BlindTail();
    BlindCrcBytes(Checksum(p), Checksum(q));
    EncodedMatches(m);
    var c := e[CRC_OFFSET..];
    assert b[CRC_OFFSET..] == [Flip(c[0], 0xF4), Flip(c[1], 0xEE), c[2], c[3]];
  }

  /** A frame whose header is that of a valid message and whose checksum matches is accepted. */
  lemma MatchingAccepted(m: HeartbeatMessage, b: seq<byte>)
    requires Valid(m) && |b| == MESSAGE_SIZE
    requires b[..4] == Encode(m)[..4]
    requires CrcBytes(Checksum(b[..CRC_OFFSET])) == b[CRC_OFFSET..]
    ensures Decode(b).Some?
  {
    hide Encode;
    hide Checksum;
    hide CrcBytes;
    hide FromCrcBytes;
    hide FromBigEndian;
    hide FromByte;
    hide Payload;
    var e := Encode(m);
    DecodeEncode(m);
    assert b[0..2] == b[..4][0..2] && e[0..2] == e[..4][0..2];
    assert b[2] == b[..4][2] && b[3] == b[..4][3] && e[2] == e[..4][2] && e[3] == e[..4][3];
    assert b[24..28] == b[CRC_OFFSET..];
    CrcBytesRoundTrip(Checksum(b[..CRC_OFFSET]));
  }

  /** So the blind difference really is accepted. */
  lemma BlindAccepted(m: HeartbeatMessage)
    requires Valid(m)
    ensures Decode(Blind(Encode(m))).Some?
    ensures Blind(Encode(m)) != Encode(m)
  {
    hide Encode;
    hide Decode;
    hide Flip;
    hide Checksum;
    hide CrcBytes;
    var e := Encode(m);
    BlindMatches(m);
    assert Blind(e)[..4] == e[..4];
    MatchingAccepted(m, Blind(e));
    BlindDiffers(e[22]);
    assert Blind(e)[22] != e[22];
  }

  lemma BlindDiffers(x: byte)
    ensures Flip(x, 0x61) != x
  {}

  /** Burst detection over the whole frame, exactly: a corruption of a valid frame confined to four
      consecutive bytes is accepted if and only if it is the one blind difference at offset 22. */
  lemma BurstDetection(m: HeartbeatMessage, b: seq<byte>, k: nat)
    requires Valid(m)
    requires |b| == MESSAGE_SIZE && k <= 24
    requires AgreeOutside(Encode(m), b, k) && b != Encode(m)
    ensures Decode(b).Some? <==> k == 22 && b == Blind(Encode(m))
  {
    hide Encode;
    hide Decode;
    if k <= 20 {
      PayloadBurstRejected(m, b, k);
    } else if Decode(b).Some? {
      StraddleAccepted(m, b, k);
    } else if k == 22 && b == Blind(Encode(m)) {
      BlindAccepted(m);
    }
  }
}

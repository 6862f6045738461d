/** CRC-32 as in clause 3.2.9 of IEEE 802.3: the byte-at-a-time table algorithm of
    src/heartbeat.cpp, proved equal to the bit-serial definition it abbreviates, together with
    the two algebraic facts (XOR-linearity and injectivity) that error detection rests on. */
module Crc32 {

  type byte = bv8
  type uint8 = x: int | 0 <= x < 0x100

  const POLY: bv32 := 0xEDB88320
  const ONES: bv32 := 0xFFFFFFFF

  /** Addition of registers. Named, so that proofs can hide the bits and use only the algebra. */
  function Xor(a: bv32, b: bv32): (r: bv32) {
    a ^ b
  }

  function Widen(b: byte): (r: bv32) {
    b as bv32
  }

  /** One shift of the reflected register. */
  function Shift(c: bv32): (r: bv32) {
    if c & 1 == 1 then POLY ^ (c >> 1) else c >> 1
  }

  /** The register after `n` shifts. */
  function Shifts(c: bv32, n: nat): (r: bv32)
    decreases n
  {
    if n == 0 then c else Shift(Shifts(c, n - 1))
  }

  // ---- The reference: one message bit at a time, least significant bit first ----

  function FeedBit(crc: bv32, bit: bool): (r: bv32) {
    if (crc & 1 == 1) != bit then POLY ^ (crc >> 1) else crc >> 1
  }

  predicate BitOf(b: byte, k: nat)
    requires k < 8
  {
    (b >> k) & 1 == 1
  }

  /** Feeds bits `k..8` of `b` to the register, one at a time. */
  function FeedBits(crc: bv32, b: byte, k: nat): (r: bv32)
    requires k <= 8
    decreases 8 - k
  {
    if k == 8 then crc else FeedBits(FeedBit(crc, BitOf(b, k)), b, k + 1)
  }

  function BitSerial(crc: bv32, data: seq<byte>): (r: bv32)
    decreases |data|
  {
    if data == [] then crc
    else FeedBits(BitSerial(crc, data[..|data| - 1]), data[|data| - 1], 0)
  }

  /** The checksum by its bit-serial definition: preset to ones, complemented at the end. */
  function Checksum(data: seq<byte>): (r: bv32) {
    Xor(BitSerial(ONES, data), ONES)
  }

  // ---- The register stepped by whole bytes ----

  function StepByte(crc: bv32, b: byte): (r: bv32) {
    Shifts(Xor(crc, Widen(b)), 8)
  }

  function RunBytes(crc: bv32, data: seq<byte>): (r: bv32)
    decreases |data|
  {
    if data == [] then crc else StepByte(RunBytes(crc, data[..|data| - 1]), data[|data| - 1])
  }

  lemma {:induction false} RunConcat(crc: bv32, a: seq<byte>, b: seq<byte>)
    ensures RunBytes(crc, a + b) == RunBytes(RunBytes(crc, a), b)
    decreases |b|
  {
    hide StepByte;
    if b == [] {
      assert a + b == a;
    } else {
      assert (a + b)[..|a + b| - 1] == a + b[..|b| - 1];
      RunConcat(crc, a, b[..|b| - 1]);
    }
  }

  // ---- Bytes as numbers ----

  /** Byte `x`, joined from its two nibbles so that every int-to-bits conversion stays small. */
  function ToByte(x: uint8): (r: byte) {
    Join(ToNibble(x / 16), ToNibble(x % 16))
  }

  function FromByte(b: byte): (r: uint8) {
    16 * FromNibble(b >> 4) + FromNibble(b & 15)
  }

  function ToNibble(x: int): (r: byte)
    requires 0 <= x < 16
  {
    x as bv8
  }

  function FromNibble(b: byte): (r: int)
    requires b < 16
    ensures 0 <= r < 16
  {
    b as int
  }

  function Join(hi: byte, lo: byte): (r: byte) {
    (hi << 4) | lo
  }

  lemma Nibble(x: int)
    requires 0 <= x < 16
    ensures ToNibble(x) < 16 && FromNibble(ToNibble(x)) == x
  {}

  lemma NibbleBack(b: byte)
    requires b < 16
    ensures ToNibble(FromNibble(b)) == b
  {}

  lemma JoinSplits(hi: byte, lo: byte)
    requires hi < 16 && lo < 16
    ensures Join(hi, lo) >> 4 == hi && Join(hi, lo) & 15 == lo
  {}

  lemma SplitJoins(b: byte)
    ensures b >> 4 < 16 && b & 15 < 16
    ensures Join(b >> 4, b & 15) == b
  {}

  lemma ToFromByte(b: byte)
    ensures ToByte(FromByte(b)) == b
  {
    hide ToNibble;
    hide FromNibble;
    hide Join;
    SplitJoins(b);
    NibbleBack(b >> 4);
    NibbleBack(b & 15);
  }

  lemma FromToByte(x: uint8)
    ensures FromByte(ToByte(x)) == x
  {
    hide ToNibble;
    hide FromNibble;
    hide Join;
    Nibble(x / 16);
    Nibble(x % 16);
    JoinSplits(ToNibble(x / 16), ToNibble(x % 16));
  }

  // ---- Algebra of the register ----

  lemma XorUnit(x: bv32)
    ensures Xor(x, x) == 0 && Xor(x, 0) == x
  {}

  lemma XorCommutes(x: bv32, y: bv32)
    ensures Xor(x, y) == Xor(y, x)
  {}

  lemma XorAssociates(x: bv32, y: bv32, z: bv32)
    ensures Xor(Xor(x, y), z) == Xor(x, Xor(y, z))
  {
    XorBits(y, z, x);
  }

  lemma XorCancels(x: bv32, y: bv32, z: bv32)
    requires Xor(x, z) == Xor(y, z)
    ensures x == y
  {}

  lemma XorShift(a: bv32, b: bv32)
    ensures (a ^ b) >> 1 == (a >> 1) ^ (b >> 1)
    ensures (a ^ b) & 1 == (a & 1) ^ (b & 1)
    ensures a & 1 == 0 || a & 1 == 1
  {}

  lemma XorBits(x: bv32, y: bv32, p: bv32)
    ensures p ^ (x ^ y) == (p ^ x) ^ y
    ensures p ^ (x ^ y) == x ^ (p ^ y)
    ensures (p ^ x) ^ (p ^ y) == x ^ y
  {}

  lemma ShiftLinearBits(a: bv32, b: bv32)
    ensures Shift(a ^ b) == Shift(a) ^ Shift(b)
  {
    XorShift(a, b);
    XorShift(b, a);
    XorBits(a >> 1, b >> 1, POLY);
  }

  /** XOR-linearity of one shift. */
  lemma ShiftLinear(a: bv32, b: bv32)
    ensures Shift(Xor(a, b)) == Xor(Shift(a), Shift(b))
  {
    hide Shift;
    ShiftLinearBits(a, b);
  }

  lemma {:induction false} ShiftsLinear(a: bv32, b: bv32, n: nat)
    ensures Shifts(Xor(a, b), n) == Xor(Shifts(a, n), Shifts(b, n))
    decreases n
  {
    hide Xor;
    hide Shift;
    if n > 0 {
      ShiftsLinear(a, b, n - 1);
      ShiftLinear(Shifts(a, n - 1), Shifts(b, n - 1));
    }
  }

  /** The feedback polynomial has its top bit set, so the register never loses information. */
  lemma ShiftInjective(a: bv32, b: bv32)
    requires Shift(a) == Shift(b)
    ensures a == b
  {}

  lemma {:induction false} ShiftsInjective(a: bv32, b: bv32, n: nat)
    requires Shifts(a, n) == Shifts(b, n)
    ensures a == b
    decreases n
  {
    hide Shift;
    if n > 0 {
      ShiftInjective(Shifts(a, n - 1), Shifts(b, n - 1));
      ShiftsInjective(a, b, n - 1);
    }
  }

  lemma {:induction false} ShiftsAdd(c: bv32, m: nat, n: nat)
    ensures Shifts(Shifts(c, m), n) == Shifts(c, m + n)
    decreases n
  {
    hide Shift;
    if n > 0 {
      ShiftsAdd(c, m, n - 1);
    }
  }

  lemma Shifts8(c: bv32)
    ensures Shifts(c, 8) == Shift(Shift(Shift(Shift(Shift(Shift(Shift(Shift(c))))))))
  {
    hide Shift;
    assert Shifts(c, 8) == Shift(Shifts(c, 7)) == Shift(Shift(Shifts(c, 6)));
    assert Shifts(c, 6) == Shift(Shifts(c, 5)) == Shift(Shift(Shifts(c, 4)));
    assert Shifts(c, 4) == Shift(Shifts(c, 3)) == Shift(Shift(Shifts(c, 2)));
    assert Shifts(c, 2) == Shift(Shifts(c, 1)) == Shift(Shift(Shifts(c, 0)));
  }

  /** While the low byte is clear, shifting is only shifting. */
  lemma HighBytesPassThrough(c: bv32)
    ensures Shift(Shift(Shift(Shift(Shift(Shift(Shift(Shift(HighBytes(c))))))))) == c >> 8
  {}

  function LowByte(c: bv32): (r: bv32) { c & 0xFF }

  function HighBytes(c: bv32): (r: bv32) { c & 0xFFFFFF00 }

  lemma SplitLowByte(c: bv32)
    ensures c == Xor(LowByte(c), HighBytes(c))
  {}

  /** The table step: only the low byte needs feedback, the other three just move down. */
  lemma TableStep(c: bv32)
    ensures Shifts(c, 8) == Xor(Shifts(LowByte(c), 8), c >> 8)
  {
    hide Xor;
    hide LowByte;
    hide HighBytes;
    hide Shift;
    hide Shifts;
    SplitLowByte(c);
    ShiftsLinear(LowByte(c), HighBytes(c), 8);
    Shifts8(HighBytes(c));
    HighBytesPassThrough(c);
  }

  // ---- Bit-serial = byte step ----

  /** What is left of byte `b` once its low `k` bits have been consumed. */
  function Rest(b: byte, k: nat): (r: bv32)
    requires k <= 8
  {
    Widen(b) >> k
  }

  lemma RestEnds(b: byte)
    ensures Rest(b, 0) == Widen(b) && Rest(b, 8) == 0
  {}

  lemma BitOfRest(b: byte, k: nat)
    requires k < 8
    ensures BitOf(b, k) == (Rest(b, k) & 1 == 1)
    ensures Rest(b, k) >> 1 == Rest(b, k + 1)
  {
    if k == 0 {} else if k == 1 {} else if k == 2 {} else if k == 3 {}
    else if k == 4 {} else if k == 5 {} else if k == 6 {} else { assert k == 7; }
  }

  lemma FeedAbsorbedBits(crc: bv32, r: bv32)
    ensures FeedBit(crc, r & 1 == 1) ^ (r >> 1) == Shift(crc ^ r)
  {
    XorShift(crc, r);
    XorShift(r, crc);
    XorBits(crc >> 1, r >> 1, POLY);
  }

  lemma FeedAbsorbed(crc: bv32, r: bv32)
    ensures Xor(FeedBit(crc, r & 1 == 1), r >> 1) == Shift(Xor(crc, r))
  {
    hide FeedBit;
    hide Shift;
    FeedAbsorbedBits(crc, r);
  }

  lemma {:induction false} FeedBitsIsShifts(crc: bv32, b: byte, k: nat)
    requires k <= 8
    ensures FeedBits(crc, b, k) == Shifts(Xor(crc, Rest(b, k)), 8 - k)
    decreases 8 - k
  {
    hide Shift;
    hide Rest;
    hide Xor;
    hide FeedBit;
    hide BitOf;
    if k == 8 {
      RestEnds(b);
      XorUnit(crc);
    } else {
      var next := FeedBit(crc, BitOf(b, k));
      BitOfRest(b, k);
      FeedAbsorbed(crc, Rest(b, k));
      FeedBitsIsShifts(next, b, k + 1);
      ShiftsAdd(Xor(crc, Rest(b, k)), 1, 8 - k - 1);
      assert Shifts(Xor(crc, Rest(b, k)), 1) == Shift(Shifts(Xor(crc, Rest(b, k)), 0));
    }
  }

  lemma {:induction false} BitSerialIsRun(crc: bv32, data: seq<byte>)
    ensures BitSerial(crc, data) == RunBytes(crc, data)
    decreases |data|
  {
    hide Xor;
    hide Rest;
    hide Shifts;
    hide FeedBits;
    if data != [] {
      var n := |data| - 1;
      BitSerialIsRun(crc, data[..n]);
      FeedBitsIsShifts(RunBytes(crc, data[..n]), data[n], 0);
      RestEnds(data[n]);
    }
  }

  // ---- The implementation ----

  /** `table[i]` is byte `i` pushed through eight shifts. */
  ghost predicate IsTable(table: seq<bv32>) {
    |table| == 256 && forall i: nat :: i < 256 ==> table[i] == Shifts(Widen(ToByte(i)), 8)
  }

  method MakeTable() returns (table: array<bv32>)
    ensures fresh(table)
    ensures IsTable(table[..])
  {
    hide Shift;
    hide Widen;
    hide ToByte;
    table := new bv32[256];
    for i := 0 to 256
      invariant forall j: nat :: j < i ==> table[j] == Shifts(Widen(ToByte(j)), 8)
    {
      var c := Widen(ToByte(i));
      ghost var c0 := c;
      for bit := 0 to 8
        invariant c == Shifts(c0, bit)
      {
        c := Shift(c);
      }
      table[i] := c;
    }
  }

  /** The index the loop looks up: `(crc ^ data[i]) & 0xFF`. */
  function Index(x: bv32): (r: uint8) {
    FromByte((x & 0xFF) as bv8)
  }

  lemma IndexRoundTrip(x: bv32)
    ensures Widen(ToByte(Index(x))) == LowByte(x)
  {
    hide FromByte;
    hide ToByte;
    ToFromByte((x & 0xFF) as bv8);
  }

  lemma ByteLeavesHighBytes(c: bv32, b: byte)
    ensures Xor(c, Widen(b)) >> 8 == c >> 8
  {}

  /** One iteration of the table loop is one byte step of the register. */
  lemma TableLookup(table: seq<bv32>, c: bv32, b: byte)
    requires IsTable(table)
    ensures Xor(table[Index(Xor(c, Widen(b)))], c >> 8) == StepByte(c, b)
  {
    hide Xor;
    hide Widen;
    hide Shifts;
    hide LowByte;
    hide Index;
    hide ToByte;
    var x := Xor(c, Widen(b));
    IndexRoundTrip(x);
    TableStep(x);
    ByteLeavesHighBytes(c, b);
  }

  /** The table-driven loop computes the bit-serial CRC-32 of every byte string. */
  method Crc32Ieee(table: array<bv32>, data: array<byte>, len: nat) returns (crc: bv32)
    requires len <= data.Length
    requires IsTable(table[..])
    ensures crc == Checksum(data[..len])
  {
    hide Xor;
    hide Widen;
    hide IsTable;
    hide Index;
    hide StepByte;
    hide BitSerial;
    crc := ONES;
    for i := 0 to len
      invariant crc == RunBytes(ONES, data[..i])
    {
      assert data[..i + 1][..i] == data[..i];
      TableLookup(table[..], crc, data[i]);
      TableSize(table[..]);
      crc := Xor(table[Index(Xor(crc, Widen(data[i])))], crc >> 8);
    }
    BitSerialIsRun(ONES, data[..len]);
    crc := Xor(crc, ONES);
  }

  lemma TableSize(table: seq<bv32>)
    requires IsTable(table)
    ensures |table| == 256
  {}
}

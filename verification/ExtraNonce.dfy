// The rolling extra nonce (util/util.go) and the bytes that set devices apart
// (device.go, initNonces and updateCurrentWork).
module ExtraNonce {
  import opened Words

  const TWO_TO_THE_24: nat := 0x100_0000

  // The 24 bits that roll, and the byte above them that stays.
  function Low24(v: Word): nat {
    LittleEndian(ToBytes(v)[..3])
  }

  function TopByte(v: Word): Byte {
    ToBytes(v)[3]
  }

  function RolledOver(v: Word): Word {
    if v & 0x00FF_FFFF == 0x00FF_FFFF then v & 0xFF00_0000 else Increment(v)
  }

  lemma LittleEndian3(b: seq<Byte>)
    requires |b| == 3
    ensures LittleEndian(b) == Quadruple(b[0], b[1], b[2], 0)
  {
    ZeroByte(0);
    hide Unsigned;
    assert LittleEndian(b[2..]) == Unsigned(b[2]);
    assert b[1..][1..] == b[2..];
    assert LittleEndian(b[1..]) == Unsigned(b[1]) + 0x100 * LittleEndian(b[2..]);
  }

  lemma Low24Of(v: Word)
    ensures var b := ToBytes(v);
            Low24(v) == Quadruple(b[0], b[1], b[2], 0)
  {
    hide ToBytes, LittleEndian, Quadruple;
    LittleEndian3(ToBytes(v)[..3]);
  }

  lemma RolledOverBytes(v: Word)
    ensures var b, c := ToBytes(v), ToBytes(RolledOver(v));
            && c[3] == b[3]
            && c[0] == b[0] + 1
            && c[1] == (if b[0] == 0xff then b[1] + 1 else b[1])
            && c[2] == (if b[0] == 0xff && b[1] == 0xff then b[2] + 1 else b[2])
  {
    hide Increment;
    if v & 0x00FF_FFFF != 0x00FF_FFFF {
      IncrementedBytes(v);
    } else {
      MaskedBytes(v);
    }
  }

  lemma IncrementedBytes(v: Word)
    requires v & 0x00FF_FFFF != 0x00FF_FFFF
    ensures var b, c := ToBytes(v), ToBytes(Increment(v));
            && c[3] == b[3] && Carried(b[0], b[1], b[2], b[3], c[0], c[1], c[2], c[3])
  {
  }

  lemma MaskedBytes(v: Word)
    requires v & 0x00FF_FFFF == 0x00FF_FFFF
    ensures ToBytes(v)[0] == 0xff && ToBytes(v)[1] == 0xff && ToBytes(v)[2] == 0xff
    ensures ToBytes(v & 0xFF00_0000) == [0, 0, 0, ToBytes(v)[3]]
  {
  }

  // Rolling adds one to the low 24 bits modulo 2^24 and keeps the top byte.
  lemma RollingAddsOne(v: Word)
    ensures Low24(RolledOver(v)) == (Low24(v) + 1) % TWO_TO_THE_24
    ensures TopByte(RolledOver(v)) == TopByte(v)
  {
    RolledOverBytes(v);
    Low24Of(v);
    Low24Of(RolledOver(v));
    hide ToBytes, RolledOver, Low24, Quadruple;
    var b, c := ToBytes(v), ToBytes(RolledOver(v));
    ThreeBytesCarry(b[0], b[1], b[2], c[0], c[1], c[2]);
  }

  lemma ThreeBytesCarry(b0: Byte, b1: Byte, b2: Byte, c0: Byte, c1: Byte, c2: Byte)
    requires c0 == b0 + 1 && c1 == (if b0 == 0xff then b1 + 1 else b1)
    requires c2 == (if b0 == 0xff && b1 == 0xff then b2 + 1 else b2)
    ensures Quadruple(c0, c1, c2, 0) == (Quadruple(b0, b1, b2, 0) + 1) % TWO_TO_THE_24
  {
    hide Unsigned;
    ZeroByte(0);
    NextByte(b0);
    if b0 == 0xff {
      NextByte(b1);
      NextByte(b2);
      Odometer(Unsigned(b1), Unsigned(b2), Unsigned(c1), Unsigned(c2), 0xff);
    }
    var p, q := Unsigned(b1) + 0x100 * Unsigned(b2), Unsigned(c1) + 0x100 * Unsigned(c2);
    Odometer(Unsigned(b0), p, Unsigned(c0), q, 0xffff);
    Wrapped24(Quadruple(b0, b1, b2, 0));
  }

  lemma Wrapped24(n: nat)
    requires n < TWO_TO_THE_24
    ensures (n + 1) % TWO_TO_THE_24 == if n == TWO_TO_THE_24 - 1 then 0 else n + 1
  {
  }

  function RolledTimes(v: Word, k: nat): Word {
    if k == 0 then v else RolledOver(RolledTimes(v, k - 1))
  }

  lemma {:induction false} RolledTimesFront(v: Word, k: nat)
    requires k > 0
    ensures RolledTimes(v, k) == RolledTimes(RolledOver(v), k - 1)
  {
    hide RolledOver;
    if k > 1 {
      RolledTimesFront(v, k - 1);
    }
  }

  // After k rolls: the top byte as it was, the low 24 bits k further on.
  lemma {:induction false} AfterRolls(v: Word, k: nat)
    ensures TopByte(RolledTimes(v, k)) == TopByte(v)
    ensures Low24(RolledTimes(v, k)) == (Low24(v) + k) % TWO_TO_THE_24
  {
    hide RolledOver, Low24, TopByte;
    if k == 0 {
      Low24Bound(v);
    } else {
      AfterRolls(v, k - 1);
      RollingAddsOne(RolledTimes(v, k - 1));
      NextResidue24(Low24(v) + k - 1);
    }
  }

  lemma NextResidue24(n: nat)
    ensures (n % TWO_TO_THE_24 + 1) % TWO_TO_THE_24 == (n + 1) % TWO_TO_THE_24
  {
  }

  lemma Low24Bound(v: Word)
    ensures Low24(v) < TWO_TO_THE_24
  {
    LittleEndianBound(ToBytes(v)[..3]);
    assert Pow256(3) == TWO_TO_THE_24;
  }

  // The values after j and k rolls are the same exactly if j and k agree modulo
  // 2^24.
  lemma RollsDistinct(v: Word, j: nat, k: nat)
    ensures RolledTimes(v, j) == RolledTimes(v, k) <==> j % TWO_TO_THE_24 == k % TWO_TO_THE_24
  {
    hide RolledTimes, Low24, TopByte;
    AfterRolls(v, j);
    AfterRolls(v, k);
    SumResidues24(Low24(v), j, k);
    if j % TWO_TO_THE_24 == k % TWO_TO_THE_24 {
      SameParts(RolledTimes(v, j), RolledTimes(v, k));
    }
  }

  lemma SumResidues24(a: nat, j: nat, k: nat)
    ensures (a + j) % TWO_TO_THE_24 == (a + k) % TWO_TO_THE_24 <==> j % TWO_TO_THE_24 == k % TWO_TO_THE_24
  {
  }

  lemma SameParts(v: Word, w: Word)
    requires Low24(v) == Low24(w) && TopByte(v) == TopByte(w)
    ensures v == w
  {
    Low24Of(v);
    Low24Of(w);
    hide ToBytes, Low24, Quadruple;
    var b, c := ToBytes(v), ToBytes(w);
    QuadrupleInjective(b[0], b[1], b[2], 0, c[0], c[1], c[2], 0);
    assert b == [b[0], b[1], b[2], b[3]] && c == [c[0], c[1], c[2], c[3]];
    ToBytesInjective(v, w);
  }

  // The byte a device index and a per-process random offset make.
  function DeviceByte(index: nat, offset: nat): Byte {
    ToBytes(WordOf((index + offset) % 0x100))[0]
  }

  // The first value of the second extra nonce: the device byte above 24 random
  // bits.
  function InitialNonce2(index: nat, offset: nat, random: Word): Word {
    (WordOf((index + offset) % 0x100) << 24) | (random & 0x00FF_FFFF)
  }

  lemma SmallWord(w: Word)
    requires Value(w) < 0x100
    ensures Value(w) == Unsigned(ToBytes(w)[0])
  {
    LittleEndian4(ToBytes(w));
    hide ToBytes, LittleEndian, Unsigned;
  }

  lemma ShiftedByte(w: Word, random: Word)
    ensures TopByte((w << 24) | (random & 0x00FF_FFFF)) == ToBytes(w)[0]
  {
  }

  lemma MaskedLow24(w: Word, random: Word)
    ensures Low24((w << 24) | (random & 0x00FF_FFFF)) == Low24(random)
  {
    var v := (w << 24) | (random & 0x00FF_FFFF);
    MaskedLowBytes(w, random);
    hide ToBytes, LittleEndian;
  }

  lemma MaskedLowBytes(w: Word, random: Word)
    ensures ToBytes((w << 24) | (random & 0x00FF_FFFF))[..3] == ToBytes(random)[..3]
  {
  }

  lemma InitialLow24(index: nat, offset: nat, random: Word)
    ensures Low24(InitialNonce2(index, offset, random)) == Low24(random)
  {
    MaskedLow24(WordOf((index + offset) % 0x100), random);
    hide Low24, WordOf;
  }

  lemma InitialTopByte(index: nat, offset: nat, random: Word)
    ensures TopByte(InitialNonce2(index, offset, random)) == DeviceByte(index, offset)
  {
    ShiftedByte(WordOf((index + offset) % 0x100), random);
  }

  lemma DeviceByteValue(index: nat, offset: nat)
    ensures Unsigned(DeviceByte(index, offset)) == (index + offset) % 0x100
  {
    hide ToBytes, WordOf, Value, Unsigned;
    var n := (index + offset) % 0x100;
    ValueOfWordOf(n);
    SmallWord(WordOf(n));
  }

  // Two devices of one process share the byte exactly when their indices agree
  // modulo 256.
  lemma DeviceByteShared(i: nat, j: nat, offset: nat)
    ensures DeviceByte(i, offset) == DeviceByte(j, offset) <==> i % 0x100 == j % 0x100
  {
    hide DeviceByte, Unsigned;
    DeviceByteValue(i, offset);
    DeviceByteValue(j, offset);
    SumResidues(i, j, offset);
    if i % 0x100 == j % 0x100 {
      SameByte(DeviceByte(i, offset), DeviceByte(j, offset));
    }
  }

  lemma SumResidues(i: nat, j: nat, offset: nat)
    ensures (i + offset) % 0x100 == (j + offset) % 0x100 <==> i % 0x100 == j % 0x100
  {
  }

  lemma InitialNonce2Shared(i: nat, j: nat, offset: nat, random: Word)
    requires i % 0x100 == j % 0x100
    ensures InitialNonce2(i, offset, random) == InitialNonce2(j, offset, random)
    ensures DeviceByte(i, offset) == DeviceByte(j, offset)
  {
    hide WordOf, ToBytes;
    SumResidues(i, j, offset);
  }
}

// Bytes, 32-bit words and the little-endian conversions between them, as
// encoding/binary's LittleEndian.Uint32 and PutUint32 perform them.
module Words {
  import opened Integers

  type Byte = bv8
  type Word = bv32

  // The four bytes of a word, least significant first (LittleEndian.PutUint32).
  function ToBytes(w: Word): (b: seq<Byte>)
    ensures |b| == 4
  {
    [(w & 0xff) as Byte, ((w >> 8) & 0xff) as Byte, ((w >> 16) & 0xff) as Byte, (w >> 24) as Byte]
  }

  // The word four bytes spell, least significant first (LittleEndian.Uint32).
  function FromBytes(b: seq<Byte>): Word
    requires |b| == 4
  {
    (b[0] as Word) | ((b[1] as Word) << 8) | ((b[2] as Word) << 16) | ((b[3] as Word) << 24)
  }

  lemma FromBytesToBytes(w: Word)
    ensures FromBytes(ToBytes(w)) == w
  {
  }

  lemma ToBytesFromBytes(b: seq<Byte>)
    requires |b| == 4
    ensures ToBytes(FromBytes(b)) == b
  {
  }

  lemma ToBytesInjective(v: Word, w: Word)
    requires ToBytes(v) == ToBytes(w)
    ensures v == w
  {
    FromBytesToBytes(v);
    FromBytesToBytes(w);
  }

  // The k-th group of four bytes.
  function Slot(b: seq<Byte>, k: nat): (r: seq<Byte>)
    requires 4 * k + 4 <= |b|
    ensures |r| == 4
  {
    b[4 * k..4 * k + 4]
  }

  function WordsOf(b: seq<Byte>): (ws: seq<Word>)
    requires |b| % 4 == 0
    ensures |ws| == |b| / 4
  {
    seq(|b| / 4, i requires 0 <= i < |b| / 4 => FromBytes(Slot(b, i)))
  }

  function BytesOf(ws: seq<Word>): (b: seq<Byte>)
    ensures |b| == 4 * |ws|
    ensures forall i :: 0 <= i < |ws| ==> Slot(b, i) == ToBytes(ws[i])
  {
    if ws == [] then [] else
      var rest := BytesOf(ws[1..]);
      var b := ToBytes(ws[0]) + rest;
      assert forall i :: 1 <= i < |ws| ==> Slot(b, i) == Slot(rest, i - 1);
      b
  }

  // Byte strings that agree four bytes at a time are equal.
  lemma SameSlots(a: seq<Byte>, b: seq<Byte>)
    requires |a| == |b| && |a| % 4 == 0
    requires forall k :: 0 <= k < |a| / 4 ==> Slot(a, k) == Slot(b, k)
    ensures a == b
  {
    forall i | 0 <= i < |a|
      ensures a[i] == b[i]
    {
      var k, r := i / 4, i % 4;
      assert i == 4 * k + r && Slot(a, k) == Slot(b, k);
      assert a[i] == Slot(a, k)[r] && b[i] == Slot(b, k)[r];
    }
  }

  // The value of a byte as an unsigned integer.
  function Unsigned(b: Byte): (n: nat)
    ensures n < 0x100
  {
    b as int
  }

  // The natural number a byte string denotes, least significant byte first.
  function LittleEndian(b: seq<Byte>): nat {
    if b == [] then 0 else Unsigned(b[0]) + 0x100 * LittleEndian(b[1..])
  }

  // The natural number a byte string denotes, most significant byte first
  // (math/big.Int.SetBytes).
  function BigEndian(b: seq<Byte>): nat {
    if b == [] then 0 else 0x100 * BigEndian(b[..|b| - 1]) + Unsigned(b[|b| - 1])
  }

  function Pow256(n: nat): (p: nat)
    ensures p > 0
  {
    if n == 0 then 1 else 0x100 * Pow256(n - 1)
  }

  lemma {:induction false} LittleEndianBound(b: seq<Byte>)
    ensures LittleEndian(b) < Pow256(|b|)
  {
    hide Unsigned;
    if b != [] {
      LittleEndianBound(b[1..]);
    }
  }

  lemma {:induction false} LittleEndianSplit(b: seq<Byte>, n: nat)
    requires n <= |b|
    ensures LittleEndian(b) == LittleEndian(b[..n]) + Pow256(n) * LittleEndian(b[n..])
  {
    hide Unsigned;
    if n == 0 {
      assert b[..0] == [] && b[0..] == b;
    } else {
      LittleEndianSplit(b[1..], n - 1);
      assert b[..n][1..] == b[1..][..n - 1];
      assert b[n..] == b[1..][n - 1..];
      ScaleBy256(LittleEndian(b[1..][..n - 1]), Pow256(n - 1), LittleEndian(b[n..]));
    }
  }

  lemma ScaleBy256(low: nat, p: nat, high: nat)
    ensures 0x100 * (low + p * high) == 0x100 * low + (0x100 * p) * high
  {
  }

  // The value of a word as an unsigned integer.
  function Value(w: Word): nat {
    LittleEndian(ToBytes(w))
  }

  lemma ZeroByte(b: Byte)
    ensures Unsigned(b) == 0 <==> b == 0
  {
  }

  lemma NextByte(b: Byte)
    ensures Unsigned(b + 1) == if b == 0xff then 0 else Unsigned(b) + 1
    ensures b == 0xff <==> Unsigned(b) == 0xff
  {
  }

  lemma SameByte(a: Byte, b: Byte)
    requires Unsigned(a) == Unsigned(b)
    ensures a == b
  {
  }

  // The number four bytes denote, least significant first.
  function Quadruple(b0: Byte, b1: Byte, b2: Byte, b3: Byte): nat {
    Unsigned(b0) + 0x100 * Unsigned(b1) + 0x1_0000 * Unsigned(b2) + 0x100_0000 * Unsigned(b3)
  }

  lemma LittleEndian4(b: seq<Byte>)
    requires |b| == 4
    ensures LittleEndian(b) == Quadruple(b[0], b[1], b[2], b[3])
  {
    hide Unsigned;
    assert LittleEndian(b[3..]) == Unsigned(b[3]);
    assert b[2..][1..] == b[3..];
    assert LittleEndian(b[2..]) == Unsigned(b[2]) + 0x100 * LittleEndian(b[3..]);
    assert b[1..][1..] == b[2..];
    assert LittleEndian(b[1..]) == Unsigned(b[1]) + 0x100 * LittleEndian(b[2..]);
  }

  // How the bytes of a word change when it is incremented: the carry runs
  // through the leading 0xff bytes and stops at the first other one.
  predicate Carried(b0: Byte, b1: Byte, b2: Byte, b3: Byte, c0: Byte, c1: Byte, c2: Byte, c3: Byte) {
    && c0 == b0 + 1
    && c1 == (if b0 == 0xff then b1 + 1 else b1)
    && c2 == (if b0 == 0xff && b1 == 0xff then b2 + 1 else b2)
    && c3 == (if b0 == 0xff && b1 == 0xff && b2 == 0xff then b3 + 1 else b3)
  }

  lemma IncrementCarries(w: Word)
    ensures var b, c := ToBytes(w), ToBytes(Increment(w));
            Carried(b[0], b[1], b[2], b[3], c[0], c[1], c[2], c[3])
  {
  }

  // Adding one to a number whose last digit to the base 256 is b; top is the
  // most the other digits can be.
  lemma Odometer(b: nat, p: nat, c: nat, q: nat, top: nat)
    requires b < 0x100 && p <= top
    requires if b == 0xff then c == 0 && q == (if p == top then 0 else p + 1) else c == b + 1 && q == p
    ensures c + 0x100 * q == if b + 0x100 * p == 0xff + 0x100 * top then 0 else b + 0x100 * p + 1
  {
  }

  lemma CarriedValue(b0: Byte, b1: Byte, b2: Byte, b3: Byte, c0: Byte, c1: Byte, c2: Byte, c3: Byte)
    requires Carried(b0, b1, b2, b3, c0, c1, c2, c3)
    ensures Quadruple(c0, c1, c2, c3) == (Quadruple(b0, b1, b2, b3) + 1) % TWO_TO_THE_32
  {
    hide Unsigned;
    var p, q := Unsigned(b2) + 0x100 * Unsigned(b3), Unsigned(c2) + 0x100 * Unsigned(c3);
    NextByte(b0);
    if b0 == 0xff {
      NextByte(b1);
      if b1 == 0xff {
        NextByte(b2);
        NextByte(b3);
        Odometer(Unsigned(b2), Unsigned(b3), Unsigned(c2), Unsigned(c3), 0xff);
      }
      Odometer(Unsigned(b1), p, Unsigned(c1), q, 0xffff);
    }
    Odometer(Unsigned(b0), Unsigned(b1) + 0x100 * p, Unsigned(c0), Unsigned(c1) + 0x100 * q, 0xff_ffff);
    Wrapped(Quadruple(b0, b1, b2, b3));
  }

  lemma Wrapped(n: nat)
    requires n < TWO_TO_THE_32
    ensures (n + 1) % TWO_TO_THE_32 == if n == TWO_TO_THE_32 - 1 then 0 else n + 1
  {
  }

  function Increment(w: Word): Word {
    w + 1
  }

  function Add(x: Word, y: Word): Word { x + y }

  lemma ValueIncrement(w: Word)
    ensures Value(Increment(w)) == (Value(w) + 1) % TWO_TO_THE_32
  {
    IncrementCarries(w);
    hide ToBytes, Carried, LittleEndian, Increment, Quadruple;
    var b, c := ToBytes(w), ToBytes(Increment(w));
    LittleEndian4(b);
    LittleEndian4(c);
    CarriedValue(b[0], b[1], b[2], b[3], c[0], c[1], c[2], c[3]);
  }

  // The low 32 bits of a natural number, as the conversion of a work-item id
  // or of any other unsigned integer to uint32 leaves them.
  function WordOf(n: nat): Word {
    if n == 0 then 0 else Increment(WordOf(n - 1))
  }

  lemma ValueZero()
    ensures Value(0) == 0
  {
    LittleEndian4(ToBytes(0));
    ZeroByte(0);
    hide Unsigned;
  }

  lemma {:induction false} ValueOfWordOf(n: nat)
    ensures Value(WordOf(n)) == n % TWO_TO_THE_32
  {
    hide Value, Increment;
    if n == 0 {
      ValueZero();
    } else {
      ValueOfWordOf(n - 1);
      ValueIncrement(WordOf(n - 1));
      NextResidue(n - 1);
    }
  }

  lemma NextResidue(n: nat)
    ensures (n % TWO_TO_THE_32 + 1) % TWO_TO_THE_32 == (n + 1) % TWO_TO_THE_32
  {
  }

  lemma WordOfInjective(m: nat, n: nat)
    requires m < TWO_TO_THE_32 && n < TWO_TO_THE_32 && WordOf(m) == WordOf(n)
    ensures m == n
  {
    hide Value, WordOf;
    ValueOfWordOf(m);
    ValueOfWordOf(n);
  }

  lemma ValueBelow(w: Word)
    ensures Value(w) < TWO_TO_THE_32
  {
    LittleEndianBound(ToBytes(w));
    assert Pow256(4) == TWO_TO_THE_32;
  }

  // Words add as numbers do, modulo 2^32.
  lemma ValueAdds(v: Word, w: Word)
    ensures Value(Add(v, w)) == (Value(v) + Value(w)) % TWO_TO_THE_32
  {
    hide *;
    WordOfValue(w);
    ValueAddsTo(v, Value(w));
  }

  lemma WordOfValue(w: Word)
    ensures WordOf(Value(w)) == w
  {
    hide WordOf, Value;
    ValueBelow(w);
    ValueOfWordOf(Value(w));
    ValueInjective(WordOf(Value(w)), w);
  }

  lemma {:induction false} ValueAddsTo(v: Word, n: nat)
    ensures Value(Add(v, WordOf(n))) == (Value(v) + n) % TWO_TO_THE_32
  {
    hide Value, Add, Increment;
    if n == 0 {
      ValueBelow(v);
      AddZero(v);
    } else {
      ValueAddsTo(v, n - 1);
      AddOneLater(v, WordOf(n - 1));
      ValueIncrement(Add(v, WordOf(n - 1)));
      NextResidue(Value(v) + n - 1);
    }
  }

  lemma AddZero(v: Word)
    ensures Add(v, 0) == v
  {
  }

  lemma AddOneLater(v: Word, w: Word)
    ensures Add(v, Increment(w)) == Increment(Add(v, w))
  {
    hide Add, Increment;
    IncrementIs(w);
    AddOne(v, w);
    AddIs(v, w);
  }

  lemma IncrementIs(w: Word)
    ensures Increment(w) == w + 1
  {
  }

  lemma AddIs(v: Word, w: Word)
    ensures Add(v, w) == v + w
  {
  }

  lemma AddOne(v: Word, w: Word)
    ensures Add(v, w + 1) == Increment(v + w)
  {
  }

  lemma ZeroBytes(b: seq<Byte>)
    requires |b| == 4
    ensures FromBytes(b) == 0 <==> b[0] == 0 && b[1] == 0 && b[2] == 0 && b[3] == 0
  {
  }

  lemma ZeroQuadruple(b: seq<Byte>)
    requires |b| == 4
    ensures FromBytes(b) == 0 <==> LittleEndian(b) == 0
  {
    ZeroBytes(b);
    LittleEndian4(b);
    hide FromBytes, Unsigned, LittleEndian;
    ZeroByte(b[0]);
    ZeroByte(b[1]);
    ZeroByte(b[2]);
    ZeroByte(b[3]);
  }

  // A 256-bit little-endian number is below 2^224 exactly when its last
  // 32-bit word is zero.
  lemma LastWordZero(b: seq<Byte>)
    requires |b| == 32
    ensures FromBytes(b[28..32]) == 0 <==> LittleEndian(b) < Pow256(28)
  {
    hide *;
    var high := b[28..32];
    ZeroQuadruple(high);
    LittleEndianSplit(b, 28);
    LittleEndianBound(b[..28]);
    assert b[28..] == high;
    AtLeastOne(Pow256(28), LittleEndian(high));
  }

  // A 256-bit little-endian number whose last word is one.
  lemma LastWordOne(b: seq<Byte>)
    requires |b| == 32 && FromBytes(b[28..32]) == 1
    ensures Pow256(28) <= LittleEndian(b) < 2 * Pow256(28)
  {
    hide *;
    OneQuadruple(b[28..32]);
    LittleEndianSplit(b, 28);
    LittleEndianBound(b[..28]);
    assert b[28..] == b[28..32];
  }

  lemma OneQuadruple(b: seq<Byte>)
    requires |b| == 4 && FromBytes(b) == 1
    ensures LittleEndian(b) == 1
  {
    hide FromBytes, ToBytes, Unsigned, LittleEndian;
    ToBytesFromBytes(b);
    ValueOne();
  }

  lemma ValueOne()
    ensures Value(1) == 1
  {
    LittleEndian4(ToBytes(1));
  }

  lemma {:induction false} Pow256IsPow2(n: nat)
    ensures Pow256(n) == Pow2(8 * n)
  {
    if n > 0 {
      Pow256IsPow2(n - 1);
      EighthPower();
      Pow2Adds(8, 8 * (n - 1));
    }
  }

  lemma AtLeastOne(p: nat, k: nat)
    requires p > 0
    ensures k == 0 ==> p * k == 0
    ensures k > 0 ==> p * k >= p
  {
  }

  // Overwriting four bytes of a buffer with a word (LittleEndian.PutUint32).
  function Put(b: seq<Byte>, at: nat, w: Word): (r: seq<Byte>)
    requires at + 4 <= |b|
    ensures |r| == |b|
  {
    b[..at] + ToBytes(w) + b[at + 4..]
  }

  method PutUint32(b: array<Byte>, at: nat, w: Word)
    requires at + 4 <= b.Length
    modifies b
    ensures b[..] == Put(old(b[..]), at, w)
  {
    hide ToBytes;
    var bytes := ToBytes(w);
    b[at] := bytes[0];
    b[at + 1] := bytes[1];
    b[at + 2] := bytes[2];
    b[at + 3] := bytes[3];
  }

  lemma SlotOfPut(b: seq<Byte>, k: nat, w: Word, j: nat)
    requires 4 * k + 4 <= |b| && 4 * j + 4 <= |b|
    ensures Slot(Put(b, 4 * k, w), j) == if j == k then ToBytes(w) else Slot(b, j)
  {
    hide ToBytes;
  }

  // The word stored at an offset of a buffer.
  function Get(b: seq<Byte>, at: nat): Word
    requires at + 4 <= |b|
  {
    FromBytes(b[at..at + 4])
  }

  lemma GetPut(b: seq<Byte>, at: nat, w: Word)
    requires at + 4 <= |b|
    ensures Get(Put(b, at, w), at) == w
  {
    FromBytesToBytes(w);
    hide FromBytes, ToBytes;
    assert Put(b, at, w)[at..at + 4] == ToBytes(w);
  }

  lemma GetPutOther(b: seq<Byte>, at: nat, w: Word, other: nat)
    requires at + 4 <= |b| && other + 4 <= |b|
    requires other + 4 <= at || at + 4 <= other
    ensures Get(Put(b, at, w), other) == Get(b, other)
  {
    hide FromBytes, ToBytes;
    assert Put(b, at, w)[other..other + 4] == b[other..other + 4];
  }

  // A number has one last digit to the base 256.
  lemma LastDigit(a: nat, b: nat, p: nat, q: nat)
    requires a < 0x100 && b < 0x100 && a + 0x100 * p == b + 0x100 * q
    ensures a == b && p == q
  {
  }

  lemma QuadrupleInjective(b0: Byte, b1: Byte, b2: Byte, b3: Byte, c0: Byte, c1: Byte, c2: Byte, c3: Byte)
    requires Quadruple(b0, b1, b2, b3) == Quadruple(c0, c1, c2, c3)
    ensures b0 == c0 && b1 == c1 && b2 == c2 && b3 == c3
  {
    hide Unsigned;
    var p, q := Unsigned(b2) + 0x100 * Unsigned(b3), Unsigned(c2) + 0x100 * Unsigned(c3);
    LastDigit(Unsigned(b0), Unsigned(c0), Unsigned(b1) + 0x100 * p, Unsigned(c1) + 0x100 * q);
    LastDigit(Unsigned(b1), Unsigned(c1), p, q);
    LastDigit(Unsigned(b2), Unsigned(c2), Unsigned(b3), Unsigned(c3));
    SameByte(b0, c0);
    SameByte(b1, c1);
    SameByte(b2, c2);
    SameByte(b3, c3);
  }

  lemma ValueInjective(v: Word, w: Word)
    requires Value(v) == Value(w)
    ensures v == w
  {
    hide ToBytes, LittleEndian, Quadruple;
    var b, c := ToBytes(v), ToBytes(w);
    LittleEndian4(b);
    LittleEndian4(c);
    QuadrupleInjective(b[0], b[1], b[2], b[3], c[0], c[1], c[2], c[3]);
    assert b == [b[0], b[1], b[2], b[3]] && c == [c[0], c[1], c[2], c[3]];
    ToBytesInjective(v, w);
  }

  lemma WordOf52()
    ensures WordOf(52) == 52
  {
    hide WordOf, Value;
    ValueOf52();
    ValueOfWordOf(52);
    ValueInjective(WordOf(52), 52);
  }

  lemma ValueOf52()
    ensures Value(52) == 52
  {
    LittleEndian4(ToBytes(52));
  }

  lemma WordOf64()
    ensures WordOf(64) == 64
  {
    hide WordOf, Value;
    ValueOf64();
    ValueOfWordOf(64);
    ValueInjective(WordOf(64), 64);
  }

  lemma ValueOf64()
    ensures Value(64) == 64
  {
    LittleEndian4(ToBytes(64));
  }
}

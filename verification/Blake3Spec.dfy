// BLAKE3 as its paper defines it: the compression function of section 2.2 and
// the chunk chaining of section 2.4, over one chunk that is also the root.
module Blake3Spec {
  import opened Words

  const IV: seq<Word> := [
    0x6a09e667, 0xbb67ae85, 0x3c6ef372, 0xa54ff53a,
    0x510e527f, 0x9b05688c, 0x1f83d9ab, 0x5be0cd19
  ]

  const CHUNK_START: Word := 1
  const CHUNK_END: Word := 2
  const ROOT: Word := 8

  const BLOCK_LEN: nat := 64
  const CHUNK_LEN: nat := 1024

  // Word arithmetic: addition modulo 2^32, exclusive or, rotation to the right.
  function Add3(x: Word, y: Word, z: Word): Word { x + y + z }

  function Xor(x: Word, y: Word): Word { x ^ y }

  function RotateRight(x: Word, n: Word): Word
    requires n <= 32
  {
    (x >> n) | (x << (32 - n))
  }

  // A rotation to the left, by an amount modulo 32, as programs have it
  // (math/bits.RotateLeft32, OpenCL's rotate).
  function RotateLeft(x: Word, k: Word): Word {
    var s := k & 31;
    (x << s) | (x >> (32 - s))
  }

  // A program's operators, by the names above.
  lemma Sum3(x: Word, y: Word, z: Word)
    ensures x + y + z == Add3(x, y, z)
    ensures x + (y + z) == Add3(x, y, z)
  {
  }

  lemma Sum(x: Word, y: Word)
    ensures x + y == Add(x, y)
  {
  }

  lemma ExclusiveOr(x: Word, y: Word)
    ensures x ^ y == Xor(x, y)
  {
  }

  // One column or diagonal of the state.
  datatype Quad = Quad(a: Word, b: Word, c: Word, d: Word)

  function QuarterRound(q: Quad, mx: Word, my: Word): Quad {
    var a1 := Add3(q.a, q.b, mx);
    var d1 := RotateRight(Xor(q.d, a1), 16);
    var c1 := Add(q.c, d1);
    var b1 := RotateRight(Xor(q.b, c1), 12);
    var a2 := Add3(a1, b1, my);
    var d2 := RotateRight(Xor(d1, a2), 8);
    var c2 := Add(c1, d2);
    var b2 := RotateRight(Xor(b1, c2), 7);
    Quad(a2, b2, c2, d2)
  }

  // The 4x4 internal state, row by row.
  datatype State = State(
    v0: Word, v1: Word, v2: Word, v3: Word,
    v4: Word, v5: Word, v6: Word, v7: Word,
    v8: Word, v9: Word, v10: Word, v11: Word,
    v12: Word, v13: Word, v14: Word, v15: Word)

  // The sixteen words of one message block.
  datatype Message = Message(
    m0: Word, m1: Word, m2: Word, m3: Word, m4: Word, m5: Word, m6: Word, m7: Word,
    m8: Word, m9: Word, m10: Word, m11: Word, m12: Word, m13: Word, m14: Word, m15: Word)

  function MessageOf(w: seq<Word>): Message
    requires |w| == 16
  {
    Message(w[0], w[1], w[2], w[3], w[4], w[5], w[6], w[7],
            w[8], w[9], w[10], w[11], w[12], w[13], w[14], w[15])
  }

  // The four quarter rounds on the columns, then the four on the diagonals.
  function Round(s: State, m: Message): State {
    hide QuarterRound;
    var g0 := QuarterRound(Quad(s.v0, s.v4, s.v8, s.v12), m.m0, m.m1);
    var g1 := QuarterRound(Quad(s.v1, s.v5, s.v9, s.v13), m.m2, m.m3);
    var g2 := QuarterRound(Quad(s.v2, s.v6, s.v10, s.v14), m.m4, m.m5);
    var g3 := QuarterRound(Quad(s.v3, s.v7, s.v11, s.v15), m.m6, m.m7);
    var g4 := QuarterRound(Quad(g0.a, g1.b, g2.c, g3.d), m.m8, m.m9);
    var g5 := QuarterRound(Quad(g1.a, g2.b, g3.c, g0.d), m.m10, m.m11);
    var g6 := QuarterRound(Quad(g2.a, g3.b, g0.c, g1.d), m.m12, m.m13);
    var g7 := QuarterRound(Quad(g3.a, g0.b, g1.c, g2.d), m.m14, m.m15);
    State(g4.a, g5.a, g6.a, g7.a,
          g7.b, g4.b, g5.b, g6.b,
          g6.c, g7.c, g4.c, g5.c,
          g5.d, g6.d, g7.d, g4.d)
  }

  // The message word permutation applied between rounds.
  function Permute(m: Message): Message {
    Message(m.m2, m.m6, m.m3, m.m10, m.m7, m.m0, m.m4, m.m13,
            m.m1, m.m11, m.m12, m.m5, m.m9, m.m14, m.m15, m.m8)
  }

  // The message of each round: every round after the first permutes the words
  // once more.
  function Schedule(m: Message, n: nat): (ms: seq<Message>)
    ensures |ms| == n
    decreases n
  {
    if n == 0 then [] else [m] + Schedule(Permute(m), n - 1)
  }

  function Rounds(s: State, ms: seq<Message>): State
    decreases |ms|
  {
    if ms == [] then s else Rounds(Round(s, ms[0]), ms[1..])
  }

  function Initial(cv: seq<Word>, t0: Word, t1: Word, blockLen: Word, flags: Word): State
    requires |cv| == 8
  {
    State(cv[0], cv[1], cv[2], cv[3],
          cv[4], cv[5], cv[6], cv[7],
          IV[0], IV[1], IV[2], IV[3],
          t0, t1, blockLen, flags)
  }

  // The first 256 bits of the compression function's output: the upper half of
  // the final state exclusive-ored with the lower half.
  function Truncated(s: State): (out: seq<Word>)
    ensures |out| == 8
  {
    [Xor(s.v0, s.v8), Xor(s.v1, s.v9), Xor(s.v2, s.v10), Xor(s.v3, s.v11),
     Xor(s.v4, s.v12), Xor(s.v5, s.v13), Xor(s.v6, s.v14), Xor(s.v7, s.v15)]
  }

  function Compress(cv: seq<Word>, m: Message, t0: Word, t1: Word, blockLen: Word, flags: Word): (out: seq<Word>)
    requires |cv| == 8
    ensures |out| == 8
  {
    Truncated(Rounds(Initial(cv, t0, t1, blockLen, flags), Schedule(m, 7)))
  }

  // A block shorter than 64 bytes is padded with zeros.
  function Padded(b: seq<Byte>): (p: seq<Byte>)
    requires |b| <= BLOCK_LEN
    ensures |p| == BLOCK_LEN
  {
    b + seq(BLOCK_LEN - |b|, _ => 0)
  }

  // The chaining value after one block of chunk number 0, truncated to 256 bits.
  function BlockOutput(cv: seq<Word>, b: seq<Byte>, flags: Word): (out: seq<Word>)
    requires |cv| == 8 && |b| <= BLOCK_LEN
    ensures |out| == 8
  {
    Compress(cv, MessageOf(WordsOf(Padded(b))), 0, 0, WordOf(|b|), flags)
  }

  // The blocks of a chunk chained from cv; the last one carries the chunk-end
  // and root flags, the first one the chunk-start flag.
  function ChainBlocks(cv: seq<Word>, b: seq<Byte>, start: Word): (out: seq<Word>)
    requires |cv| == 8
    ensures |out| == 8
    decreases |b|
  {
    if |b| <= BLOCK_LEN then BlockOutput(cv, b, start | CHUNK_END | ROOT)
    else ChainBlocks(BlockOutput(cv, b[..BLOCK_LEN], start), b[BLOCK_LEN..], 0)
  }

  // BLAKE3-256 of an input that fits in one chunk.
  function Hash(b: seq<Byte>): (h: seq<Byte>)
    requires |b| <= CHUNK_LEN
    ensures |h| == 32
  {
    BytesOf(ChainBlocks(IV, b, CHUNK_START))
  }

  // A round from its eight quarter rounds: g0..g3 the columns, g4..g7 the
  // diagonals of the state they leave.
  lemma RoundOf(s: State, m: Message, g0: Quad, g1: Quad, g2: Quad, g3: Quad, g4: Quad, g5: Quad, g6: Quad, g7: Quad)
    requires g0 == QuarterRound(Quad(s.v0, s.v4, s.v8, s.v12), m.m0, m.m1)
    requires g1 == QuarterRound(Quad(s.v1, s.v5, s.v9, s.v13), m.m2, m.m3)
    requires g2 == QuarterRound(Quad(s.v2, s.v6, s.v10, s.v14), m.m4, m.m5)
    requires g3 == QuarterRound(Quad(s.v3, s.v7, s.v11, s.v15), m.m6, m.m7)
    requires g4 == QuarterRound(Quad(g0.a, g1.b, g2.c, g3.d), m.m8, m.m9)
    requires g5 == QuarterRound(Quad(g1.a, g2.b, g3.c, g0.d), m.m10, m.m11)
    requires g6 == QuarterRound(Quad(g2.a, g3.b, g0.c, g1.d), m.m12, m.m13)
    requires g7 == QuarterRound(Quad(g3.a, g0.b, g1.c, g2.d), m.m14, m.m15)
    ensures Round(s, m) == State(g4.a, g5.a, g6.a, g7.a, g7.b, g4.b, g5.b, g6.b,
                                 g6.c, g7.c, g4.c, g5.c, g5.d, g6.d, g7.d, g4.d)
  {
    hide QuarterRound;
  }

  // Seven rounds, each under the message permuted once more.
  lemma SevenRounds(s: State, m0: Message)
    ensures var m1 := Permute(m0);
            var m2 := Permute(m1);
            var m3 := Permute(m2);
            var m4 := Permute(m3);
            var m5 := Permute(m4);
            var m6 := Permute(m5);
            Rounds(s, Schedule(m0, 7)) == Round(Round(Round(Round(Round(Round(Round(s, m0), m1), m2), m3), m4), m5), m6)
  {
    hide Round, Permute;
    RoundsStep(s, m0, 6);
    var s1, m1 := Round(s, m0), Permute(m0);
    RoundsStep(s1, m1, 5);
    var s2, m2 := Round(s1, m1), Permute(m1);
    RoundsStep(s2, m2, 4);
    var s3, m3 := Round(s2, m2), Permute(m2);
    RoundsStep(s3, m3, 3);
    var s4, m4 := Round(s3, m3), Permute(m3);
    RoundsStep(s4, m4, 2);
    var s5, m5 := Round(s4, m4), Permute(m4);
    RoundsStep(s5, m5, 1);
    var s6, m6 := Round(s5, m5), Permute(m5);
    RoundsStep(s6, m6, 0);
  }

  lemma RoundsStep(s: State, m: Message, n: nat)
    ensures Rounds(s, Schedule(m, n + 1)) == Rounds(Round(s, m), Schedule(Permute(m), n))
  {
    hide Round, Permute;
    assert Schedule(m, n + 1)[1..] == Schedule(Permute(m), n);
  }
}

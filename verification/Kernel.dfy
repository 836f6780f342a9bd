// The OpenCL kernel (blake3.cl): seven unrolled rounds specialised to the final
// 52-byte block of a header, the zero-word filter, and the candidate buffer.
module Kernel {
  import opened Words
  import opened Blake3Spec

  function ROTR(v: Word, n: Word): Word {
    RotateLeft(v, 32 - n)
  }

  // The kernel's operators as the definition names them, with the terms that a
  // zero word drops.
  lemma Rotations(x: Word)
    ensures ROTR(x, 16) == RotateRight(x, 16)
    ensures ROTR(x, 12) == RotateRight(x, 12)
    ensures ROTR(x, 8) == RotateRight(x, 8)
    ensures ROTR(x, 7) == RotateRight(x, 7)
  {
  }

  lemma SumZero(x: Word, y: Word)
    ensures x + y == Add3(x, y, 0)
  {
    hide *;
    Sum3(x, y, 0);
    PlusZero(x + y);
  }

  lemma PlusZero(x: Word)
    ensures x + 0 == x
  {
  }

  lemma XorZero(x: Word)
    ensures x == Xor(0, x)
  {
  }

  // A line of the kernel with both message words.
  method Mix(a0: Word, b0: Word, c0: Word, d0: Word, mx: Word, my: Word) returns (a: Word, b: Word, c: Word, d: Word)
    ensures Quad(a, b, c, d) == QuarterRound(Quad(a0, b0, c0, d0), mx, my)
  {
    hide ROTR, RotateRight, Add3, Add, Xor;
    Sum3(a0, b0, mx);
    a := a0 + b0 + mx;
    ExclusiveOr(d0, a);
    Rotations(d0 ^ a);
    d := ROTR(d0 ^ a, 16);
    Sum(c0, d);
    c := c0 + d;
    ExclusiveOr(b0, c);
    Rotations(b0 ^ c);
    b := ROTR(b0 ^ c, 12);
    Sum3(a, b, my);
    a := a + (b + my);
    ExclusiveOr(d, a);
    Rotations(d ^ a);
    d := ROTR(d ^ a, 8);
    Sum(c, d);
    c := c + d;
    ExclusiveOr(b, c);
    Rotations(b ^ c);
    b := ROTR(b ^ c, 7);
  }

  // A line whose second message word is one of the three zero words, and left out.
  method MixFirst(a0: Word, b0: Word, c0: Word, d0: Word, mx: Word) returns (a: Word, b: Word, c: Word, d: Word)
    ensures Quad(a, b, c, d) == QuarterRound(Quad(a0, b0, c0, d0), mx, 0)
  {
    hide ROTR, RotateRight, Add3, Add, Xor;
    Sum3(a0, b0, mx);
    a := a0 + b0 + mx;
    ExclusiveOr(d0, a);
    Rotations(d0 ^ a);
    d := ROTR(d0 ^ a, 16);
    Sum(c0, d);
    c := c0 + d;
    ExclusiveOr(b0, c);
    Rotations(b0 ^ c);
    b := ROTR(b0 ^ c, 12);
    SumZero(a, b);
    a := a + b;
    ExclusiveOr(d, a);
    Rotations(d ^ a);
    d := ROTR(d ^ a, 8);
    Sum(c, d);
    c := c + d;
    ExclusiveOr(b, c);
    Rotations(b ^ c);
    b := ROTR(b ^ c, 7);
  }

  // A line whose first message word is left out.
  method MixSecond(a0: Word, b0: Word, c0: Word, d0: Word, my: Word) returns (a: Word, b: Word, c: Word, d: Word)
    ensures Quad(a, b, c, d) == QuarterRound(Quad(a0, b0, c0, d0), 0, my)
  {
    hide ROTR, RotateRight, Add3, Add, Xor;
    SumZero(a0, b0);
    a := a0 + b0;
    ExclusiveOr(d0, a);
    Rotations(d0 ^ a);
    d := ROTR(d0 ^ a, 16);
    Sum(c0, d);
    c := c0 + d;
    ExclusiveOr(b0, c);
    Rotations(b0 ^ c);
    b := ROTR(b0 ^ c, 12);
    Sum3(a, b, my);
    a := a + (b + my);
    ExclusiveOr(d, a);
    Rotations(d ^ a);
    d := ROTR(d ^ a, 8);
    Sum(c, d);
    c := c + d;
    ExclusiveOr(b, c);
    Rotations(b ^ c);
    b := ROTR(b ^ c, 7);
  }

  // A line with no message word at all.
  method MixNeither(a0: Word, b0: Word, c0: Word, d0: Word) returns (a: Word, b: Word, c: Word, d: Word)
    ensures Quad(a, b, c, d) == QuarterRound(Quad(a0, b0, c0, d0), 0, 0)
  {
    hide ROTR, RotateRight, Add3, Add, Xor;
    SumZero(a0, b0);
    a := a0 + b0;
    ExclusiveOr(d0, a);
    Rotations(d0 ^ a);
    d := ROTR(d0 ^ a, 16);
    Sum(c0, d);
    c := c0 + d;
    ExclusiveOr(b0, c);
    Rotations(b0 ^ c);
    b := ROTR(b0 ^ c, 12);
    SumZero(a, b);
    a := a + b;
    ExclusiveOr(d, a);
    Rotations(d ^ a);
    d := ROTR(d ^ a, 8);
    Sum(c, d);
    c := c + d;
    ExclusiveOr(b, c);
    Rotations(b ^ c);
    b := ROTR(b ^ c, 7);
  }

  // A first-round line with the zero counter word left out of the exclusive or.
  method MixZero(a0: Word, b0: Word, c0: Word, mx: Word, my: Word) returns (a: Word, b: Word, c: Word, d: Word)
    ensures Quad(a, b, c, d) == QuarterRound(Quad(a0, b0, c0, 0), mx, my)
  {
    hide ROTR, RotateRight, Add3, Add, Xor;
    Sum3(a0, b0, mx);
    a := a0 + b0 + mx;
    XorZero(a);
    Rotations(a);
    d := ROTR(a, 16);
    Sum(c0, d);
    c := c0 + d;
    ExclusiveOr(b0, c);
    Rotations(b0 ^ c);
    b := ROTR(b0 ^ c, 12);
    Sum3(a, b, my);
    a := a + (b + my);
    ExclusiveOr(d, a);
    Rotations(d ^ a);
    d := ROTR(d ^ a, 8);
    Sum(c, d);
    c := c + d;
    ExclusiveOr(b, c);
    Rotations(b ^ c);
    b := ROTR(b ^ c, 7);
  }

  // The block length and flags folded into the kernel: 52 bytes, chunk end and
  // root.
  const TAIL_LEN: Word := 52
  const TAIL_FLAGS: Word := 10

  // The message of the kernel's block: twelve arguments around the nonce, and
  // three zero words.
  function TailMessage(m: seq<Word>, nonce: Word): Message
    requires |m| == 12
  {
    Message(m[0], m[1], m[2], nonce, m[3], m[4], m[5], m[6], m[7], m[8], m[9], m[10], m[11], 0, 0, 0)
  }

  // The final state of the kernel's compression, for every midstate and every
  // message whose last three words are zero.
  method FinalState(
      cv0: Word, cv1: Word, cv2: Word, cv3: Word, cv4: Word, cv5: Word, cv6: Word, cv7: Word,
      m0: Word, m1: Word, m2: Word, m3: Word, m4: Word, m5: Word, m6: Word,
      m7: Word, m8: Word, m9: Word, m10: Word, m11: Word, m12: Word)
    returns (
      v0: Word, v1: Word, v2: Word, v3: Word, v4: Word, v5: Word, v6: Word, v7: Word,
      v8: Word, v9: Word, v10: Word, v11: Word, v12: Word, v13: Word, v14: Word, v15: Word)
    ensures State(v0, v1, v2, v3, v4, v5, v6, v7, v8, v9, v10, v11, v12, v13, v14, v15) ==
            Rounds(Initial([cv0, cv1, cv2, cv3, cv4, cv5, cv6, cv7], 0, 0, TAIL_LEN, TAIL_FLAGS),
                   Schedule(Message(m0, m1, m2, m3, m4, m5, m6, m7, m8, m9, m10, m11, m12, 0, 0, 0), 7))
  {
    hide QuarterRound, Round, Rounds, Schedule;
    var iv0, iv1, iv2, iv3 := 0x6a09e667 as Word, 0xbb67ae85 as Word, 0x3c6ef372 as Word, 0xa54ff53a as Word;
    ghost var s0 := Initial([cv0, cv1, cv2, cv3, cv4, cv5, cv6, cv7], 0, 0, TAIL_LEN, TAIL_FLAGS);
    ghost var w0 := Message(m0, m1, m2, m3, m4, m5, m6, m7, m8, m9, m10, m11, m12, 0, 0, 0);

    // Do the initialization and first round together.
    // Round 1.
    v0, v4, v8, v12 := MixZero(cv0, cv4, iv0, m0, m1);
    v1, v5, v9, v13 := MixZero(cv1, cv5, iv1, m2, m3);
    v2, v6, v10, v14 := Mix(cv2, cv6, iv2, 52, m4, m5);
    v3, v7, v11, v15 := Mix(cv3, cv7, iv3, 10, m6, m7);
    ghost var c0, c1 := Quad(v0, v4, v8, v12), Quad(v1, v5, v9, v13);
    ghost var c2, c3 := Quad(v2, v6, v10, v14), Quad(v3, v7, v11, v15);
    v0, v5, v10, v15 := Mix(v0, v5, v10, v15, m8, m9);
    v1, v6, v11, v12 := Mix(v1, v6, v11, v12, m10, m11);
    v2, v7, v8, v13 := MixFirst(v2, v7, v8, v13, m12);
    v3, v4, v9, v14 := MixNeither(v3, v4, v9, v14);
    RoundOf(s0, w0, c0, c1, c2, c3,
            Quad(v0, v5, v10, v15), Quad(v1, v6, v11, v12), Quad(v2, v7, v8, v13), Quad(v3, v4, v9, v14));
    ghost var s1, w1 := Round(s0, w0), Permute(w0);

    // Round 2 with message word permutation.
    v0, v4, v8, v12 := Mix(v0, v4, v8, v12, m2, m6);
    v1, v5, v9, v13 := Mix(v1, v5, v9, v13, m3, m10);
    v2, v6, v10, v14 := Mix(v2, v6, v10, v14, m7, m0);
    v3, v7, v11, v15 := MixFirst(v3, v7, v11, v15, m4);
    c0, c1 := Quad(v0, v4, v8, v12), Quad(v1, v5, v9, v13);
    c2, c3 := Quad(v2, v6, v10, v14), Quad(v3, v7, v11, v15);
    v0, v5, v10, v15 := Mix(v0, v5, v10, v15, m1, m11);
    v1, v6, v11, v12 := Mix(v1, v6, v11, v12, m12, m5);
    v2, v7, v8, v13 := MixFirst(v2, v7, v8, v13, m9);
    v3, v4, v9, v14 := MixSecond(v3, v4, v9, v14, m8);
    RoundOf(s1, w1, c0, c1, c2, c3,
            Quad(v0, v5, v10, v15), Quad(v1, v6, v11, v12), Quad(v2, v7, v8, v13), Quad(v3, v4, v9, v14));
    ghost var s2, w2 := Round(s1, w1), Permute(w1);

    // Round 3 with message word permutation.
    v0, v4, v8, v12 := Mix(v0, v4, v8, v12, m3, m4);
    v1, v5, v9, v13 := Mix(v1, v5, v9, v13, m10, m12);
    v2, v6, v10, v14 := MixSecond(v2, v6, v10, v14, m2);
    v3, v7, v11, v15 := MixFirst(v3, v7, v11, v15, m7);
    c0, c1 := Quad(v0, v4, v8, v12), Quad(v1, v5, v9, v13);
    c2, c3 := Quad(v2, v6, v10, v14), Quad(v3, v7, v11, v15);
    v0, v5, v10, v15 := Mix(v0, v5, v10, v15, m6, m5);
    v1, v6, v11, v12 := Mix(v1, v6, v11, v12, m9, m0);
    v2, v7, v8, v13 := MixFirst(v2, v7, v8, v13, m11);
    v3, v4, v9, v14 := Mix(v3, v4, v9, v14, m8, m1);
    RoundOf(s2, w2, c0, c1, c2, c3,
            Quad(v0, v5, v10, v15), Quad(v1, v6, v11, v12), Quad(v2, v7, v8, v13), Quad(v3, v4, v9, v14));
    ghost var s3, w3 := Round(s2, w2), Permute(w2);

    // Round 4 with message word permutation.
    v0, v4, v8, v12 := Mix(v0, v4, v8, v12, m10, m7);
    v1, v5, v9, v13 := Mix(v1, v5, v9, v13, m12, m9);
    v2, v6, v10, v14 := MixSecond(v2, v6, v10, v14, m3);
    v3, v7, v11, v15 := MixNeither(v3, v7, v11, v15);
    c0, c1 := Quad(v0, v4, v8, v12), Quad(v1, v5, v9, v13);
    c2, c3 := Quad(v2, v6, v10, v14), Quad(v3, v7, v11, v15);
    v0, v5, v10, v15 := Mix(v0, v5, v10, v15, m4, m0);
    v1, v6, v11, v12 := Mix(v1, v6, v11, v12, m11, m2);
    v2, v7, v8, v13 := Mix(v2, v7, v8, v13, m5, m8);
    v3, v4, v9, v14 := Mix(v3, v4, v9, v14, m1, m6);
    RoundOf(s3, w3, c0, c1, c2, c3,
            Quad(v0, v5, v10, v15), Quad(v1, v6, v11, v12), Quad(v2, v7, v8, v13), Quad(v3, v4, v9, v14));
    ghost var s4, w4 := Round(s3, w3), Permute(w3);

    // Round 5 with message word permutation.
    v0, v4, v8, v12 := MixFirst(v0, v4, v8, v12, m12);
    v1, v5, v9, v13 := Mix(v1, v5, v9, v13, m9, m11);
    v2, v6, v10, v14 := MixSecond(v2, v6, v10, v14, m10);
    v3, v7, v11, v15 := MixSecond(v3, v7, v11, v15, m8);
    c0, c1 := Quad(v0, v4, v8, v12), Quad(v1, v5, v9, v13);
    c2, c3 := Quad(v2, v6, v10, v14), Quad(v3, v7, v11, v15);
    v0, v5, v10, v15 := Mix(v0, v5, v10, v15, m7, m2);
    v1, v6, v11, v12 := Mix(v1, v6, v11, v12, m5, m3);
    v2, v7, v8, v13 := Mix(v2, v7, v8, v13, m0, m1);
    v3, v4, v9, v14 := Mix(v3, v4, v9, v14, m6, m4);
    RoundOf(s4, w4, c0, c1, c2, c3,
            Quad(v0, v5, v10, v15), Quad(v1, v6, v11, v12), Quad(v2, v7, v8, v13), Quad(v3, v4, v9, v14));
    ghost var s5, w5 := Round(s4, w4), Permute(w4);

    // Round 6 with message word permutation.
    v0, v4, v8, v12 := MixFirst(v0, v4, v8, v12, m9);
    v1, v5, v9, v13 := Mix(v1, v5, v9, v13, m11, m5);
    v2, v6, v10, v14 := Mix(v2, v6, v10, v14, m8, m12);
    v3, v7, v11, v15 := MixSecond(v3, v7, v11, v15, m1);
    c0, c1 := Quad(v0, v4, v8, v12), Quad(v1, v5, v9, v13);
    c2, c3 := Quad(v2, v6, v10, v14), Quad(v3, v7, v11, v15);
    v0, v5, v10, v15 := MixSecond(v0, v5, v10, v15, m3);
    v1, v6, v11, v12 := Mix(v1, v6, v11, v12, m0, m10);
    v2, v7, v8, v13 := Mix(v2, v7, v8, v13, m2, m6);
    v3, v4, v9, v14 := Mix(v3, v4, v9, v14, m4, m7);
    RoundOf(s5, w5, c0, c1, c2, c3,
            Quad(v0, v5, v10, v15), Quad(v1, v6, v11, v12), Quad(v2, v7, v8, v13), Quad(v3, v4, v9, v14));
    ghost var s6, w6 := Round(s5, w5), Permute(w5);

    // Round 7 with message word permutation.
    v0, v4, v8, v12 := MixFirst(v0, v4, v8, v12, m11);
    v1, v5, v9, v13 := Mix(v1, v5, v9, v13, m5, m0);
    v2, v6, v10, v14 := Mix(v2, v6, v10, v14, m1, m9);
    v3, v7, v11, v15 := Mix(v3, v7, v11, v15, m8, m6);
    c0, c1 := Quad(v0, v4, v8, v12), Quad(v1, v5, v9, v13);
    c2, c3 := Quad(v2, v6, v10, v14), Quad(v3, v7, v11, v15);
    v0, v5, v10, v15 := MixSecond(v0, v5, v10, v15, m10);
    v1, v6, v11, v12 := Mix(v1, v6, v11, v12, m2, m12);
    v2, v7, v8, v13 := Mix(v2, v7, v8, v13, m3, m4);
    v3, v4, v9, v14 := MixFirst(v3, v4, v9, v14, m7);
    RoundOf(s6, w6, c0, c1, c2, c3,
            Quad(v0, v5, v10, v15), Quad(v1, v6, v11, v12), Quad(v2, v7, v8, v13), Quad(v3, v4, v9, v14));
    SevenRounds(s0, w0);
  }

  const OUTPUT_BUFFER_SIZE: nat := 64

  function LastHashWord(cv: seq<Word>, m: Message): Word
    requires |cv| == 8
  {
    hide Compress;
    Compress(cv, m, 0, 0, TAIL_LEN, TAIL_FLAGS)[7]
  }

  // A nonce survives the kernel's filter when the last word of the hash is zero.
  predicate Survives(cv: seq<Word>, m: seq<Word>, nonce: Word)
    requires |cv| == 8 && |m| == 12
  {
    LastHashWord(cv, TailMessage(m, nonce)) == 0
  }

  // The buffer after one more candidate: the count in cell 0 goes up and the
  // nonce lands in the cell it now names.
  function Recorded(out: seq<Word>, nonce: Word): (r: seq<Word>)
    requires |out| > 0 && Value(Increment(out[0])) < |out|
    ensures |r| == |out|
  {
    var count := Increment(out[0]);
    out[0 := count][Value(count) := nonce]
  }

  // The word the kernel tests: the last of the hash.
  method LastWord(cv: seq<Word>, m: seq<Word>, nonce: Word) returns (h7: Word)
    requires |cv| == 8 && |m| == 12
    ensures h7 == 0 <==> Survives(cv, m, nonce)
  {
    hide Survives, Rounds, Schedule, Initial, Xor;
    var v0, v1, v2, v3, v4, v5, v6, v7, v8, v9, v10, v11, v12, v13, v14, v15 := FinalState(
      cv[0], cv[1], cv[2], cv[3], cv[4], cv[5], cv[6], cv[7],
      m[0], m[1], m[2], nonce, m[3], m[4], m[5], m[6], m[7], m[8], m[9], m[10], m[11]);
    assert cv == [cv[0], cv[1], cv[2], cv[3], cv[4], cv[5], cv[6], cv[7]];
    FilterAgrees(cv, m, nonce, State(v0, v1, v2, v3, v4, v5, v6, v7, v8, v9, v10, v11, v12, v13, v14, v15));
    ExclusiveOr(v7, v15);
    h7 := v7 ^ v15;
  }

  // One work item, given the midstate and the message words other than the
  // nonce.  The buffer is written out of its bounds unless there is room for the
  // candidate.
  method Search(output: array<Word>, cv: seq<Word>, m: seq<Word>, globalId: nat)
    requires output.Length == OUTPUT_BUFFER_SIZE && |cv| == 8 && |m| == 12
    requires Survives(cv, m, WordOf(globalId)) ==> Value(Increment(output[0])) < output.Length
    modifies output
    ensures output[..] == if Survives(cv, m, WordOf(globalId)) then Recorded(old(output[..]), WordOf(globalId))
                          else old(output[..])
  {
    hide Survives, Value, WordOf, Increment;
    var m3 := WordOf(globalId);
    var h7 := LastWord(cv, m, m3);
    if h7 != 0 {
      return;
    }
    output[0] := Increment(output[0]);
    output[Value(output[0])] := m3;
  }

  // The kernel's test of its last two state words is the filter.
  lemma FilterAgrees(cv: seq<Word>, m: seq<Word>, nonce: Word, s: State)
    requires |cv| == 8 && |m| == 12
    requires s == Rounds(Initial(cv, 0, 0, TAIL_LEN, TAIL_FLAGS), Schedule(TailMessage(m, nonce), 7))
    ensures Survives(cv, m, nonce) <==> Xor(s.v7, s.v15) == 0
  {
    hide Rounds, Schedule, Xor;
  }

  // The surviving nonces below n, in order.
  function Survivors(cv: seq<Word>, m: seq<Word>, n: nat): (r: seq<Word>)
    requires |cv| == 8 && |m| == 12
  {
    if n == 0 then []
    else if Survives(cv, m, WordOf(n - 1)) then Survivors(cv, m, n - 1) + [WordOf(n - 1)]
    else Survivors(cv, m, n - 1)
  }

  lemma {:induction false} SurvivorsGrow(cv: seq<Word>, m: seq<Word>, n: nat, k: nat)
    requires |cv| == 8 && |m| == 12 && n <= k
    ensures |Survivors(cv, m, n)| <= |Survivors(cv, m, k)|
    decreases k
  {
    hide Survives, WordOf;
    if n < k {
      SurvivorsGrow(cv, m, n, k - 1);
    }
  }

  // One launch over work items 0 to workSize - 1, run one after the other, with
  // the 21 arguments as they were set (argument 0 is the buffer itself).
  method EnqueueNDRange(output: array<Word>, args: seq<Word>, workSize: nat)
    requires output.Length == OUTPUT_BUFFER_SIZE && |args| == 21
    requires output[0] == 0
    requires |Survivors(args[1..9], args[9..21], workSize)| < OUTPUT_BUFFER_SIZE
    modifies output
    ensures var found := Survivors(args[1..9], args[9..21], workSize);
            && Lists(output[..], found)
            && output[|found| + 1..] == old(output[|found| + 1..])
  {
    hide Survives, Survivors, Value, WordOf, Increment, Recorded;
    ghost var cv, m := args[1..9], args[9..21];
    ValueZero();
    NoSurvivors(cv, m);
    for gid := 0 to workSize
      invariant |Survivors(cv, m, gid)| < OUTPUT_BUFFER_SIZE
      invariant Lists(output[..], Survivors(cv, m, gid))
      invariant output[|Survivors(cv, m, gid)| + 1..] == old(output[..])[|Survivors(cv, m, gid)| + 1..]
    {
      ghost var before, found := output[..], Survivors(cv, m, gid);
      SurvivorsGrow(cv, m, gid + 1, workSize);
      SurvivorsStep(cv, m, gid);
      NextCount(output[0]);
      Search(output, args[1..9], args[9..21], gid);
      if Survives(cv, m, WordOf(gid)) {
        RecordedLists(before, found, WordOf(gid));
        UntouchedBeyond(before, old(output[..]), output[..], |found| + 1);
      }
    }
  }

  // The buffer holds exactly these candidates, in order.
  ghost predicate Lists(out: seq<Word>, found: seq<Word>)
    requires |out| == OUTPUT_BUFFER_SIZE
  {
    |found| < OUTPUT_BUFFER_SIZE && Value(out[0]) == |found| && out[1..|found| + 1] == found
  }

  lemma RecordedLists(out: seq<Word>, found: seq<Word>, nonce: Word)
    requires |out| == OUTPUT_BUFFER_SIZE && Lists(out, found) && |found| + 1 < OUTPUT_BUFFER_SIZE
    ensures Value(Increment(out[0])) == |found| + 1
    ensures Lists(Recorded(out, nonce), found + [nonce])
    ensures Recorded(out, nonce)[|found| + 2..] == out[|found| + 2..]
  {
    NextCount(out[0]);
    hide Value, Increment;
  }

  lemma UntouchedBeyond(before: seq<Word>, first: seq<Word>, after: seq<Word>, n: nat)
    requires n < |before| == |first| == |after|
    requires before[n..] == first[n..] && after[n + 1..] == before[n + 1..]
    ensures after[n + 1..] == first[n + 1..]
  {
    assert before[n..][1..] == before[n + 1..] && first[n..][1..] == first[n + 1..];
  }

  lemma NoSurvivors(cv: seq<Word>, m: seq<Word>)
    requires |cv| == 8 && |m| == 12
    ensures Survivors(cv, m, 0) == []
  {
    hide Survives, WordOf;
  }

  lemma SurvivorsStep(cv: seq<Word>, m: seq<Word>, n: nat)
    requires |cv| == 8 && |m| == 12
    ensures Survivors(cv, m, n + 1) ==
            if Survives(cv, m, WordOf(n)) then Survivors(cv, m, n) + [WordOf(n)] else Survivors(cv, m, n)
  {
    hide Survives, WordOf;
  }

  lemma NextCount(w: Word)
    requires Value(w) < OUTPUT_BUFFER_SIZE
    ensures Value(Increment(w)) == Value(w) + 1
  {
    hide Value, Increment;
    ValueIncrement(w);
  }
}

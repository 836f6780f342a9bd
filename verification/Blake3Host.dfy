// The miner's own BLAKE3 (blake3/block.go, blake3/convert.go): the unrolled
// compression function and the midstate chaining, against the definition.
module Blake3Host {
  import opened Words
  import opened Blake3Spec

  // A rotation to the right is one to the left by a negative amount.
  lemma Rotations(x: Word)
    ensures RotateLeft(x, -16) == RotateRight(x, 16)
    ensures RotateLeft(x, -12) == RotateRight(x, 12)
    ensures RotateLeft(x, -8) == RotateRight(x, 8)
    ensures RotateLeft(x, -7) == RotateRight(x, 7)
  {
  }

  lemma XoredHalves(
      v0: Word, v1: Word, v2: Word, v3: Word, v4: Word, v5: Word, v6: Word, v7: Word,
      v8: Word, v9: Word, v10: Word, v11: Word, v12: Word, v13: Word, v14: Word, v15: Word)
    ensures [v0 ^ v8, v1 ^ v9, v2 ^ v10, v3 ^ v11, v4 ^ v12, v5 ^ v13, v6 ^ v14, v7 ^ v15]
            == Truncated(State(v0, v1, v2, v3, v4, v5, v6, v7, v8, v9, v10, v11, v12, v13, v14, v15))
  {
    hide Xor;
    ExclusiveOr(v0, v8);
    ExclusiveOr(v1, v9);
    ExclusiveOr(v2, v10);
    ExclusiveOr(v3, v11);
    ExclusiveOr(v4, v12);
    ExclusiveOr(v5, v13);
    ExclusiveOr(v6, v14);
    ExclusiveOr(v7, v15);
  }

  method G(a0: Word, b0: Word, c0: Word, d0: Word, mx: Word, my: Word)
    returns (a: Word, b: Word, c: Word, d: Word)
    ensures Quad(a, b, c, d) == QuarterRound(Quad(a0, b0, c0, d0), mx, my)
  {
    hide RotateLeft, RotateRight, Add3, Add, Xor;
    a, b, c, d := a0, b0, c0, d0;
    Sum3(a, b, mx);
    a := a + (b + mx);
    ExclusiveOr(d, a);
    Rotations(d ^ a);
    d := RotateLeft(d ^ a, -16);
    Sum(c, d);
    c := c + d;
    ExclusiveOr(b, c);
    Rotations(b ^ c);
    b := RotateLeft(b ^ c, -12);
    Sum3(a, b, my);
    a := a + (b + my);
    ExclusiveOr(d, a);
    Rotations(d ^ a);
    d := RotateLeft(d ^ a, -8);
    Sum(c, d);
    c := c + d;
    ExclusiveOr(b, c);
    Rotations(b ^ c);
    b := RotateLeft(b ^ c, -7);
  }

  method CompressUnrolled(cv: seq<Word>, block: seq<Word>, blockLen: Word, flags: Word) returns (out: seq<Word>)
    requires |cv| == 8 && |block| == 16
    ensures out == Compress(cv, MessageOf(block), 0, 0, blockLen, flags)
  {
    hide QuarterRound, Round, Rounds, Truncated;
    ghost var s0, m0 := Initial(cv, 0, 0, blockLen, flags), MessageOf(block);

    // Do the initialization and first round together.
    var v0, v4, v8, v12 := G(cv[0], cv[4], IV[0], 0, block[0], block[1]);
    var v1, v5, v9, v13 := G(cv[1], cv[5], IV[1], 0, block[2], block[3]);
    var v2, v6, v10, v14 := G(cv[2], cv[6], IV[2], blockLen, block[4], block[5]);
    var v3, v7, v11, v15 := G(cv[3], cv[7], IV[3], flags, block[6], block[7]);
    ghost var c0, c1 := Quad(v0, v4, v8, v12), Quad(v1, v5, v9, v13);
    ghost var c2, c3 := Quad(v2, v6, v10, v14), Quad(v3, v7, v11, v15);
    v0, v5, v10, v15 := G(v0, v5, v10, v15, block[8], block[9]);
    v1, v6, v11, v12 := G(v1, v6, v11, v12, block[10], block[11]);
    v2, v7, v8, v13 := G(v2, v7, v8, v13, block[12], block[13]);
    v3, v4, v9, v14 := G(v3, v4, v9, v14, block[14], block[15]);
    RoundOf(s0, m0, c0, c1, c2, c3,
            Quad(v0, v5, v10, v15), Quad(v1, v6, v11, v12), Quad(v2, v7, v8, v13), Quad(v3, v4, v9, v14));
    ghost var s1, m1 := Round(s0, m0), Permute(m0);

    // 2nd round with message word permutation.
    v0, v4, v8, v12 := G(v0, v4, v8, v12, block[2], block[6]);
    v1, v5, v9, v13 := G(v1, v5, v9, v13, block[3], block[10]);
    v2, v6, v10, v14 := G(v2, v6, v10, v14, block[7], block[0]);
    v3, v7, v11, v15 := G(v3, v7, v11, v15, block[4], block[13]);
    c0, c1 := Quad(v0, v4, v8, v12), Quad(v1, v5, v9, v13);
    c2, c3 := Quad(v2, v6, v10, v14), Quad(v3, v7, v11, v15);
    v0, v5, v10, v15 := G(v0, v5, v10, v15, block[1], block[11]);
    v1, v6, v11, v12 := G(v1, v6, v11, v12, block[12], block[5]);
    v2, v7, v8, v13 := G(v2, v7, v8, v13, block[9], block[14]);
    v3, v4, v9, v14 := G(v3, v4, v9, v14, block[15], block[8]);
    RoundOf(s1, m1, c0, c1, c2, c3,
            Quad(v0, v5, v10, v15), Quad(v1, v6, v11, v12), Quad(v2, v7, v8, v13), Quad(v3, v4, v9, v14));
    ghost var s2, m2 := Round(s1, m1), Permute(m1);

    // 3rd round with message word permutation.
    v0, v4, v8, v12 := G(v0, v4, v8, v12, block[3], block[4]);
    v1, v5, v9, v13 := G(v1, v5, v9, v13, block[10], block[12]);
    v2, v6, v10, v14 := G(v2, v6, v10, v14, block[13], block[2]);
    v3, v7, v11, v15 := G(v3, v7, v11, v15, block[7], block[14]);
    c0, c1 := Quad(v0, v4, v8, v12), Quad(v1, v5, v9, v13);
    c2, c3 := Quad(v2, v6, v10, v14), Quad(v3, v7, v11, v15);
    v0, v5, v10, v15 := G(v0, v5, v10, v15, block[6], block[5]);
    v1, v6, v11, v12 := G(v1, v6, v11, v12, block[9], block[0]);
    v2, v7, v8, v13 := G(v2, v7, v8, v13, block[11], block[15]);
    v3, v4, v9, v14 := G(v3, v4, v9, v14, block[8], block[1]);
    RoundOf(s2, m2, c0, c1, c2, c3,
            Quad(v0, v5, v10, v15), Quad(v1, v6, v11, v12), Quad(v2, v7, v8, v13), Quad(v3, v4, v9, v14));
    ghost var s3, m3 := Round(s2, m2), Permute(m2);

    // 4th round with message word permutation.
    v0, v4, v8, v12 := G(v0, v4, v8, v12, block[10], block[7]);
    v1, v5, v9, v13 := G(v1, v5, v9, v13, block[12], block[9]);
    v2, v6, v10, v14 := G(v2, v6, v10, v14, block[14], block[3]);
    v3, v7, v11, v15 := G(v3, v7, v11, v15, block[13], block[15]);
    c0, c1 := Quad(v0, v4, v8, v12), Quad(v1, v5, v9, v13);
    c2, c3 := Quad(v2, v6, v10, v14), Quad(v3, v7, v11, v15);
    v0, v5, v10, v15 := G(v0, v5, v10, v15, block[4], block[0]);
    v1, v6, v11, v12 := G(v1, v6, v11, v12, block[11], block[2]);
    v2, v7, v8, v13 := G(v2, v7, v8, v13, block[5], block[8]);
    v3, v4, v9, v14 := G(v3, v4, v9, v14, block[1], block[6]);
    RoundOf(s3, m3, c0, c1, c2, c3,
            Quad(v0, v5, v10, v15), Quad(v1, v6, v11, v12), Quad(v2, v7, v8, v13), Quad(v3, v4, v9, v14));
    ghost var s4, m4 := Round(s3, m3), Permute(m3);

    // 5th round with message word permutation.
    v0, v4, v8, v12 := G(v0, v4, v8, v12, block[12], block[13]);
    v1, v5, v9, v13 := G(v1, v5, v9, v13, block[9], block[11]);
    v2, v6, v10, v14 := G(v2, v6, v10, v14, block[15], block[10]);
    v3, v7, v11, v15 := G(v3, v7, v11, v15, block[14], block[8]);
    c0, c1 := Quad(v0, v4, v8, v12), Quad(v1, v5, v9, v13);
    c2, c3 := Quad(v2, v6, v10, v14), Quad(v3, v7, v11, v15);
    v0, v5, v10, v15 := G(v0, v5, v10, v15, block[7], block[2]);
    v1, v6, v11, v12 := G(v1, v6, v11, v12, block[5], block[3]);
    v2, v7, v8, v13 := G(v2, v7, v8, v13, block[0], block[1]);
    v3, v4, v9, v14 := G(v3, v4, v9, v14, block[6], block[4]);
    RoundOf(s4, m4, c0, c1, c2, c3,
            Quad(v0, v5, v10, v15), Quad(v1, v6, v11, v12), Quad(v2, v7, v8, v13), Quad(v3, v4, v9, v14));
    ghost var s5, m5 := Round(s4, m4), Permute(m4);

    // 6th round with message word permutation.
    v0, v4, v8, v12 := G(v0, v4, v8, v12, block[9], block[14]);
    v1, v5, v9, v13 := G(v1, v5, v9, v13, block[11], block[5]);
    v2, v6, v10, v14 := G(v2, v6, v10, v14, block[8], block[12]);
    v3, v7, v11, v15 := G(v3, v7, v11, v15, block[15], block[1]);
    c0, c1 := Quad(v0, v4, v8, v12), Quad(v1, v5, v9, v13);
    c2, c3 := Quad(v2, v6, v10, v14), Quad(v3, v7, v11, v15);
    v0, v5, v10, v15 := G(v0, v5, v10, v15, block[13], block[3]);
    v1, v6, v11, v12 := G(v1, v6, v11, v12, block[0], block[10]);
    v2, v7, v8, v13 := G(v2, v7, v8, v13, block[2], block[6]);
    v3, v4, v9, v14 := G(v3, v4, v9, v14, block[4], block[7]);
    RoundOf(s5, m5, c0, c1, c2, c3,
            Quad(v0, v5, v10, v15), Quad(v1, v6, v11, v12), Quad(v2, v7, v8, v13), Quad(v3, v4, v9, v14));
    ghost var s6, m6 := Round(s5, m5), Permute(m5);

    // 7th round with message word permutation.
    v0, v4, v8, v12 := G(v0, v4, v8, v12, block[11], block[15]);
    v1, v5, v9, v13 := G(v1, v5, v9, v13, block[5], block[0]);
    v2, v6, v10, v14 := G(v2, v6, v10, v14, block[1], block[9]);
    v3, v7, v11, v15 := G(v3, v7, v11, v15, block[8], block[6]);
    c0, c1 := Quad(v0, v4, v8, v12), Quad(v1, v5, v9, v13);
    c2, c3 := Quad(v2, v6, v10, v14), Quad(v3, v7, v11, v15);
    v0, v5, v10, v15 := G(v0, v5, v10, v15, block[14], block[10]);
    v1, v6, v11, v12 := G(v1, v6, v11, v12, block[2], block[12]);
    v2, v7, v8, v13 := G(v2, v7, v8, v13, block[3], block[4]);
    v3, v4, v9, v14 := G(v3, v4, v9, v14, block[7], block[13]);
    RoundOf(s6, m6, c0, c1, c2, c3,
            Quad(v0, v5, v10, v15), Quad(v1, v6, v11, v12), Quad(v2, v7, v8, v13), Quad(v3, v4, v9, v14));
    SevenRounds(s0, m0);
    XoredHalves(v0, v1, v2, v3, v4, v5, v6, v7, v8, v9, v10, v11, v12, v13, v14, v15);
    out := [v0 ^ v8, v1 ^ v9, v2 ^ v10, v3 ^ v11, v4 ^ v12, v5 ^ v13, v6 ^ v14, v7 ^ v15];
  }

  // Writes at most 64 bytes of b, zero-padded, into the sixteen words.
  method IntoWords(words: array<Word>, b: seq<Byte>)
    requires words.Length == 16
    modifies words
    ensures words[..] == WordsOf(Padded(b[..Min(|b|, BLOCK_LEN)]))
  {
    var block := Padded(b[..Min(|b|, BLOCK_LEN)]);
    hide FromBytes, Padded;
    for i := 0 to words.Length
      invariant words[..i] == WordsOf(block)[..i]
    {
      words[i] := FromBytes(Slot(block, i));
    }
  }

  function Min(m: nat, n: nat): nat {
    if m < n then m else n
  }

  method AsBytes(cv: seq<Word>) returns (out: seq<Byte>)
    requires |cv| == 8
    ensures out == BytesOf(cv)
  {
    var b := new Byte[32];
    hide ToBytes, Put, Slot;
    for i := 0 to |cv|
      invariant forall k :: 0 <= k < i ==> Slot(b[..], k) == ToBytes(cv[k])
    {
      ghost var before := b[..];
      PutUint32(b, 4 * i, cv[i]);
      forall k | 0 <= k <= i
        ensures Slot(b[..], k) == ToBytes(cv[k])
      {
        SlotOfPut(before, i, cv[i], k);
      }
    }
    out := b[..];
    SameSlots(out, BytesOf(cv));
  }

  method RunBlock(midstate: seq<Word>, b: seq<Byte>, flags: Word) returns (out: seq<Word>)
    requires |midstate| == 8 && |b| <= BLOCK_LEN
    ensures out == BlockOutput(midstate, b, flags)
  {
    var words := new Word[16];
    IntoWords(words, b);
    assert b[..|b|] == b;
    out := CompressUnrolled(midstate, words[..], WordOf(|b|), flags);
  }

  method Block(midstate: seq<Word>, b: seq<Byte>, flags: Word) returns (out: seq<Word>)
    requires |midstate| == 8 && |b| == BLOCK_LEN
    ensures out == BlockOutput(midstate, b, flags)
  {
    out := RunBlock(midstate, b, flags);
  }

  method FinalBlock(midstate: seq<Word>, b: seq<Byte>) returns (out: seq<Byte>)
    requires |midstate| == 8 && |b| <= BLOCK_LEN
    ensures out == FinalHash(midstate, b)
  {
    var cv := RunBlock(midstate, b, CHUNK_END | ROOT);
    out := AsBytes(cv);
  }

  // What the miner computes: the first 128 bytes folded into a midstate, and
  // the hash finished from it with the tail.
  function Midstate(head: seq<Byte>): (out: seq<Word>)
    requires |head| == 128
    ensures |out| == 8
  {
    BlockOutput(BlockOutput(IV, head[..64], CHUNK_START), head[64..], 0)
  }

  function FinalHash(midstate: seq<Word>, tail: seq<Byte>): (out: seq<Byte>)
    requires |midstate| == 8 && |tail| <= BLOCK_LEN
    ensures |out| == 32
  {
    BytesOf(BlockOutput(midstate, tail, CHUNK_END | ROOT))
  }

  // Finishing from the midstate is hashing the whole: for every head of two
  // blocks and every final block of 1 to 64 bytes.
  lemma MidstateChainingIsHashing(head: seq<Byte>, tail: seq<Byte>)
    requires |head| == 128 && 0 < |tail| <= BLOCK_LEN
    ensures FinalHash(Midstate(head), tail) == Hash(head + tail)
  {
    hide BlockOutput;
    var b := head + tail;
    assert b[..64] == head[..64];
    assert b[64..] == head[64..] + tail;
    assert b[64..][..64] == head[64..];
    assert b[64..][64..] == tail;
    var cv := BlockOutput(IV, head[..64], CHUNK_START);
    assert ChainBlocks(IV, b, CHUNK_START) == ChainBlocks(cv, b[64..], 0);
    assert ChainBlocks(cv, b[64..], 0) == ChainBlocks(Midstate(head), tail, 0);
    assert 0 | CHUNK_END | ROOT == CHUNK_END | ROOT;
  }
}

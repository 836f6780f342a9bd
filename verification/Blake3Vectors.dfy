// BLAKE3 pinned by literals: which message word each of the seven rounds takes at
// each of its places, and the hash of the bytes 0 to 63 as its published test
// vectors have it.
module Blake3Vectors {
  import opened Words
  import opened Blake3Spec

  // The message words of round 2, in the order of its calls.
  function Words2(m: Message): Message {
    Message(m.m2, m.m6, m.m3, m.m10, m.m7, m.m0, m.m4, m.m13,
            m.m1, m.m11, m.m12, m.m5, m.m9, m.m14, m.m15, m.m8)
  }

  function Words3(m: Message): Message {
    Message(m.m3, m.m4, m.m10, m.m12, m.m13, m.m2, m.m7, m.m14,
            m.m6, m.m5, m.m9, m.m0, m.m11, m.m15, m.m8, m.m1)
  }

  function Words4(m: Message): Message {
    Message(m.m10, m.m7, m.m12, m.m9, m.m14, m.m3, m.m13, m.m15,
            m.m4, m.m0, m.m11, m.m2, m.m5, m.m8, m.m1, m.m6)
  }

  function Words5(m: Message): Message {
    Message(m.m12, m.m13, m.m9, m.m11, m.m15, m.m10, m.m14, m.m8,
            m.m7, m.m2, m.m5, m.m3, m.m0, m.m1, m.m6, m.m4)
  }

  function Words6(m: Message): Message {
    Message(m.m9, m.m14, m.m11, m.m5, m.m8, m.m12, m.m15, m.m1,
            m.m13, m.m3, m.m0, m.m10, m.m2, m.m6, m.m4, m.m7)
  }

  function Words7(m: Message): Message {
    Message(m.m11, m.m15, m.m5, m.m0, m.m1, m.m9, m.m8, m.m6,
            m.m14, m.m10, m.m2, m.m12, m.m3, m.m4, m.m7, m.m13)
  }

  // All 112 places of the seven rounds.
  lemma SevenTables(s: State, m: Message)
    ensures Rounds(s, Schedule(m, 7)) ==
            Round(Round(Round(Round(Round(Round(Round(s, m), Words2(m)), Words3(m)), Words4(m)), Words5(m)), Words6(m)),
                  Words7(m))
  {
    Permuted(m);
    hide Round, Rounds, Schedule, Permute, Words2, Words3, Words4, Words5, Words6, Words7;
    SevenRounds(s, m);
  }

  lemma Permuted(m: Message)
    ensures Permute(m) == Words2(m) && Permute(Words2(m)) == Words3(m) && Permute(Words3(m)) == Words4(m)
    ensures Permute(Words4(m)) == Words5(m) && Permute(Words5(m)) == Words6(m) && Permute(Words6(m)) == Words7(m)
  {
  }

  const S0: State := State(
    0x6a09e667, 0xbb67ae85, 0x3c6ef372, 0xa54ff53a, 0x510e527f, 0x9b05688c, 0x1f83d9ab, 0x5be0cd19,
    0x6a09e667, 0xbb67ae85, 0x3c6ef372, 0xa54ff53a, 0x00000000, 0x00000000, 0x00000040, 0x0000000b)
  const S1: State := State(
    0x841b353a, 0xbc762a99, 0x7bc6f67c, 0x0db12f4b, 0x13ac4cb6, 0xab80b582, 0x78d7c89f, 0x44adb812,
    0x0a9a96e0, 0xc7f9bd09, 0x17fe2798, 0xc15304dc, 0x05e7ab0b, 0xf1ca1402, 0x458798ab, 0xb48be36e)
  const S2: State := State(
    0xbada2bd4, 0x117a63c6, 0x1098b66c, 0x58bd36d5, 0x9c33e5b7, 0x06c6d7af, 0x00e3e701, 0xe69bf088,
    0x1a159720, 0xb4a1b01c, 0xbb0c1b51, 0xf7f9c5f5, 0x5a047616, 0xe2193f4b, 0xbdec2a97, 0x02886034)
  const S3: State := State(
    0x9af92ccd, 0x7f46f5a3, 0x04c1d031, 0x106a65af, 0xd0f47ee1, 0x3e258331, 0x10749322, 0x1d68cd00,
    0xce5f0982, 0x729a0239, 0xebfc97f9, 0x40e13997, 0xb5926716, 0xf874085c, 0x27635083, 0x8e5edd27)
  const S4: State := State(
    0xed37cc74, 0xb9e66d6c, 0x9cb3211b, 0x9ed6cbbc, 0x8002fcaa, 0x95dc1075, 0x461006e7, 0x4a3b0e2c,
    0x31060b64, 0xc1122100, 0xfcc44624, 0x5997f509, 0x7c3f5e12, 0x2ec17d26, 0x02c1f5ab, 0xe4514841)
  const S5: State := State(
    0xd91e3fd0, 0xe4c16dec, 0x011c3195, 0x24012ad6, 0x41d2073d, 0xc9bd7f68, 0x3e343f11, 0x553a02ce,
    0xd374e5c9, 0x328dcb2f, 0xadfa68c6, 0xfb2e3dfb, 0x406be449, 0xd05c9474, 0x6b1d5423, 0xbdfcd813)
  const S6: State := State(
    0x430f218c, 0x7793917d, 0x8273beea, 0x375c9ad6, 0x90bcee01, 0x10553402, 0x716586d3, 0x7e619f96,
    0xe268e17b, 0x6fad9358, 0x7506e2c7, 0xae8f410f, 0x9d32468b, 0x8f4e4385, 0x17d1deb9, 0x8eef9ae8)
  const S7: State := State(
    0x47bd97d5, 0x8cc4d5d7, 0xb6e9d3fb, 0xf5001539, 0x9ab50003, 0x4cbfc400, 0x69cd4536, 0xd8507434,
    0x06cc7a9b, 0x58989f3d, 0xdd895b4c, 0x17462aeb, 0x3629af11, 0x316368eb, 0xaea00929, 0x404b25c6)

  const M1: Message := Message(
    0x03020100, 0x07060504, 0x0b0a0908, 0x0f0e0d0c, 0x13121110, 0x17161514, 0x1b1a1918, 0x1f1e1d1c,
    0x23222120, 0x27262524, 0x2b2a2928, 0x2f2e2d2c, 0x33323130, 0x37363534, 0x3b3a3938, 0x3f3e3d3c)
  const M2: Message := Message(
    0x0b0a0908, 0x1b1a1918, 0x0f0e0d0c, 0x2b2a2928, 0x1f1e1d1c, 0x03020100, 0x13121110, 0x37363534,
    0x07060504, 0x2f2e2d2c, 0x33323130, 0x17161514, 0x27262524, 0x3b3a3938, 0x3f3e3d3c, 0x23222120)
  const M3: Message := Message(
    0x0f0e0d0c, 0x13121110, 0x2b2a2928, 0x33323130, 0x37363534, 0x0b0a0908, 0x1f1e1d1c, 0x3b3a3938,
    0x1b1a1918, 0x17161514, 0x27262524, 0x03020100, 0x2f2e2d2c, 0x3f3e3d3c, 0x23222120, 0x07060504)
  const M4: Message := Message(
    0x2b2a2928, 0x1f1e1d1c, 0x33323130, 0x27262524, 0x3b3a3938, 0x0f0e0d0c, 0x37363534, 0x3f3e3d3c,
    0x13121110, 0x03020100, 0x2f2e2d2c, 0x0b0a0908, 0x17161514, 0x23222120, 0x07060504, 0x1b1a1918)
  const M5: Message := Message(
    0x33323130, 0x37363534, 0x27262524, 0x2f2e2d2c, 0x3f3e3d3c, 0x2b2a2928, 0x3b3a3938, 0x23222120,
    0x1f1e1d1c, 0x0b0a0908, 0x17161514, 0x0f0e0d0c, 0x03020100, 0x07060504, 0x1b1a1918, 0x13121110)
  const M6: Message := Message(
    0x27262524, 0x3b3a3938, 0x2f2e2d2c, 0x17161514, 0x23222120, 0x33323130, 0x3f3e3d3c, 0x07060504,
    0x37363534, 0x0f0e0d0c, 0x03020100, 0x2b2a2928, 0x0b0a0908, 0x1b1a1918, 0x13121110, 0x1f1e1d1c)
  const M7: Message := Message(
    0x2f2e2d2c, 0x3f3e3d3c, 0x17161514, 0x03020100, 0x07060504, 0x27262524, 0x23222120, 0x1b1a1918,
    0x3b3a3938, 0x2b2a2928, 0x0b0a0908, 0x33323130, 0x0f0e0d0c, 0x13121110, 0x1f1e1d1c, 0x37363534)

  lemma Round1()
    ensures Round(S0, M1) == S1
  {
  }

  lemma Round2()
    ensures Round(S1, M2) == S2
  {
  }

  lemma Round3()
    ensures Round(S2, M3) == S3
  {
  }

  lemma Round4()
    ensures Round(S3, M4) == S4
  {
  }

  lemma Round5()
    ensures Round(S4, M5) == S5
  {
  }

  lemma Round6()
    ensures Round(S5, M6) == S6
  {
  }

  lemma Round7()
    ensures Round(S6, M7) == S7
  {
  }

  // The bytes 0 to 63.
  predicate Counting(b: seq<Byte>) {
    |b| == 64 && forall k :: 0 <= k < 64 ==> Unsigned(b[k]) == k
  }

  lemma CountedWord(b: seq<Byte>, k: nat, b0: Byte, b1: Byte, b2: Byte, b3: Byte)
    requires Counting(b) && k < 16
    requires Unsigned(b0) == 4 * k && Unsigned(b1) == 4 * k + 1
    requires Unsigned(b2) == 4 * k + 2 && Unsigned(b3) == 4 * k + 3
    ensures WordsOf(b)[k] == FromBytes([b0, b1, b2, b3])
  {
    hide Unsigned, FromBytes;
    SameByte(b[4 * k], b0);
    SameByte(b[4 * k + 1], b1);
    SameByte(b[4 * k + 2], b2);
    SameByte(b[4 * k + 3], b3);
    assert Slot(b, k) == [b0, b1, b2, b3];
  }

  lemma CountedWord0(b: seq<Byte>)
    requires Counting(b)
    ensures WordsOf(b)[0] == M1.m0
  {
    CountedWord(b, 0, 0x00, 0x01, 0x02, 0x03);
    hide Unsigned, Slot, Counting;
  }

  lemma CountedWord1(b: seq<Byte>)
    requires Counting(b)
    ensures WordsOf(b)[1] == M1.m1
  {
    CountedWord(b, 1, 0x04, 0x05, 0x06, 0x07);
    hide Unsigned, Slot, Counting;
  }

  lemma CountedWord2(b: seq<Byte>)
    requires Counting(b)
    ensures WordsOf(b)[2] == M1.m2
  {
    CountedWord(b, 2, 0x08, 0x09, 0x0a, 0x0b);
    hide Unsigned, Slot, Counting;
  }

  lemma CountedWord3(b: seq<Byte>)
    requires Counting(b)
    ensures WordsOf(b)[3] == M1.m3
  {
    CountedWord(b, 3, 0x0c, 0x0d, 0x0e, 0x0f);
    hide Unsigned, Slot, Counting;
  }

  lemma CountedWord4(b: seq<Byte>)
    requires Counting(b)
    ensures WordsOf(b)[4] == M1.m4
  {
    CountedWord(b, 4, 0x10, 0x11, 0x12, 0x13);
    hide Unsigned, Slot, Counting;
  }

  lemma CountedWord5(b: seq<Byte>)
    requires Counting(b)
    ensures WordsOf(b)[5] == M1.m5
  {
    CountedWord(b, 5, 0x14, 0x15, 0x16, 0x17);
    hide Unsigned, Slot, Counting;
  }

  lemma CountedWord6(b: seq<Byte>)
    requires Counting(b)
    ensures WordsOf(b)[6] == M1.m6
  {
    CountedWord(b, 6, 0x18, 0x19, 0x1a, 0x1b);
    hide Unsigned, Slot, Counting;
  }

  lemma CountedWord7(b: seq<Byte>)
    requires Counting(b)
    ensures WordsOf(b)[7] == M1.m7
  {
    CountedWord(b, 7, 0x1c, 0x1d, 0x1e, 0x1f);
    hide Unsigned, Slot, Counting;
  }

  lemma CountedWord8(b: seq<Byte>)
    requires Counting(b)
    ensures WordsOf(b)[8] == M1.m8
  {
    CountedWord(b, 8, 0x20, 0x21, 0x22, 0x23);
    hide Unsigned, Slot, Counting;
  }

  lemma CountedWord9(b: seq<Byte>)
    requires Counting(b)
    ensures WordsOf(b)[9] == M1.m9
  {
    CountedWord(b, 9, 0x24, 0x25, 0x26, 0x27);
    hide Unsigned, Slot, Counting;
  }

  lemma CountedWord10(b: seq<Byte>)
    requires Counting(b)
    ensures WordsOf(b)[10] == M1.m10
  {
    CountedWord(b, 10, 0x28, 0x29, 0x2a, 0x2b);
    hide Unsigned, Slot, Counting;
  }

  lemma CountedWord11(b: seq<Byte>)
    requires Counting(b)
    ensures WordsOf(b)[11] == M1.m11
  {
    CountedWord(b, 11, 0x2c, 0x2d, 0x2e, 0x2f);
    hide Unsigned, Slot, Counting;
  }

  lemma CountedWord12(b: seq<Byte>)
    requires Counting(b)
    ensures WordsOf(b)[12] == M1.m12
  {
    CountedWord(b, 12, 0x30, 0x31, 0x32, 0x33);
    hide Unsigned, Slot, Counting;
  }

  lemma CountedWord13(b: seq<Byte>)
    requires Counting(b)
    ensures WordsOf(b)[13] == M1.m13
  {
    CountedWord(b, 13, 0x34, 0x35, 0x36, 0x37);
    hide Unsigned, Slot, Counting;
  }

  lemma CountedWord14(b: seq<Byte>)
    requires Counting(b)
    ensures WordsOf(b)[14] == M1.m14
  {
    CountedWord(b, 14, 0x38, 0x39, 0x3a, 0x3b);
    hide Unsigned, Slot, Counting;
  }

  lemma CountedWord15(b: seq<Byte>)
    requires Counting(b)
    ensures WordsOf(b)[15] == M1.m15
  {
    CountedWord(b, 15, 0x3c, 0x3d, 0x3e, 0x3f);
    hide Unsigned, Slot, Counting;
  }

  lemma InputMessage(b: seq<Byte>)
    requires Counting(b)
    ensures MessageOf(WordsOf(Padded(b))) == M1
  {
    hide WordsOf, Unsigned;
    assert Padded(b) == b;
    CountedWord0(b);
    CountedWord1(b);
    CountedWord2(b);
    CountedWord3(b);
    CountedWord4(b);
    CountedWord5(b);
    CountedWord6(b);
    CountedWord7(b);
    CountedWord8(b);
    CountedWord9(b);
    CountedWord10(b);
    CountedWord11(b);
    CountedWord12(b);
    CountedWord13(b);
    CountedWord14(b);
    CountedWord15(b);
  }

  lemma InputPermuted()
    ensures Words2(M1) == M2 && Words3(M1) == M3 && Words4(M1) == M4
    ensures Words5(M1) == M5 && Words6(M1) == M6 && Words7(M1) == M7
  {
  }

  lemma InputCompressed()
    ensures Rounds(S0, Schedule(M1, 7)) == S7
  {
    hide Round, Rounds, Schedule, Words2, Words3, Words4, Words5, Words6, Words7;
    InputPermuted();
    Round1();
    Round2();
    Round3();
    Round4();
    Round5();
    Round6();
    Round7();
    SevenTables(S0, M1);
  }

  const OUTPUT: seq<Word> := [
    0x4171ed4e, 0xd45c4aea, 0x6b6088b7, 0xe2463fd2,
    0xac9caf12, 0x7ddcaceb, 0xc76d4c1f, 0x981b51f2
  ]

  lemma InputOutput(b: seq<Byte>)
    requires Counting(b)
    ensures BlockOutput(IV, b, CHUNK_START | CHUNK_END | ROOT) == OUTPUT
  {
    hide Rounds, Schedule, WordsOf, MessageOf, Padded, WordOf, Unsigned;
    InputMessage(b);
    WordOf64();
    InputCompressed();
  }

  lemma OutputBytes()
    ensures ToBytes(OUTPUT[0]) == [0x4e, 0xed, 0x71, 0x41]
    ensures ToBytes(OUTPUT[1]) == [0xea, 0x4a, 0x5c, 0xd4]
    ensures ToBytes(OUTPUT[2]) == [0xb7, 0x88, 0x60, 0x6b]
    ensures ToBytes(OUTPUT[3]) == [0xd2, 0x3f, 0x46, 0xe2]
    ensures ToBytes(OUTPUT[4]) == [0x12, 0xaf, 0x9c, 0xac]
    ensures ToBytes(OUTPUT[5]) == [0xeb, 0xac, 0xdc, 0x7d]
    ensures ToBytes(OUTPUT[6]) == [0x1f, 0x4c, 0x6d, 0xc7]
    ensures ToBytes(OUTPUT[7]) == [0xf2, 0x51, 0x1b, 0x98]
  {
  }

  // The hash of these 64 bytes is the published one: the 32 bytes that begin with
  // 4eed7141 and end with f2511b98.
  lemma PublishedHash(b: seq<Byte>)
    requires Counting(b)
    ensures Slot(Hash(b), 0) == [0x4e, 0xed, 0x71, 0x41]
    ensures Slot(Hash(b), 1) == [0xea, 0x4a, 0x5c, 0xd4]
    ensures Slot(Hash(b), 2) == [0xb7, 0x88, 0x60, 0x6b]
    ensures Slot(Hash(b), 3) == [0xd2, 0x3f, 0x46, 0xe2]
    ensures Slot(Hash(b), 4) == [0x12, 0xaf, 0x9c, 0xac]
    ensures Slot(Hash(b), 5) == [0xeb, 0xac, 0xdc, 0x7d]
    ensures Slot(Hash(b), 6) == [0x1f, 0x4c, 0x6d, 0xc7]
    ensures Slot(Hash(b), 7) == [0xf2, 0x51, 0x1b, 0x98]
  {
    InputOutput(b);
    OutputBytes();
    hide BlockOutput, ToBytes, Slot, Unsigned;
  }
}

// A header that meets its target and that the kernel never reports: the limit
// from which the search is not brute force is known to within one bit.
module MissedHeader {
  import opened Integers
  import opened Words
  import opened Blake3Spec
  import opened Blake3Host
  import opened Kernel
  import opened Header
  import opened BruteForce

  // Every byte of the header is zero but those of its timestamp.
  const TS: Word := 0x0d399e2c
  const ZERO: Message := Message(0, 0, 0, 0, 0, 0, 0, 0, 0, 0, 0, 0, 0, 0, 0, 0)

  const A0: State := State(
    0x6a09e667, 0xbb67ae85, 0x3c6ef372, 0xa54ff53a, 0x510e527f, 0x9b05688c, 0x1f83d9ab, 0x5be0cd19,
    0x6a09e667, 0xbb67ae85, 0x3c6ef372, 0xa54ff53a, 0, 0, 0x00000040, 0x00000001)
  const A1: State := State(
    0x770eaae6, 0xa1edae52, 0xe5fef103, 0xba2cc4a9, 0xebb8a262, 0x7b6710d6, 0xedbf0883, 0x28ce2046,
    0x3e187c08, 0x7b1796ff, 0x80d80f50, 0xc51df955, 0xd29581e4, 0xfc34e1c7, 0x4a1e5a32, 0x2207f0bf)
  const A2: State := State(
    0x2e8c8e49, 0x92f6605b, 0xbcefb4d3, 0xe2a7d22e, 0x01a2b0c5, 0x81d53422, 0xd4905aef, 0xb1fe426d,
    0x5004f258, 0xbe787453, 0x5669e90a, 0xcfc4022f, 0xdd81b519, 0xe14d88f7, 0xd027e9c2, 0x41a24dfa)
  const A3: State := State(
    0x67f8bf88, 0x948fbad9, 0x0b77a78e, 0x47356c2a, 0xd3ce9aca, 0xd45c5645, 0x7a1d8cf7, 0xb9012192,
    0xcd206ec9, 0x8b60897c, 0x77e0240e, 0x41367576, 0xf04396a3, 0xa0ff3a7e, 0x5ca9fe79, 0x16312be1)
  const A4: State := State(
    0x36f219e5, 0x2caa15be, 0x953d5491, 0xbb308497, 0x9d450aef, 0x50ac4891, 0x78c8ed43, 0xfdf18576,
    0xfdc57ab4, 0xd50b59b1, 0x1901fc47, 0x3950052a, 0xb597b142, 0x6af50839, 0x5e793167, 0x2023641f)
  const A5: State := State(
    0x313f04b1, 0x2dce640c, 0x39ba80dc, 0xd8e60bdb, 0x49ce1b33, 0xf13755a4, 0x695556c5, 0x6df13e7a,
    0xb23287ec, 0x5bbd7283, 0x455f3d81, 0x4332ce34, 0x92e42541, 0x9f27beee, 0xb82e5bc6, 0xf8c0ad69)
  const A6: State := State(
    0xdcf592b7, 0x0715f88e, 0x55f6b542, 0x709cefd4, 0x420ed85f, 0xd65c4435, 0x10130bc3, 0xd89e8663,
    0x2066b1d1, 0xf70230cb, 0x35c4bda1, 0x14224df4, 0xf3999fb2, 0x1b20af0b, 0xff4c8d9f, 0x37e0e204)
  const A7: State := State(
    0xa8329105, 0x1fb2d800, 0x5d975cf2, 0xc93cd8ec, 0xb270fd48, 0x5076c8b0, 0x7f7cbf23, 0xa62fb063,
    0x3197a097, 0xca2583f3, 0x82c8b796, 0x7e6c2744, 0x09838070, 0x29a6f917, 0x79800281, 0xe038894f)

  const B0: State := State(
    0x99a53192, 0xd5975bf3, 0xdf5feb64, 0xb750ffa8, 0xbbf37d38, 0x79d031a7, 0x06fcbda2, 0x4617392c,
    0x6a09e667, 0xbb67ae85, 0x3c6ef372, 0xa54ff53a, 0, 0, 0x00000040, 0)
  const B1: State := State(
    0x38ad9446, 0xab4565c3, 0x388e6863, 0x6d079ca4, 0x22ec741e, 0xf5bfe0ed, 0x16e57674, 0xf70877f6,
    0xcfbd2fa5, 0x51356556, 0x652e14db, 0x25d3d823, 0x73f06a90, 0xfd2bde54, 0xd8336119, 0x078fc991)
  const B2: State := State(
    0x3668f666, 0x2cd410a5, 0x21d057ca, 0xa9662a8b, 0x4c28ee84, 0xfe8d740b, 0x7b856101, 0x5a06165a,
    0xdfb1049c, 0xa71d793e, 0xd5e6336c, 0xd78de416, 0x4dd8085b, 0xf37cd42e, 0x39ef82eb, 0x90ddaac4)
  const B3: State := State(
    0x0844ca34, 0x531f0c42, 0x22ece16c, 0x917df3dc, 0x3b924bbd, 0xe34e41e1, 0x4a77d876, 0xae202050,
    0x6fe559ce, 0xea8c040d, 0x99b5341c, 0x69ec24a2, 0xe8a782c9, 0x4bb1f09c, 0x1d64e422, 0x6c696bc9)
  const B4: State := State(
    0x89054873, 0x2fcd349e, 0x293c25bf, 0x217af644, 0xa67d999f, 0xcd46d24a, 0xb8ee84fa, 0x0aa6942d,
    0x0f996fdd, 0x583242d6, 0xbf089fb8, 0xe20c2189, 0x5bca716b, 0x5fcbc84a, 0x5198bf45, 0x63d35092)
  const B5: State := State(
    0xd884f69b, 0x2a7fbb5e, 0x7966718c, 0x14e7e7ac, 0x8e4dc7fb, 0x5d69ea79, 0xcee400a5, 0xf70785a5,
    0x919477f0, 0xae3f1c0b, 0xd0aded9a, 0x0bac07b0, 0x1516354a, 0x300585c2, 0xe9dc3daf, 0xec92437f)
  const B6: State := State(
    0xa8c3c358, 0x1a0b0b65, 0x60254ea8, 0x0c2a18f1, 0x8e38a88b, 0x65405830, 0x64504b76, 0x6e9b0c35,
    0xed87e420, 0x95dba8ae, 0xaff24fad, 0x85e99252, 0xfbef8fcb, 0x8bf75ac8, 0x65105fb5, 0x2791c601)
  const B7: State := State(
    0xcfac6e31, 0x391283ef, 0x332ffdf3, 0x0d426f69, 0x0f50fd60, 0x7c88e74b, 0x0aab4c3b, 0xca780625,
    0x243bb160, 0x35d8bc38, 0x576b484e, 0x2b127d1c, 0x87b0ed4e, 0xe9c2be6a, 0x5a737f9c, 0xf29d2d62)

  const C0: State := State(
    0xeb97df51, 0x0cca3fd7, 0x6444b5bd, 0x26501275, 0x88e0102e, 0x954a5921, 0x50d833a7, 0x38e52b47,
    0x6a09e667, 0xbb67ae85, 0x3c6ef372, 0xa54ff53a, 0, 0, 0x00000034, 0x0000000a)
  const C1: State := State(
    0x9f53e615, 0x95b8a847, 0xc222986e, 0xe7bf78f1, 0x9b465da7, 0xbf971d57, 0x024ab83c, 0xe9d2d938,
    0xf8dac5d7, 0xaef715ba, 0x90675380, 0xf1c45f0c, 0xab08f00d, 0xcbacf5e2, 0x9ab14f60, 0x10064163)
  const C2: State := State(
    0x42384f73, 0x3b854e81, 0xce1afb87, 0xac13adff, 0x22ed308e, 0x72a22302, 0x8f43628c, 0xd9daf488,
    0x4a4834c7, 0x82bd6a21, 0x990daf8f, 0x45df6454, 0xbedefd94, 0xaecd8bd6, 0x649efa9c, 0x170964a9)
  const C3: State := State(
    0xe83a70ef, 0x69485cd6, 0x06ea81f0, 0x1a125b30, 0x77317207, 0x2f162634, 0x07fac4cc, 0x1814d253,
    0x25a02dfa, 0xff76e155, 0x1c62b461, 0xf81fc17d, 0x08ba18f7, 0x0596fc3b, 0xf03e431e, 0x202f2e30)
  const C4: State := State(
    0x69e794cf, 0xfb83994c, 0x501c874b, 0xf6712cb7, 0xeb908aeb, 0x1e2435fd, 0xa9a7e134, 0xe400437a,
    0x001e427e, 0x5bf8b581, 0x115cac9a, 0x289ba6b7, 0xb47685bf, 0xc21a20ef, 0x8cdf6a26, 0x220d2619)
  const C5: State := State(
    0x16a18009, 0x699a48c3, 0xafefdbcc, 0x6023785c, 0x099369c4, 0xaabb6f1c, 0x660a5b3a, 0x95c501ae,
    0x1b057e19, 0xa1067bb0, 0xa95be679, 0xada845ff, 0xa6ecb783, 0x2ce666d3, 0x2f07f70f, 0xbb4cf496)
  const C6: State := State(
    0x46452fba, 0xc94d465d, 0x205dde58, 0xf035d5f1, 0xeed40003, 0xbd26b35a, 0x98401f19, 0x603b7a5d,
    0x96824be8, 0x13e617b5, 0x4392331b, 0x2750495b, 0x1d8cfb1c, 0x5b062784, 0xc4fd8da3, 0x0b886cdd)
  const C7: State := State(
    0x6d31f17d, 0xad185bcc, 0xba5a3457, 0xfa0b9f62, 0x4988b3cb, 0x6c413ff1, 0xcfa08096, 0x70dd7c08,
    0xc21596a8, 0xd62a2357, 0xb25e3654, 0x1777e492, 0x85a6681f, 0xca50ade7, 0x3b30a7a4, 0x70dd7c09)

  const CV1: seq<Word> := [
    0x99a53192, 0xd5975bf3, 0xdf5feb64, 0xb750ffa8, 0xbbf37d38, 0x79d031a7, 0x06fcbda2, 0x4617392c
  ]
  const CV2: seq<Word> := [
    0xeb97df51, 0x0cca3fd7, 0x6444b5bd, 0x26501275, 0x88e0102e, 0x954a5921, 0x50d833a7, 0x38e52b47
  ]

  const T0: Message := Message(0, 0, TS, 0, 0, 0, 0, 0, 0, 0, 0, 0, 0, 0, 0, 0)
  const T1: Message := Message(TS, 0, 0, 0, 0, 0, 0, 0, 0, 0, 0, 0, 0, 0, 0, 0)
  const T2: Message := Message(0, 0, 0, 0, 0, TS, 0, 0, 0, 0, 0, 0, 0, 0, 0, 0)
  const T3: Message := Message(0, 0, 0, 0, 0, 0, 0, 0, 0, 0, 0, TS, 0, 0, 0, 0)
  const T4: Message := Message(0, 0, 0, 0, 0, 0, 0, 0, 0, TS, 0, 0, 0, 0, 0, 0)
  const T5: Message := Message(0, 0, 0, 0, 0, 0, 0, 0, 0, 0, 0, 0, TS, 0, 0, 0)
  const T6: Message := Message(0, 0, 0, 0, 0, 0, 0, 0, 0, 0, TS, 0, 0, 0, 0, 0)

  lemma RoundA0()
    ensures Round(A0, ZERO) == A1
  {
  }

  lemma RoundA1()
    ensures Round(A1, ZERO) == A2
  {
  }

  lemma RoundA2()
    ensures Round(A2, ZERO) == A3
  {
  }

  lemma RoundA3()
    ensures Round(A3, ZERO) == A4
  {
  }

  lemma RoundA4()
    ensures Round(A4, ZERO) == A5
  {
  }

  lemma RoundA5()
    ensures Round(A5, ZERO) == A6
  {
  }

  lemma RoundA6()
    ensures Round(A6, ZERO) == A7
  {
  }

  lemma RoundB0()
    ensures Round(B0, ZERO) == B1
  {
  }

  lemma RoundB1()
    ensures Round(B1, ZERO) == B2
  {
  }

  lemma RoundB2()
    ensures Round(B2, ZERO) == B3
  {
  }

  lemma RoundB3()
    ensures Round(B3, ZERO) == B4
  {
  }

  lemma RoundB4()
    ensures Round(B4, ZERO) == B5
  {
  }

  lemma RoundB5()
    ensures Round(B5, ZERO) == B6
  {
  }

  lemma RoundB6()
    ensures Round(B6, ZERO) == B7
  {
  }

  lemma RoundC0()
    ensures Round(C0, T0) == C1
  {
  }

  lemma RoundC1()
    ensures Round(C1, T1) == C2
  {
  }

  lemma RoundC2()
    ensures Round(C2, T2) == C3
  {
  }

  lemma RoundC3()
    ensures Round(C3, T3) == C4
  {
  }

  lemma RoundC4()
    ensures Round(C4, T4) == C5
  {
  }

  lemma RoundC5()
    ensures Round(C5, T5) == C6
  {
  }

  lemma RoundC6()
    ensures Round(C6, T6) == C7
  {
  }

  // The seven rounds of each of the three blocks.
  lemma FirstBlock()
    ensures Compress(IV, ZERO, 0, 0, 64, CHUNK_START) == CV1
  {
    RoundA0();
    RoundA1();
    RoundA2();
    RoundA3();
    RoundA4();
    RoundA5();
    RoundA6();
    SevenRounds(A0, ZERO);
    hide Round, Rounds, Schedule;
  }

  lemma SecondBlock()
    ensures Compress(CV1, ZERO, 0, 0, 64, 0) == CV2
  {
    RoundB0();
    RoundB1();
    RoundB2();
    RoundB3();
    RoundB4();
    RoundB5();
    RoundB6();
    SevenRounds(B0, ZERO);
    hide Round, Rounds, Schedule;
  }

  lemma LastBlock()
    ensures LastHashWord(CV2, T0) == 1
  {
    RoundC0();
    RoundC1();
    RoundC2();
    RoundC3();
    RoundC4();
    RoundC5();
    RoundC6();
    SevenRounds(C0, T0);
    hide Round, Rounds, Schedule;
  }

  predicate AllZero(b: seq<Byte>) {
    forall k :: 0 <= k < |b| ==> b[k] == 0
  }

  lemma ZeroSlot(b: seq<Byte>, k: nat)
    requires AllZero(b) && 4 * k + 4 <= |b|
    ensures Slot(b, k) == [0, 0, 0, 0] && FromBytes(Slot(b, k)) == 0
  {
    ZeroWord();
  }

  lemma ZeroWords(b: seq<Byte>)
    requires AllZero(b) && |b| == 64
    ensures forall k :: 0 <= k < 16 ==> WordsOf(b)[k] == 0
  {
    hide FromBytes;
    forall k | 0 <= k < 16
      ensures WordsOf(b)[k] == 0
    {
      ZeroSlot(b, k);
    }
  }

  lemma ZeroBlock(cv: seq<Word>, b: seq<Byte>, flags: Word)
    requires |cv| == 8 && AllZero(b) && |b| == 64
    ensures BlockOutput(cv, b, flags) == Compress(cv, ZERO, 0, 0, 64, flags)
  {
    hide Compress, WordsOf, WordOf;
    assert Padded(b) == b;
    ZeroWords(b);
    WordOf64();
  }

  lemma ZeroMidstate(head: seq<Byte>)
    requires AllZero(head) && |head| == HEAD_LEN
    ensures Midstate(head) == CV2
  {
    hide BlockOutput, Compress;
    ZeroBlock(IV, head[..64], CHUNK_START);
    FirstBlock();
    ZeroBlock(CV1, head[64..], 0);
    SecondBlock();
  }

  lemma ZeroFirstNonce(data: seq<Byte>)
    requires AllZero(data) && |data| == DATA_LEN
    ensures Get(data, Offset(NONCE1_WORD)) == 0
  {
    hide FromBytes;
    ZeroSlot(data, 36);
  }

  lemma ZeroBytesOfZero()
    ensures ToBytes(0) == [0, 0, 0, 0]
  {
  }

  lemma ZeroTail(data: seq<Byte>)
    requires AllZero(data) && |data| == DATA_LEN
    ensures TailMessage(MessageArguments(LaunchBlock(data, TS, 0)), 0) == T0
  {
    hide WordsOf;
    ZeroWords(data[HEAD_LEN..]);
  }

  function ZeroData(): (data: seq<Byte>)
    ensures |data| == DATA_LEN && AllZero(data)
  {
    seq(DATA_LEN, _ => 0)
  }

  // A work item that is zero but for its timestamp, with any target.
  function ZeroWork(target: nat): (w: Work)
    ensures ValidWork(w) && w.target == target
  {
    Work(Put(ZeroData(), Offset(TIMESTAMP_WORD), TS), target, TS, TS)
  }

  // Its first launch, in the second in which it arrives.
  function ZeroLaunch(target: nat): (l: Launch)
    ensures ValidWork(l.work) && l.work.target == target
  {
    var w := ZeroWork(target);
    Launch(w, Timestamp(w.jobTime, w.timeReceived, w.timeReceived), 0, 0, 0)
  }

  // As onSoloWork makes them, its job time is the timestamp in its data.
  lemma ZeroWorkIsTimed(target: nat)
    ensures ZeroWork(target).jobTime == Get(ZeroWork(target).data, Offset(TIMESTAMP_WORD))
  {
    hide Put, Get;
    GetPut(ZeroData(), Offset(TIMESTAMP_WORD), TS);
  }

  lemma PutZero(b: seq<Byte>, at: nat)
    requires at + 4 <= |b| && b[at..at + 4] == [0, 0, 0, 0]
    ensures Put(b, at, 0) == b
  {
    hide ToBytes;
    ZeroBytesOfZero();
  }

  // Writing the timestamp makes it the header on zero data.
  lemma ZeroHeader(target: nat)
    ensures HeaderOf(ZeroLaunch(target), 0) == Candidate(ZeroData(), TS, 0, 0, 0)
  {
    hide ToBytes;
    var z, w := ZeroData(), ZeroWork(target).data;
    PutZero(w, Offset(NONCE1_WORD));
    PutZero(w, Offset(NONCE2_WORD));
    assert w[Offset(NONCE3_WORD) := 0] == w;
    PutErases(w, z, Offset(TIMESTAMP_WORD), TS);
  }

  // Its first nonce's header hashes to at least 2^224 and less than 2^225.
  lemma ZeroHash(target: nat)
    ensures Pow256(28) <= HashValue(HeaderOf(ZeroLaunch(target), 0)) < 2 * Pow256(28)
  {
    hide AllZero, Midstate, FinalHash, BlockOutput, BytesOf, Hash, MessageArguments, LaunchBlock, TailMessage,
         MessageOf, WordsOf, Padded, Tail, Candidate, HeaderOf, ZeroLaunch, FromBytes, LittleEndian, Pow256, Get,
         LastHashWord;
    ZeroHeader(target);
    var data := ZeroData();
    ZeroFirstNonce(data);
    var c := Candidate(data, TS, 0, 0, 0);
    ZeroHead(data);
    HostHash(data, TS, 0, 0, 0);
    SameMessage(data, TS, 0, 0, 0);
    ZeroTail(data);
    LastWordOfBlock(CV2, Tail(c));
    LastBlock();
    FinalFlags(CV2, Tail(c));
    LastBytes(BlockOutput(CV2, Tail(c), TAIL_FLAGS));
    LastWordOne(FinalHash(CV2, Tail(c)));
  }

  lemma ZeroHead(data: seq<Byte>)
    requires AllZero(data) && |data| == DATA_LEN
    ensures Midstate(data[..HEAD_LEN]) == CV2
  {
    hide Midstate;
    ZeroMidstate(data[..HEAD_LEN]);
  }

  // With target and limit of at least 2^225 - 1 that header meets the target and
  // is never kept, whatever the work size.
  lemma HeaderMissed(target: nat, powLimit: nat, n: nat)
    requires n > 0 && target >= 2 * Pow256(28) - 1 && powLimit >= 2 * Pow256(28) - 1
    ensures Meets(ZeroLaunch(target), powLimit, 0) && 0 !in WinningNonces(ZeroLaunch(target), powLimit, n)
    ensures !IsBruteForce(ZeroLaunch(target), powLimit, n)
  {
    hide HashValue, HeaderOf, Pow256, WinningNonces, ZeroLaunch;
    ZeroHash(target);
    assert WordOf(0) == 0;
    WinnersInOrder(ZeroLaunch(target), powLimit, n);
  }

  ghost predicate AlwaysBruteForce(powLimit: nat, n: nat) {
    forall l: Launch :: ValidWork(l.work) ==> IsBruteForce(l, powLimit, n)
  }

  lemma BelowTheLimit(powLimit: nat, n: nat)
    requires powLimit < Pow256(28)
    ensures AlwaysBruteForce(powLimit, n)
  {
    hide Pow256, IsBruteForce;
    forall l: Launch | ValidWork(l.work)
      ensures IsBruteForce(l, powLimit, n)
    {
      SearchIsBruteForce(l, powLimit, n);
    }
  }

  lemma AboveTheLimit(powLimit: nat, n: nat)
    requires n > 0 && powLimit >= 2 * Pow256(28) - 1
    ensures !AlwaysBruteForce(powLimit, n)
  {
    hide Pow256, IsBruteForce, ZeroLaunch;
    HeaderMissed(powLimit, powLimit, n);
  }

  // On a network whose limit is 2^k - 1, every search of one nonce or more is
  // brute force exactly if k is at most 224.
  lemma BruteForceExactly(k: nat, n: nat)
    requires n > 0
    ensures AlwaysBruteForce(Pow2(k) - 1, n) <==> k <= 224
  {
    hide AlwaysBruteForce, Pow256, Pow2;
    LimitsOfPowers(k);
    if k <= 224 {
      BelowTheLimit(Pow2(k) - 1, n);
    } else {
      AboveTheLimit(Pow2(k) - 1, n);
    }
  }

  lemma LimitsOfPowers(k: nat)
    ensures k <= 224 ==> Pow2(k) <= Pow256(28)
    ensures k > 224 ==> Pow2(k) >= 2 * Pow256(28)
  {
    hide Pow256, Pow2;
    Pow256IsPow2(28);
    NoLess(k, 224);
    Pow2Next(224);
    NoLess(225, k);
  }

  lemma NoLess(m: nat, n: nat)
    ensures m <= n ==> Pow2(m) <= Pow2(n)
  {
    if m < n {
      Pow2Grows(m, n);
    }
  }
}

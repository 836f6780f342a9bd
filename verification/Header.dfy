// The work item (work/work.go) and the header a device hashes for a nonce: how
// the kernel's arguments and the bytes the host rebuilds spell the same block.
module Header {
  import opened Words
  import opened Blake3Spec
  import opened Blake3Host
  import opened Kernel

  const TIMESTAMP_WORD: nat := 2
  const NONCE0_WORD: nat := 3
  const NONCE1_WORD: nat := 4
  const NONCE2_WORD: nat := 5
  const NONCE3_WORD: nat := 6

  const DATA_LEN: nat := 192
  const HEADER_LEN: nat := 180
  const HEAD_LEN: nat := 128

  // Target is the number the little-endian target bytes denote.
  datatype Work = Work(data: seq<Byte>, target: nat, jobTime: Word, timeReceived: Word)

  predicate ValidWork(w: Work) {
    |w.data| == DATA_LEN
  }

  // A work item as the miner makes them.
  type WorkItem = w: Work | ValidWork(w) witness Work(seq(DATA_LEN, _ => 0), 0, 0, 0)

  // The offset of a word of the last block.
  function Offset(word: nat): nat {
    HEAD_LEN + 4 * word
  }

  // The work data with the device's extra nonces and identifying byte filled in.
  function Prepared(data: seq<Byte>, extraNonce: Word, extraNonce2: Word, deviceByte: Byte): (r: seq<Byte>)
    requires |data| == DATA_LEN
    ensures |r| == DATA_LEN
  {
    Put(Put(data, Offset(NONCE1_WORD), extraNonce), Offset(NONCE2_WORD), extraNonce2)[Offset(NONCE3_WORD) := deviceByte]
  }

  // The work data with a candidate's four words filled in.
  function Candidate(data: seq<Byte>, ts: Word, nonce0: Word, nonce1: Word, nonce2: Word): (r: seq<Byte>)
    requires |data| == DATA_LEN
    ensures |r| == DATA_LEN
  {
    Put(Put(Put(Put(data, Offset(TIMESTAMP_WORD), ts), Offset(NONCE0_WORD), nonce0), Offset(NONCE1_WORD), nonce1),
        Offset(NONCE2_WORD), nonce2)
  }

  // The last block of the work data with the launch's words filled in.
  function LaunchBlock(data: seq<Byte>, ts: Word, nonce2: Word): (r: seq<Word>)
    requires |data| == DATA_LEN
    ensures |r| == 16
  {
    WordsOf(data[HEAD_LEN..])[NONCE2_WORD := nonce2][TIMESTAMP_WORD := ts]
  }

  // The twelve message arguments: the first thirteen words of the last block
  // without the nonce.
  function MessageArguments(block: seq<Word>): (m: seq<Word>)
    requires |block| == 16
    ensures |m| == 12
  {
    block[..NONCE0_WORD] + block[NONCE0_WORD + 1..13]
  }

  function Tail(data: seq<Byte>): (r: seq<Byte>)
    requires |data| == DATA_LEN
    ensures |r| == 52
  {
    data[HEAD_LEN..HEADER_LEN]
  }

  lemma CandidateWords(data: seq<Byte>, ts: Word, nonce0: Word, nonce1: Word, nonce2: Word, k: nat)
    requires |data| == DATA_LEN && k < 16
    ensures Get(Candidate(data, ts, nonce0, nonce1, nonce2), Offset(k)) ==
            if k == TIMESTAMP_WORD then ts
            else if k == NONCE0_WORD then nonce0
            else if k == NONCE1_WORD then nonce1
            else if k == NONCE2_WORD then nonce2
            else Get(data, Offset(k))
  {
    hide Put, Get;
    var d1 := Put(data, Offset(TIMESTAMP_WORD), ts);
    var d2 := Put(d1, Offset(NONCE0_WORD), nonce0);
    var d3 := Put(d2, Offset(NONCE1_WORD), nonce1);
    GetAfterPut(data, TIMESTAMP_WORD, ts, k);
    GetAfterPut(d1, NONCE0_WORD, nonce0, k);
    GetAfterPut(d2, NONCE1_WORD, nonce1, k);
    GetAfterPut(d3, NONCE2_WORD, nonce2, k);
  }

  lemma GetAfterPut(data: seq<Byte>, word: nat, w: Word, k: nat)
    requires |data| == DATA_LEN && word < 16 && k < 16
    ensures Get(Put(data, Offset(word), w), Offset(k)) == if k == word then w else Get(data, Offset(k))
  {
    hide Put, Get;
    if k == word {
      GetPut(data, Offset(word), w);
    } else {
      GetPutOther(data, Offset(word), w, Offset(k));
    }
  }

  lemma CandidateHead(data: seq<Byte>, ts: Word, nonce0: Word, nonce1: Word, nonce2: Word)
    requires |data| == DATA_LEN
    ensures Candidate(data, ts, nonce0, nonce1, nonce2)[..HEAD_LEN] == data[..HEAD_LEN]
  {
    hide ToBytes;
  }

  lemma SliceOfSlice(b: seq<Byte>, lo: nat, hi: nat, i: nat, j: nat)
    requires lo <= hi <= |b| && i <= j <= hi - lo
    ensures b[lo..hi][i..j] == b[lo + i..lo + j]
  {
    forall k | 0 <= k < j - i
      ensures b[lo..hi][i..j][k] == b[lo + i..lo + j][k]
    {
      assert b[lo..hi][i + k] == b[lo + i + k];
    }
  }

  // The words of the zero-padded 52-byte tail: thirteen from the data, three zero.
  lemma TailWords(data: seq<Byte>, k: nat)
    requires |data| == DATA_LEN && k < 16
    ensures WordsOf(Padded(Tail(data)))[k] == if k < 13 then Get(data, Offset(k)) else 0
  {
    var p := Padded(Tail(data));
    hide FromBytes;
    if k < 13 {
      assert p[..52] == Tail(data);
      SliceOfSlice(p, 0, 52, 4 * k, 4 * k + 4);
      SliceOfSlice(data, HEAD_LEN, HEADER_LEN, 4 * k, 4 * k + 4);
    } else {
      ZeroWord();
      assert Slot(p, k) == [0, 0, 0, 0];
    }
  }

  // What the kernel hashes for a nonce is what the host rebuilds for it,
  // whatever the last twelve bytes of the work data hold.
  lemma SameMessage(data: seq<Byte>, ts: Word, nonce0: Word, nonce1: Word, nonce2: Word)
    requires |data| == DATA_LEN && Get(data, Offset(NONCE1_WORD)) == nonce1
    ensures TailMessage(MessageArguments(LaunchBlock(data, ts, nonce2)), nonce0) ==
            MessageOf(WordsOf(Padded(Tail(Candidate(data, ts, nonce0, nonce1, nonce2)))))
  {
    hide LaunchBlock, Candidate, WordsOf, Padded, Tail;
    forall k | 0 <= k < 16
      ensures SameWord(data, ts, nonce0, nonce1, nonce2, k)
    {
      WordMatches(data, ts, nonce0, nonce1, nonce2, k);
    }
    assert SameWord(data, ts, nonce0, nonce1, nonce2, 0);
    assert SameWord(data, ts, nonce0, nonce1, nonce2, 1);
    assert SameWord(data, ts, nonce0, nonce1, nonce2, 2);
    assert SameWord(data, ts, nonce0, nonce1, nonce2, 3);
    assert SameWord(data, ts, nonce0, nonce1, nonce2, 4);
    assert SameWord(data, ts, nonce0, nonce1, nonce2, 5);
    assert SameWord(data, ts, nonce0, nonce1, nonce2, 6);
    assert SameWord(data, ts, nonce0, nonce1, nonce2, 7);
    assert SameWord(data, ts, nonce0, nonce1, nonce2, 8);
    assert SameWord(data, ts, nonce0, nonce1, nonce2, 9);
    assert SameWord(data, ts, nonce0, nonce1, nonce2, 10);
    assert SameWord(data, ts, nonce0, nonce1, nonce2, 11);
    assert SameWord(data, ts, nonce0, nonce1, nonce2, 12);
    assert SameWord(data, ts, nonce0, nonce1, nonce2, 13);
    assert SameWord(data, ts, nonce0, nonce1, nonce2, 14);
    assert SameWord(data, ts, nonce0, nonce1, nonce2, 15);
  }

  predicate SameWord(data: seq<Byte>, ts: Word, nonce0: Word, nonce1: Word, nonce2: Word, k: nat)
    requires |data| == DATA_LEN && k < 16
  {
    WordsOf(Padded(Tail(Candidate(data, ts, nonce0, nonce1, nonce2))))[k] ==
    if k >= 13 then 0 else if k == NONCE0_WORD then nonce0 else LaunchBlock(data, ts, nonce2)[k]
  }

  lemma WordMatches(data: seq<Byte>, ts: Word, nonce0: Word, nonce1: Word, nonce2: Word, k: nat)
    requires |data| == DATA_LEN && Get(data, Offset(NONCE1_WORD)) == nonce1 && k < 16
    ensures SameWord(data, ts, nonce0, nonce1, nonce2, k)
  {
    hide Get, Candidate, WordsOf, Padded, Tail;
    TailWords(Candidate(data, ts, nonce0, nonce1, nonce2), k);
    CandidateWords(data, ts, nonce0, nonce1, nonce2, k);
    LastBlockWord(data, k);
  }

  lemma ZeroWord()
    ensures FromBytes([0, 0, 0, 0]) == 0
  {
  }

  lemma LastBlockWord(data: seq<Byte>, k: nat)
    requires |data| == DATA_LEN && k < 16
    ensures WordsOf(data[HEAD_LEN..])[k] == Get(data, Offset(k))
  {
    hide FromBytes;
    assert Slot(data[HEAD_LEN..], k) == data[Offset(k)..Offset(k) + 4];
  }

  // The hash a header is judged by, and the number it denotes.
  function HeaderHash(data: seq<Byte>): (h: seq<Byte>)
    requires |data| == DATA_LEN
    ensures |h| == 32
  {
    Hash(data[..HEADER_LEN])
  }

  function HashValue(data: seq<Byte>): nat
    requires |data| == DATA_LEN
  {
    LittleEndian(HeaderHash(data))
  }

  // The host's re-hash of a candidate from the work's midstate is the hash of
  // the candidate's header.
  lemma HostHash(data: seq<Byte>, ts: Word, nonce0: Word, nonce1: Word, nonce2: Word)
    requires |data| == DATA_LEN
    ensures var c := Candidate(data, ts, nonce0, nonce1, nonce2);
            FinalHash(Midstate(data[..HEAD_LEN]), Tail(c)) == HeaderHash(c)
  {
    hide FinalHash, Midstate, Hash, Candidate;
    var c := Candidate(data, ts, nonce0, nonce1, nonce2);
    CandidateHead(data, ts, nonce0, nonce1, nonce2);
    assert c[..HEADER_LEN] == data[..HEAD_LEN] + Tail(c);
    MidstateChainingIsHashing(data[..HEAD_LEN], Tail(c));
  }

  lemma LastBytes(out: seq<Word>)
    requires |out| == 8
    ensures FromBytes(BytesOf(out)[28..32]) == out[7]
  {
    hide FromBytes, ToBytes;
    assert Slot(BytesOf(out), 7) == ToBytes(out[7]);
    FromBytesToBytes(out[7]);
  }

  lemma LastWordOfBlock(cv: seq<Word>, tail: seq<Byte>)
    requires |cv| == 8 && |tail| == 52
    ensures BlockOutput(cv, tail, TAIL_FLAGS)[7] == LastHashWord(cv, MessageOf(WordsOf(Padded(tail))))
  {
    hide Compress, MessageOf, WordsOf, Padded, WordOf;
    WordOf52();
  }

  lemma FinalFlags(cv: seq<Word>, tail: seq<Byte>)
    requires |cv| == 8 && |tail| <= BLOCK_LEN
    ensures FinalHash(cv, tail) == BytesOf(BlockOutput(cv, tail, TAIL_FLAGS))
  {
    hide BlockOutput, BytesOf;
    assert CHUNK_END | ROOT == TAIL_FLAGS;
  }

  // The kernel keeps a nonce exactly when the header hash it makes is below
  // 2^224.
  lemma KernelAgreesWithHost(data: seq<Byte>, ts: Word, nonce0: Word, nonce1: Word, nonce2: Word)
    requires |data| == DATA_LEN && Get(data, Offset(NONCE1_WORD)) == nonce1
    ensures Survives(Midstate(data[..HEAD_LEN]), MessageArguments(LaunchBlock(data, ts, nonce2)), nonce0) <==>
            HashValue(Candidate(data, ts, nonce0, nonce1, nonce2)) < Pow256(28)
  {
    hide LastHashWord, Midstate, FinalHash, BlockOutput, BytesOf, Hash, MessageArguments, LaunchBlock, TailMessage,
         MessageOf, WordsOf, Padded, Tail, Candidate, FromBytes, LittleEndian, Pow256, Get;
    var cv, c := Midstate(data[..HEAD_LEN]), Candidate(data, ts, nonce0, nonce1, nonce2);
    SameMessage(data, ts, nonce0, nonce1, nonce2);
    LastWordOfBlock(cv, Tail(c));
    LastBytes(BlockOutput(cv, Tail(c), TAIL_FLAGS));
    FinalFlags(cv, Tail(c));
    HostHash(data, ts, nonce0, nonce1, nonce2);
    LastWordZero(FinalHash(cv, Tail(c)));
  }
}

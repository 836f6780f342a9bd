// What a kernel launch is for: every nonce below the work size tried, and the
// headers that meet the target kept, in order.
module BruteForce {
  import opened Integers
  import opened Words
  import opened Blake3Host
  import opened Kernel
  import opened Header

  // The timestamp of a launch: the job's, moved on by the seconds since the
  // work arrived, in uint32 arithmetic.
  function Timestamp(jobTime: Word, timeReceived: Word, now: Word): Word {
    jobTime + (now - timeReceived)
  }

  // A launch d seconds after the work arrived carries the job's time moved on by
  // as many.
  lemma TimestampMoves(jobTime: Word, timeReceived: Word, d: Word)
    ensures Timestamp(jobTime, timeReceived, timeReceived + d) == jobTime + d
    ensures Value(Timestamp(jobTime, timeReceived, timeReceived + d)) == (Value(jobTime) + Value(d)) % TWO_TO_THE_32
  {
    hide Value, Add;
    AddIs(jobTime, d);
    ValueAdds(jobTime, d);
  }

  // One kernel launch: the work it searches and the words the device adds.
  datatype Launch = Launch(work: Work, ts: Word, extraNonce: Word, extraNonce2: Word, deviceByte: Byte)

  // The header a launch tries for a nonce.
  function HeaderOf(l: Launch, nonce: Word): (h: seq<Byte>)
    requires ValidWork(l.work)
    ensures |h| == DATA_LEN
  {
    Candidate(Prepared(l.work.data, l.extraNonce, l.extraNonce2, l.deviceByte),
              l.ts, nonce, l.extraNonce, l.extraNonce2)
  }

  // What becomes of a candidate whose header hash denotes the given number.
  datatype Verdict = Mismatch | AbovePowLimit | AboveTarget | BelowTarget

  function Judge(hash: nat, target: nat, powLimit: nat): Verdict {
    if hash >= Pow256(28) then Mismatch
    else if hash > powLimit then AbovePowLimit
    else if hash > target then AboveTarget
    else BelowTarget
  }

  function VerdictOf(l: Launch, nonce: Word, powLimit: nat): Verdict
    requires ValidWork(l.work)
  {
    Judge(HashValue(HeaderOf(l, nonce)), l.work.target, powLimit)
  }

  // Brute force over the nonces below n: those whose header hashes below 2^224,
  // the headers that win, and the number that count as shares.
  function Hits(l: Launch, n: nat): (r: seq<Word>)
    requires ValidWork(l.work)
    ensures |r| <= n
  {
    if n == 0 then []
    else if HashValue(HeaderOf(l, WordOf(n - 1))) < Pow256(28) then Hits(l, n - 1) + [WordOf(n - 1)]
    else Hits(l, n - 1)
  }

  function Winners(l: Launch, powLimit: nat, n: nat): (r: seq<seq<Byte>>)
    requires ValidWork(l.work)
  {
    if n == 0 then []
    else if VerdictOf(l, WordOf(n - 1), powLimit).BelowTarget?
    then Winners(l, powLimit, n - 1) + [HeaderOf(l, WordOf(n - 1))]
    else Winners(l, powLimit, n - 1)
  }

  function Shares(l: Launch, powLimit: nat, n: nat): nat
    requires ValidWork(l.work)
  {
    if n == 0 then 0
    else
      var v := VerdictOf(l, WordOf(n - 1), powLimit);
      Shares(l, powLimit, n - 1) + if v.AboveTarget? || v.BelowTarget? then 1 else 0
  }

  // The same two, over a list of candidates in order.
  function WinnersAmong(l: Launch, powLimit: nat, nonces: seq<Word>): (r: seq<seq<Byte>>)
    requires ValidWork(l.work)
  {
    if nonces == [] then []
    else
      var last := nonces[|nonces| - 1];
      WinnersAmong(l, powLimit, nonces[..|nonces| - 1])
      + if VerdictOf(l, last, powLimit).BelowTarget? then [HeaderOf(l, last)] else []
  }

  function SharesAmong(l: Launch, powLimit: nat, nonces: seq<Word>): nat
    requires ValidWork(l.work)
  {
    if nonces == [] then 0
    else
      var v := VerdictOf(l, nonces[|nonces| - 1], powLimit);
      SharesAmong(l, powLimit, nonces[..|nonces| - 1]) + if v.AboveTarget? || v.BelowTarget? then 1 else 0
  }

  lemma NothingAmong(l: Launch, powLimit: nat)
    requires ValidWork(l.work)
    ensures WinnersAmong(l, powLimit, []) == [] && SharesAmong(l, powLimit, []) == 0
  {
    hide VerdictOf, HeaderOf;
  }

  lemma OneMoreAmong(l: Launch, powLimit: nat, nonces: seq<Word>, last: Word)
    requires ValidWork(l.work)
    ensures var v := Judge(HashValue(HeaderOf(l, last)), l.work.target, powLimit);
            && WinnersAmong(l, powLimit, nonces + [last]) ==
               WinnersAmong(l, powLimit, nonces) + (if v.BelowTarget? then [HeaderOf(l, last)] else [])
            && SharesAmong(l, powLimit, nonces + [last]) ==
               SharesAmong(l, powLimit, nonces) + (if v.AboveTarget? || v.BelowTarget? then 1 else 0)
  {
    hide Judge, HeaderOf, HashValue;
    assert (nonces + [last])[..|nonces|] == nonces;
  }

  // Only hits can win or count as shares, so assessing the hits is enough.
  lemma {:induction false} AssessingHits(l: Launch, powLimit: nat, n: nat)
    requires ValidWork(l.work)
    ensures WinnersAmong(l, powLimit, Hits(l, n)) == Winners(l, powLimit, n)
    ensures SharesAmong(l, powLimit, Hits(l, n)) == Shares(l, powLimit, n)
  {
    hide HashValue, HeaderOf, WordOf, Pow256;
    if n > 0 {
      AssessingHits(l, powLimit, n - 1);
      var h := Hits(l, n);
      if HashValue(HeaderOf(l, WordOf(n - 1))) < Pow256(28) {
        assert h[..|h| - 1] == Hits(l, n - 1);
      }
    }
  }

  // The kernel's survivors are the hits, whichever second extra nonce the data
  // was prepared with.
  lemma {:induction false} SurvivorsAreHits(l: Launch, data: seq<Byte>, stale: Word, n: nat)
    requires ValidWork(l.work)
    requires data == Prepared(l.work.data, l.extraNonce, stale, l.deviceByte)
    ensures Survivors(Midstate(data[..HEAD_LEN]), MessageArguments(LaunchBlock(data, l.ts, l.extraNonce2)), n) ==
            Hits(l, n)
  {
    hide Survives, Midstate, MessageArguments, LaunchBlock, HashValue, WordOf, Pow256, Get, Candidate, Prepared;
    if n > 0 {
      SurvivorsAreHits(l, data, stale, n - 1);
      PreparedNonce1(l.work.data, l.extraNonce, stale, l.deviceByte);
      KernelAgreesWithHost(data, l.ts, WordOf(n - 1), l.extraNonce, l.extraNonce2);
      LaunchNonce2Wins(l.work.data, l.ts, WordOf(n - 1), l.extraNonce, stale, l.extraNonce2, l.deviceByte);
    }
  }

  lemma {:induction false} HitsHit(l: Launch, n: nat, k: nat)
    requires ValidWork(l.work) && k < |Hits(l, n)|
    ensures HashValue(HeaderOf(l, Hits(l, n)[k])) < Pow256(28)
  {
    hide HashValue, HeaderOf, WordOf, Pow256;
    if k < |Hits(l, n - 1)| {
      HitsHit(l, n - 1, k);
    }
  }

  lemma PreparedNonce1(data: seq<Byte>, extraNonce: Word, extraNonce2: Word, deviceByte: Byte)
    requires |data| == DATA_LEN
    ensures Get(Prepared(data, extraNonce, extraNonce2, deviceByte), Offset(NONCE1_WORD)) == extraNonce
  {
    hide Get, Put;
    var d1 := Put(data, Offset(NONCE1_WORD), extraNonce);
    GetPut(data, Offset(NONCE1_WORD), extraNonce);
    GetPutOther(d1, Offset(NONCE2_WORD), extraNonce2, Offset(NONCE1_WORD));
    var d2 := Put(d1, Offset(NONCE2_WORD), extraNonce2);
    GetUpdated(d2, Offset(NONCE3_WORD), deviceByte, Offset(NONCE1_WORD));
  }

  lemma GetUpdated(data: seq<Byte>, at: nat, b: Byte, word: nat)
    requires at < |data| && word + 4 <= at
    ensures Get(data[at := b], word) == Get(data, word)
  {
    hide FromBytes;
    assert data[at := b][word..word + 4] == data[word..word + 4];
  }

  // The second extra nonce the data was prepared with does not matter: every
  // candidate carries the one of its launch.
  lemma LaunchNonce2Wins(data: seq<Byte>, ts: Word, nonce0: Word, extraNonce: Word, stale: Word, extraNonce2: Word,
                         deviceByte: Byte)
    requires |data| == DATA_LEN
    ensures Candidate(Prepared(data, extraNonce, stale, deviceByte), ts, nonce0, extraNonce, extraNonce2) ==
            Candidate(Prepared(data, extraNonce, extraNonce2, deviceByte), ts, nonce0, extraNonce, extraNonce2)
    ensures Prepared(data, extraNonce, stale, deviceByte)[..HEAD_LEN] ==
            Prepared(data, extraNonce, extraNonce2, deviceByte)[..HEAD_LEN]
  {
    hide Put;
    var at := Offset(NONCE2_WORD);
    var d := Put(data, Offset(NONCE1_WORD), extraNonce);
    PutAgrees(d, d, at, stale, extraNonce2);
    var p, q := Prepared(data, extraNonce, stale, deviceByte), Prepared(data, extraNonce, extraNonce2, deviceByte);
    assert AgreeOutside(p, q, at);
    var p1, q1 := Put(p, Offset(TIMESTAMP_WORD), ts), Put(q, Offset(TIMESTAMP_WORD), ts);
    PutKeepsAgreement(p, q, at, Offset(TIMESTAMP_WORD), ts);
    var p2, q2 := Put(p1, Offset(NONCE0_WORD), nonce0), Put(q1, Offset(NONCE0_WORD), nonce0);
    PutKeepsAgreement(p1, q1, at, Offset(NONCE0_WORD), nonce0);
    PutKeepsAgreement(p2, q2, at, Offset(NONCE1_WORD), extraNonce);
    PutErases(Put(p2, Offset(NONCE1_WORD), extraNonce), Put(q2, Offset(NONCE1_WORD), extraNonce), at, extraNonce2);
  }

  // Two buffers that differ at most in the four bytes at an offset.
  predicate AgreeOutside(p: seq<Byte>, q: seq<Byte>, at: nat) {
    |p| == |q| == DATA_LEN && at + 4 <= DATA_LEN && p[..at] == q[..at] && p[at + 4..] == q[at + 4..]
  }

  lemma PutAgrees(p: seq<Byte>, q: seq<Byte>, at: nat, v: Word, w: Word)
    requires AgreeOutside(p, q, at)
    ensures AgreeOutside(Put(p, at, v), Put(q, at, w), at)
  {
    hide ToBytes;
  }

  lemma PutKeepsAgreement(p: seq<Byte>, q: seq<Byte>, at: nat, other: nat, w: Word)
    requires AgreeOutside(p, q, at) && other + 4 <= at
    ensures AgreeOutside(Put(p, other, w), Put(q, other, w), at)
  {
    hide ToBytes;
    assert p[..other] == p[..at][..other] && q[..other] == q[..at][..other];
    assert p[other + 4..at] == p[..at][other + 4..] && q[other + 4..at] == q[..at][other + 4..];
    assert Put(p, other, w)[..at] == p[..other] + ToBytes(w) + p[other + 4..at];
    assert Put(q, other, w)[..at] == q[..other] + ToBytes(w) + q[other + 4..at];
    assert Put(p, other, w)[at + 4..] == p[at + 4..] && Put(q, other, w)[at + 4..] == q[at + 4..];
  }

  lemma PutErases(p: seq<Byte>, q: seq<Byte>, at: nat, w: Word)
    requires AgreeOutside(p, q, at)
    ensures Put(p, at, w) == Put(q, at, w)
  {
    hide ToBytes;
  }

  // A header, byte by byte: the timestamp, the nonce, the two extra nonces and the
  // device byte where they go, and the work data everywhere else.
  lemma HeaderBytes(l: Launch, nonce: Word)
    requires ValidWork(l.work)
    ensures var h := HeaderOf(l, nonce);
            && |h| == 192 && h[..136] == l.work.data[..136]
            && h[136..140] == ToBytes(l.ts) && h[140..144] == ToBytes(nonce)
            && h[144..148] == ToBytes(l.extraNonce) && h[148..152] == ToBytes(l.extraNonce2)
            && h[152] == l.deviceByte && h[153..] == l.work.data[153..]
  {
    hide HeaderOf, ToBytes;
    HeaderField(l, nonce, 0, l.work.data[..136]);
    HeaderField(l, nonce, 136, ToBytes(l.ts));
    HeaderField(l, nonce, 140, ToBytes(nonce));
    HeaderField(l, nonce, 144, ToBytes(l.extraNonce));
    HeaderField(l, nonce, 148, ToBytes(l.extraNonce2));
    HeaderField(l, nonce, 152, [l.deviceByte]);
    HeaderField(l, nonce, 153, l.work.data[153..]);
    assert HeaderOf(l, nonce)[152..153][0] == l.deviceByte;
  }

  lemma HeaderField(l: Launch, nonce: Word, lo: nat, b: seq<Byte>)
    requires ValidWork(l.work) && lo + |b| <= 192
    requires forall k :: 0 <= k < |b| ==> b[k] == HeaderByte(l, nonce, lo + k)
    ensures HeaderOf(l, nonce)[lo..lo + |b|] == b
  {
    hide HeaderOf, HeaderByte;
    forall k | 0 <= k < |b|
      ensures HeaderOf(l, nonce)[lo + k] == b[k]
    {
      HeaderByteAt(l, nonce, lo + k);
    }
  }

  function HeaderByte(l: Launch, nonce: Word, k: nat): Byte
    requires ValidWork(l.work) && k < 192
  {
    if 136 <= k < 140 then ToBytes(l.ts)[k - 136]
    else if 140 <= k < 144 then ToBytes(nonce)[k - 140]
    else if 144 <= k < 148 then ToBytes(l.extraNonce)[k - 144]
    else if 148 <= k < 152 then ToBytes(l.extraNonce2)[k - 148]
    else if k == 152 then l.deviceByte
    else l.work.data[k]
  }

  lemma HeaderByteAt(l: Launch, nonce: Word, k: nat)
    requires ValidWork(l.work) && k < 192
    ensures HeaderOf(l, nonce)[k] == HeaderByte(l, nonce, k)
  {
    hide ToBytes, Put;
    var d1 := Put(l.work.data, 144, l.extraNonce);
    var d2 := Put(d1, 148, l.extraNonce2);
    var d3 := d2[152 := l.deviceByte];
    var d4 := Put(d3, 136, l.ts);
    var d5 := Put(d4, 140, nonce);
    var d6 := Put(d5, 144, l.extraNonce);
    PutAt(l.work.data, 144, l.extraNonce, k);
    PutAt(d1, 148, l.extraNonce2, k);
    PutAt(d3, 136, l.ts, k);
    PutAt(d4, 140, nonce, k);
    PutAt(d5, 144, l.extraNonce, k);
    PutAt(d6, 148, l.extraNonce2, k);
  }

  lemma PutAt(b: seq<Byte>, at: nat, w: Word, k: nat)
    requires at + 4 <= |b| && k < |b|
    ensures Put(b, at, w)[k] == if at <= k < at + 4 then ToBytes(w)[k - at] else b[k]
  {
    hide ToBytes;
  }

  // The fields of a header that a launch and a nonce decide.
  lemma HeaderFields(l: Launch, nonce: Word)
    requires ValidWork(l.work)
    ensures var h := HeaderOf(l, nonce);
            && Get(h, Offset(NONCE0_WORD)) == nonce
            && Get(h, Offset(NONCE1_WORD)) == l.extraNonce
            && Get(h, Offset(NONCE2_WORD)) == l.extraNonce2
            && h[Offset(NONCE3_WORD)] == l.deviceByte
  {
    hide Get, Prepared;
    var p := Prepared(l.work.data, l.extraNonce, l.extraNonce2, l.deviceByte);
    CandidateWords(p, l.ts, nonce, l.extraNonce, l.extraNonce2, NONCE0_WORD);
    CandidateWords(p, l.ts, nonce, l.extraNonce, l.extraNonce2, NONCE1_WORD);
    CandidateWords(p, l.ts, nonce, l.extraNonce, l.extraNonce2, NONCE2_WORD);
    PreparedByte(l.work.data, l.extraNonce, l.extraNonce2, l.deviceByte);
    CandidateByte(p, l.ts, nonce, l.extraNonce, l.extraNonce2);
  }

  lemma PreparedByte(data: seq<Byte>, extraNonce: Word, extraNonce2: Word, deviceByte: Byte)
    requires |data| == DATA_LEN
    ensures Prepared(data, extraNonce, extraNonce2, deviceByte)[Offset(NONCE3_WORD)] == deviceByte
  {
    hide Put;
  }

  lemma CandidateByte(data: seq<Byte>, ts: Word, nonce0: Word, nonce1: Word, nonce2: Word)
    requires |data| == DATA_LEN
    ensures Candidate(data, ts, nonce0, nonce1, nonce2)[Offset(NONCE3_WORD)] == data[Offset(NONCE3_WORD)]
  {
    hide ToBytes;
  }

  // The last twelve bytes play no part, so headers are compared by the 180 that
  // are hashed.
  function Hashed(l: Launch, nonce: Word): (h: seq<Byte>)
    requires ValidWork(l.work)
    ensures |h| == HEADER_LEN
  {
    HeaderOf(l, nonce)[..HEADER_LEN]
  }

  lemma HashedFields(l: Launch, nonce: Word)
    requires ValidWork(l.work)
    ensures var h := Hashed(l, nonce);
            && Get(h, Offset(NONCE0_WORD)) == nonce
            && Get(h, Offset(NONCE2_WORD)) == l.extraNonce2
            && h[Offset(NONCE3_WORD)] == l.deviceByte
  {
    hide FromBytes, HeaderOf;
    HeaderFields(l, nonce);
    var h := HeaderOf(l, nonce);
    var at0, at2 := Offset(NONCE0_WORD), Offset(NONCE2_WORD);
    assert h[..HEADER_LEN][at0..at0 + 4] == h[at0..at0 + 4];
    assert h[..HEADER_LEN][at2..at2 + 4] == h[at2..at2 + 4];
  }

  // A nonce wins when the BLAKE3 hash of its header, as a number, is within both
  // the target and the proof-of-work limit.
  predicate Meets(l: Launch, powLimit: nat, i: nat)
    requires ValidWork(l.work)
  {
    var v := HashValue(HeaderOf(l, WordOf(i)));
    v <= l.work.target && v <= powLimit
  }

  // The winners are the headers of an increasing list of nonces below n: those
  // that meet the target and are among the hashes the kernel reports.
  function WinningNonces(l: Launch, powLimit: nat, n: nat): seq<nat>
    requires ValidWork(l.work)
  {
    hide VerdictOf;
    if n == 0 then []
    else if VerdictOf(l, WordOf(n - 1), powLimit).BelowTarget? then WinningNonces(l, powLimit, n - 1) + [n - 1]
    else WinningNonces(l, powLimit, n - 1)
  }

  lemma {:induction false} WinnersInOrder(l: Launch, powLimit: nat, n: nat)
    requires ValidWork(l.work)
    ensures var w, r := Winners(l, powLimit, n), WinningNonces(l, powLimit, n);
            && |w| == |r|
            && (forall k :: 0 <= k < |r| ==> w[k] == HeaderOf(l, WordOf(r[k])))
            && (forall j, k :: 0 <= j < k < |r| ==> r[j] < r[k])
            && (forall i :: i in r <==>
                  && 0 <= i < n && HashValue(HeaderOf(l, WordOf(i))) < Pow256(28)
                  && HashValue(HeaderOf(l, WordOf(i))) <= powLimit
                  && HashValue(HeaderOf(l, WordOf(i))) <= l.work.target)
  {
    hide HashValue, HeaderOf, WordOf, Pow256, Winners, WinningNonces;
    WinnersListed(l, powLimit, n);
    WinningInOrder(l, powLimit, n);
  }

  lemma {:induction false} WinnersListed(l: Launch, powLimit: nat, n: nat)
    requires ValidWork(l.work)
    ensures var w, r := Winners(l, powLimit, n), WinningNonces(l, powLimit, n);
            |w| == |r| && forall k :: 0 <= k < |r| ==> w[k] == HeaderOf(l, WordOf(r[k]))
  {
    hide VerdictOf, HeaderOf, WordOf;
    if n > 0 {
      WinnersListed(l, powLimit, n - 1);
    }
  }

  lemma {:induction false} WinningInOrder(l: Launch, powLimit: nat, n: nat)
    requires ValidWork(l.work)
    ensures var r := WinningNonces(l, powLimit, n);
            && (forall j, k :: 0 <= j < k < |r| ==> r[j] < r[k])
            && (forall i :: i in r <==>
                  && 0 <= i < n && HashValue(HeaderOf(l, WordOf(i))) < Pow256(28)
                  && HashValue(HeaderOf(l, WordOf(i))) <= powLimit
                  && HashValue(HeaderOf(l, WordOf(i))) <= l.work.target)
  {
    hide HashValue, HeaderOf, WordOf, Pow256;
    if n > 0 {
      WinningInOrder(l, powLimit, n - 1);
      var before := WinningNonces(l, powLimit, n - 1);
      assert forall k :: 0 <= k < |before| ==> before[k] in before;
    }
  }

  // What counts as a share is any hash the kernel reports that is within the
  // limit, whatever the target: there is one share for each such nonce.
  lemma {:induction false} SharesInOrder(l: Launch, powLimit: nat, n: nat) returns (r: seq<nat>)
    requires ValidWork(l.work)
    ensures Shares(l, powLimit, n) == |r|
    ensures forall j, k :: 0 <= j < k < |r| ==> r[j] < r[k]
    ensures forall i :: i in r <==>
                          && 0 <= i < n && HashValue(HeaderOf(l, WordOf(i))) < Pow256(28)
                          && HashValue(HeaderOf(l, WordOf(i))) <= powLimit
  {
    hide HashValue, HeaderOf, WordOf, Pow256;
    if n == 0 {
      r := [];
    } else {
      r := SharesInOrder(l, powLimit, n - 1);
      assert forall k :: 0 <= k < |r| ==> r[k] in r;
      var v := HashValue(HeaderOf(l, WordOf(n - 1)));
      if v < Pow256(28) && v <= powLimit {
        r := r + [n - 1];
      }
    }
  }

  // The headers kept are those of all the nonces below n that meet the target.
  predicate IsBruteForce(l: Launch, powLimit: nat, n: nat)
    requires ValidWork(l.work)
  {
    forall i :: 0 <= i < n ==> (i in WinningNonces(l, powLimit, n) <==> Meets(l, powLimit, i))
  }

  // With a target or limit below 2^224 the search is brute force.  Above, it is
  // unless some nonce that meets the target hashes to 2^224 or more, for those the
  // kernel never reports.
  lemma SearchIsBruteForce(l: Launch, powLimit: nat, n: nat)
    requires ValidWork(l.work)
    ensures l.work.target < Pow256(28) || powLimit < Pow256(28) ==> IsBruteForce(l, powLimit, n)
    ensures IsBruteForce(l, powLimit, n) <==>
            forall i :: 0 <= i < n && Meets(l, powLimit, i) ==> HashValue(HeaderOf(l, WordOf(i))) < Pow256(28)
  {
    hide HashValue, HeaderOf, WordOf, Pow256, WinningNonces, Winners;
    WinnersInOrder(l, powLimit, n);
  }

  // What a kept header shows of its launch in the bytes that are hashed.
  predicate Carries(h: seq<Byte>, l: Launch) {
    && |h| == DATA_LEN
    && Get(h[..HEADER_LEN], Offset(NONCE2_WORD)) == l.extraNonce2
    && h[..HEADER_LEN][Offset(NONCE3_WORD)] == l.deviceByte
  }

  lemma WinnersCarry(l: Launch, powLimit: nat, n: nat, k: nat)
    requires ValidWork(l.work) && k < |Winners(l, powLimit, n)|
    ensures Carries(Winners(l, powLimit, n)[k], l)
  {
    hide HeaderOf, WordOf, WinningNonces, Winners, Get;
    WinnersInOrder(l, powLimit, n);
    HashedFields(l, WordOf(WinningNonces(l, powLimit, n)[k]));
  }

  // No header is kept twice, not even with other bytes after those hashed.
  lemma WinnersDistinct(l: Launch, powLimit: nat, n: nat, j: nat, k: nat)
    requires ValidWork(l.work) && n <= TWO_TO_THE_32
    requires j < k < |Winners(l, powLimit, n)|
    ensures |Winners(l, powLimit, n)[j]| == |Winners(l, powLimit, n)[k]| == DATA_LEN
    ensures Winners(l, powLimit, n)[j][..HEADER_LEN] != Winners(l, powLimit, n)[k][..HEADER_LEN]
  {
    hide HeaderOf, WordOf, WinningNonces, Winners, Get;
    WinnersInOrder(l, powLimit, n);
    var r := WinningNonces(l, powLimit, n);
    HashedFields(l, WordOf(r[j]));
    HashedFields(l, WordOf(r[k]));
    if WordOf(r[j]) == WordOf(r[k]) {
      WordOfInjective(r[j], r[k]);
    }
  }
}

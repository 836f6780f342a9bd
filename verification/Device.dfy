// One mining device (device.go, device_opencl.go): preparing work, launching
// the kernel, and assessing what it reports.
module Device {
  import opened Options
  import opened Integers
  import opened Words
  import opened Blake3Spec
  import opened Blake3Host
  import opened Kernel
  import opened Header
  import opened BruteForce
  import opened ExtraNonce
  import opened Throttle

  // The device's data, midstate and last block agree with the work item it took
  // up: the data prepared, its first 128 bytes folded, and the rest unpacked but
  // for the two words every launch rewrites.
  ghost predicate Agrees(w: Work, extraNonce: Word, extraNonce2: Word, deviceByte: Byte,
                         data: seq<Byte>, midstate: seq<Word>, block: seq<Word>)
    requires ValidWork(w) && |data| == DATA_LEN && |midstate| == 8 && |block| == 16
  {
    hide Midstate, Prepared, WordsOf;
    && data == Prepared(w.data, extraNonce, extraNonce2, deviceByte)
    && midstate == Midstate(data[..HEAD_LEN])
    && SameButRewritten(block, WordsOf(data[HEAD_LEN..]))
  }

  predicate SameButRewritten(block: seq<Word>, words: seq<Word>)
    requires |block| == |words| == 16
  {
    block == words[TIMESTAMP_WORD := block[TIMESTAMP_WORD]][NONCE2_WORD := block[NONCE2_WORD]]
  }

  lemma Unpacked(words: seq<Word>)
    requires |words| == 16
    ensures SameButRewritten(words, words)
  {
  }

  // What the rest of the program and the outside world decide in one turn of the
  // device's loop: the work item its receive yields, whether the context is done
  // when it is checked, the clock, whether an OpenCL call fails, how long the
  // launch takes, and whether the context is done before the idling is over.
  datatype Turn = Turn(
    received: Option<Work>,
    stopped: bool,
    now: Word,
    failed: bool,
    elapsed: nat,
    stoppedIdling: bool)

  function Latest(held: Option<Work>, received: Option<Work>): Option<Work> {
    if received.Some? then received else held
  }

  // A device without work waits for work or for the context to be done, so it
  // gets past its receive empty-handed only in the second case.
  predicate Legal(script: seq<Turn>, held: Option<Work>) {
    script == [] ||
    var t := script[0];
    && (t.received.Some? ==> ValidWork(t.received.value))
    && (t.received.None? && held.None? ==> t.stopped)
    && Legal(script[1..], Latest(held, t.received))
  }

  predicate AllValid(ls: seq<Launch>) {
    forall k :: 0 <= k < |ls| ==> ValidWork(ls[k].work)
  }

  // No launch has more hits than the output buffer has room for.
  predicate AllFit(ls: seq<Launch>, n: nat)
    requires AllValid(ls)
  {
    forall k :: 0 <= k < |ls| ==> |Hits(ls[k], n)| < 64
  }

  // The launches a run makes, from what the device holds and where its second
  // extra nonce stands.
  function LaunchesOf(script: seq<Turn>, held: Option<Work>, extraNonce: Word, extraNonce2: Word, deviceByte: Byte,
                      dutyCycle: int): (ls: seq<Launch>)
    requires Legal(script, held)
    requires held.Some? ==> ValidWork(held.value)
    ensures AllValid(ls)
  {
    if script == [] || script[0].stopped || script[0].failed then []
    else
      var t := script[0];
      var w := Latest(held, t.received).value;
      var l := LaunchOf(t, w, extraNonce, extraNonce2, deviceByte);
      [l] + if IdleFor(t.elapsed, dutyCycle) > 0 && t.stoppedIdling then []
            else LaunchesOf(script[1..], Some(w), extraNonce, l.extraNonce2, deviceByte, dutyCycle)
  }

  // The launch of a turn, with the extra nonce rolled once more.
  function LaunchOf(t: Turn, w: Work, extraNonce: Word, extraNonce2: Word, deviceByte: Byte): (l: Launch)
    ensures l.work == w
  {
    Launch(w, Timestamp(w.jobTime, w.timeReceived, t.now), extraNonce, RolledOver(extraNonce2), deviceByte)
  }

  // A time is as many seconds after the job's as have passed since it arrived.
  ghost predicate LaterBy(jobTime: Word, timeReceived: Word, now: Word, ts: Word) {
    exists d: Word :: now == Add(timeReceived, d) && ts == Add(jobTime, d)
  }

  lemma LaterByValue(jobTime: Word, timeReceived: Word, now: Word, ts: Word)
    requires LaterBy(jobTime, timeReceived, now, ts)
    ensures Value(ts) == (Value(jobTime) + Value(now) - Value(timeReceived)) % TWO_TO_THE_32
  {
    hide Add, Value;
    var d: Word :| now == Add(timeReceived, d) && ts == Add(jobTime, d);
    ValueAdds(timeReceived, d);
    ValueAdds(jobTime, d);
    SameSeconds(Value(jobTime), Value(timeReceived), Value(d));
  }

  lemma SameSeconds(a: nat, b: nat, d: nat)
    ensures (a + d) % TWO_TO_THE_32 == (a + (b + d) % TWO_TO_THE_32 - b) % TWO_TO_THE_32
  {
  }

  lemma Moved(jobTime: Word, timeReceived: Word, now: Word)
    ensures LaterBy(jobTime, timeReceived, now, Timestamp(jobTime, timeReceived, now))
  {
    Passed(timeReceived, now);
    MovedBy(jobTime, timeReceived, now);
    hide Add, Timestamp;
  }

  lemma Passed(timeReceived: Word, now: Word)
    ensures now == Add(timeReceived, now - timeReceived)
  {
  }

  lemma MovedBy(jobTime: Word, timeReceived: Word, now: Word)
    ensures Timestamp(jobTime, timeReceived, now) == Add(jobTime, now - timeReceived)
  {
  }

  // Whether the loop ends because an OpenCL call failed.
  predicate EndsFailing(script: seq<Turn>, dutyCycle: int) {
    script != [] && !script[0].stopped
    && (script[0].failed
        || (!(IdleFor(script[0].elapsed, dutyCycle) > 0 && script[0].stoppedIdling)
            && EndsFailing(script[1..], dutyCycle)))
  }

  // The idling after a turn's launch is cut short.
  predicate CutShort(t: Turn, dutyCycle: int) {
    IdleFor(t.elapsed, dutyCycle) > 0 && t.stoppedIdling
  }

  // The item a device holds in a turn: the last one it has received by then.
  ghost predicate HoldsIn(script: seq<Turn>, held: Option<Work>, k: nat, w: Work)
    requires k < |script|
  {
    || (held == Some(w) && forall i :: 0 <= i <= k ==> script[i].received.None?)
    || exists j :: 0 <= j <= k && script[j].received == Some(w) && forall i :: j < i <= k ==> script[i].received.None?
  }

  lemma HoldsLater(script: seq<Turn>, held: Option<Work>, k: nat, w: Work)
    requires k + 1 < |script| && HoldsIn(script[1..], Latest(held, script[0].received), k, w)
    ensures HoldsIn(script, held, k + 1, w)
  {
    var rest := script[1..];
    assert forall i :: 0 <= i < |rest| ==> rest[i] == script[i + 1];
    if j :| 0 <= j <= k && rest[j].received == Some(w) && forall i :: j < i <= k ==> rest[i].received.None? {
      assert script[j + 1].received == Some(w);
      forall i | j + 1 < i <= k + 1
        ensures script[i].received.None?
      {
        assert rest[i - 1].received.None?;
      }
    } else {
      forall i | 0 < i <= k + 1
        ensures script[i].received.None?
      {
        assert rest[i - 1].received.None?;
      }
    }
  }

  // Each turn makes one launch: on the item held, at the time its clock shows.
  lemma {:induction false} LaunchInTurn(script: seq<Turn>, held: Option<Work>, extraNonce: Word, extraNonce2: Word,
                                        deviceByte: Byte, dutyCycle: int, k: nat)
    requires Legal(script, held) && (held.Some? ==> ValidWork(held.value))
    requires k < |LaunchesOf(script, held, extraNonce, extraNonce2, deviceByte, dutyCycle)|
    ensures k < |script| && !script[k].stopped && !script[k].failed
    ensures var ls := LaunchesOf(script, held, extraNonce, extraNonce2, deviceByte, dutyCycle);
            && HoldsIn(script, held, k, ls[k].work)
            && LaterBy(ls[k].work.jobTime, ls[k].work.timeReceived, script[k].now, ls[k].ts)
            && (k + 1 < |ls| ==> !CutShort(script[k], dutyCycle))
  {
    hide RolledOver, Timestamp, IdleFor, ValidWork, LaterBy;
    var t := script[0];
    var w := Latest(held, t.received);
    if k == 0 {
      Moved(w.value.jobTime, w.value.timeReceived, t.now);
    } else {
      LaunchInTurn(script[1..], w, extraNonce, RolledOver(extraNonce2), deviceByte, dutyCycle, k - 1);
      var l := LaunchesOf(script, held, extraNonce, extraNonce2, deviceByte, dutyCycle)[k];
      HoldsLater(script, held, k - 1, l.work);
    }
  }

  // And the launches end with the script, with a turn in which the context is done
  // or a call fails, or with an idling cut short.
  lemma {:induction false} LaunchesEnd(script: seq<Turn>, held: Option<Work>, extraNonce: Word, extraNonce2: Word,
                                       deviceByte: Byte, dutyCycle: int)
    requires Legal(script, held) && (held.Some? ==> ValidWork(held.value))
    ensures var n := |LaunchesOf(script, held, extraNonce, extraNonce2, deviceByte, dutyCycle)|;
            var short := 0 < n <= |script| && CutShort(script[n - 1], dutyCycle);
            && n <= |script|
            && (n < |script| ==> short || script[n].stopped || script[n].failed)
            && (EndsFailing(script, dutyCycle) <==>
                  n < |script| && !short && !script[n].stopped && script[n].failed)
  {
    hide RolledOver, Timestamp, IdleFor, ValidWork;
    if script != [] && !script[0].stopped && !script[0].failed {
      var t := script[0];
      var w := Latest(held, t.received);
      LaunchesEnd(script[1..], w, extraNonce, RolledOver(extraNonce2), deviceByte, dutyCycle);
    }
  }

  function AllWinners(ls: seq<Launch>, powLimit: nat, n: nat): seq<seq<Byte>>
    requires AllValid(ls)
  {
    if ls == [] then [] else AllWinners(ls[..|ls| - 1], powLimit, n) + Winners(ls[|ls| - 1], powLimit, n)
  }

  function AllShares(ls: seq<Launch>, powLimit: nat, n: nat): nat
    requires AllValid(ls)
  {
    if ls == [] then 0 else AllShares(ls[..|ls| - 1], powLimit, n) + Shares(ls[|ls| - 1], powLimit, n)
  }

  class Device {
    const index: nat
    const offset1: nat  // the two random offsets of the process
    const offset2: nat
    const workSize: nat
    const dutyCycle: int
    const powLimit: nat
    const benchmark: bool

    var extraNonce: Word
    var extraNonce2: Word
    var midstate: seq<Word>
    const lastBlock: array<Word>

    // The work item held, its data kept apart as the bytes the device edits.
    const data: array<Byte>
    var target: nat
    var jobTime: Word
    var timeReceived: Word
    var hasWork: bool

    // The kernel's arguments and its output buffer, and the host's copy of it.
    const args: array<Word>
    const outputBuffer: array<Word>
    const outputData: array<Word>

    // Every header sent to the workDone channel, oldest first.
    var workDone: seq<seq<Byte>>
    var allDiffOneShares: nat
    var hashMismatches: nat

    // The work item as it was received, the second extra nonce its data was
    // prepared with, and every launch made.
    ghost var current: Option<Work>
    ghost var preparedWith: Word
    ghost var launches: seq<Launch>

    ghost predicate Valid()
      reads this, lastBlock, data, args, outputBuffer, outputData
    {
      && workSize < TWO_TO_THE_32
      && lastBlock.Length == 16 && data.Length == DATA_LEN && args.Length == 21
      && outputBuffer.Length == outputData.Length == OUTPUT_BUFFER_SIZE
      && lastBlock != args && lastBlock != outputBuffer && lastBlock != outputData
      && args != outputBuffer && args != outputData && outputBuffer != outputData
      && |midstate| == 8
      && hasWork == current.Some?
      && (current.Some? ==> Holds(current.value))
    }

    ghost predicate Holds(w: Work)
      requires lastBlock.Length == 16 && data.Length == DATA_LEN && |midstate| == 8
      reads this, lastBlock, data
    {
      && ValidWork(w)
      && Agrees(w, extraNonce, preparedWith, DeviceByte(index, offset2), data[..], midstate, lastBlock[..])
      && target == w.target && jobTime == w.jobTime && timeReceived == w.timeReceived
    }

    constructor (index: nat, offset1: nat, offset2: nat, workSize: nat, dutyCycle: int, powLimit: nat, benchmark: bool)
      requires workSize < TWO_TO_THE_32
      ensures Valid() && !hasWork && workDone == [] && launches == []
      ensures allDiffOneShares == 0 && hashMismatches == 0
      ensures this.index == index && this.offset1 == offset1 && this.offset2 == offset2
      ensures this.workSize == workSize && this.dutyCycle == dutyCycle && this.powLimit == powLimit
      ensures this.benchmark == benchmark
      ensures fresh({lastBlock, args, outputBuffer, outputData}) && fresh(data)
    {
      this.index, this.offset1, this.offset2 := index, offset1, offset2;
      this.workSize, this.dutyCycle, this.powLimit, this.benchmark := workSize, dutyCycle, powLimit, benchmark;
      extraNonce, extraNonce2 := 0, 0;
      midstate := [0, 0, 0, 0, 0, 0, 0, 0];
      lastBlock := new Word[16];
      data := new Byte[DATA_LEN];
      target, jobTime, timeReceived, hasWork := 0, 0, 0, false;
      args := new Word[21];
      outputBuffer := new Word[OUTPUT_BUFFER_SIZE];
      outputData := new Word[OUTPUT_BUFFER_SIZE];
      workDone, allDiffOneShares, hashMismatches := [], 0, 0;
      current, preparedWith, launches := None, 0, [];
    }

    // The nonces a device starts from, given eight random bytes as two words.
    method InitNonces(random1: Word, random2: Word)
      requires Valid() && !hasWork
      modifies this`extraNonce, this`extraNonce2
      ensures Valid()
      ensures extraNonce == random1
      ensures extraNonce2 == InitialNonce2(index, offset1, random2)
      ensures TopByte(extraNonce2) == DeviceByte(index, offset1) && Low24(extraNonce2) == Low24(random2)
      ensures Unsigned(TopByte(extraNonce2)) == (index + offset1) % 256
    {
      DeviceByteValue(index, offset1);
      InitialTopByte(index, offset1, random2);
      InitialLow24(index, offset1, random2);
      hide TopByte, Low24, DeviceByte;
      extraNonce := random1;
      extraNonce2 := (WordOf((index + offset1) % 0x100) << 24) | (random2 & 0x00FF_FFFF);
    }

    // Takes up the work item received, if any.
    method UpdateCurrentWork(received: Option<Work>)
      requires Valid()
      requires received.Some? ==> ValidWork(received.value)
      modifies this`hasWork, this`target, this`jobTime, this`timeReceived, this`midstate
      modifies this`current, this`preparedWith
      modifies data, lastBlock
      ensures Valid()
      ensures current == if received.Some? then received else old(current)
      ensures received.None? ==> unchanged(this) && unchanged(data) && unchanged(lastBlock)
    {
      hide Midstate, WordsOf, DeviceByte, Prepared, SameButRewritten;
      if received.None? {
        return;
      }
      var w := received.value;
      hasWork := true;
      target, jobTime, timeReceived := w.target, w.jobTime, w.timeReceived;
      Prepare(w.data);
      preparedWith := extraNonce2;
      midstate := Fold(data[..]);
      Unpack();
      current := received;
      Unpacked(lastBlock[..]);
    }

    // Copies the work data and fills in the device's extra nonces and its byte.
    method Prepare(d: seq<Byte>)
      requires data.Length == |d| == DATA_LEN
      modifies data
      ensures data[..] == Prepared(d, extraNonce, extraNonce2, DeviceByte(index, offset2))
    {
      hide Put, DeviceByte;
      forall i | 0 <= i < DATA_LEN {
        data[i] := d[i];
      }
      assert data[..] == d;
      PutUint32(data, Offset(NONCE1_WORD), extraNonce);
      PutUint32(data, Offset(NONCE2_WORD), extraNonce2);
      data[Offset(NONCE3_WORD)] := DeviceByte(index, offset2);
    }

    // Hashes the two first blocks.
    method Fold(d: seq<Byte>) returns (cv: seq<Word>)
      requires |d| == DATA_LEN
      ensures cv == Midstate(d[..HEAD_LEN])
    {
      hide BlockOutput;
      assert d[..HEAD_LEN][..64] == d[..64] && d[..HEAD_LEN][64..] == d[64..HEAD_LEN];
      cv := Block(IV, d[..64], CHUNK_START);
      cv := Block(cv, d[64..HEAD_LEN], 0);
    }

    // Converts the next block to words.
    method Unpack()
      requires lastBlock.Length == 16 && data.Length == DATA_LEN
      modifies lastBlock
      ensures lastBlock[..] == WordsOf(data[..][HEAD_LEN..])
    {
      hide FromBytes;
      for i := 0 to 16
        invariant lastBlock[..i] == WordsOf(data[..][HEAD_LEN..])[..i]
      {
        LastBlockWord(data[..], i);
        lastBlock[i] := FromBytes(data[HEAD_LEN + i * 4..HEAD_LEN + i * 4 + 4]);
      }
    }

    // Arguments 1 to 8 are the midstate, 9 to 20 the last block without the
    // nonce.
    method SetKernelArgs()
      requires lastBlock.Length == 16 && args.Length == 21 && lastBlock != args && |midstate| == 8
      modifies args
      ensures args[1..9] == midstate
      ensures args[9..21] == MessageArguments(lastBlock[..])
    {
      ghost var cv, m := midstate, MessageArguments(lastBlock[..]);
      for i := 0 to 8
        invariant forall k :: 0 <= k < i ==> args[k + 1] == cv[k]
      {
        args[i + 1] := midstate[i];
      }
      var i2 := 0;
      for i := 0 to 12
        invariant i2 == if i <= NONCE0_WORD then i else i + 1
        invariant forall k :: 0 <= k < 8 ==> args[k + 1] == cv[k]
        invariant forall k :: 0 <= k < i ==> args[k + 9] == m[k]
      {
        if i2 == NONCE0_WORD {
          i2 := i2 + 1;
        }
        args[i + 9] := lastBlock[i2];
        i2 := i2 + 1;
      }
    }

    // Clears the candidate count, launches the kernel over the work size and
    // reads the output buffer back.
    method RunKernel()
      requires args.Length == 21 && outputBuffer.Length == outputData.Length == OUTPUT_BUFFER_SIZE
      requires outputBuffer != args && outputBuffer != outputData && args != outputData
      requires |Survivors(args[1..9], args[9..21], workSize)| < OUTPUT_BUFFER_SIZE
      modifies outputBuffer, outputData
      ensures Lists(outputData[..], Survivors(args[1..9], args[9..21], workSize))
    {
      hide Survivors, Lists;
      ghost var cv, m := args[1..9], args[9..21];
      outputBuffer[0] := 0;
      assert args[..][1..9] == cv && args[..][9..21] == m;
      EnqueueNDRange(outputBuffer, args[..], workSize);
      ghost var out := outputBuffer[..];
      forall i | 0 <= i < OUTPUT_BUFFER_SIZE {
        outputData[i] := outputBuffer[i];
      }
      assert outputData[..] == out && args[1..9] == cv && args[9..21] == m;
    }

    // Rebuilds a candidate's header, re-hashes it from the midstate and decides
    // what to do with it.
    method FoundCandidate(ts: Word, nonce0: Word, nonce1: Word, nonce2: Word)
      requires data.Length == DATA_LEN && |midstate| == 8
      requires midstate == Midstate(data[..][..HEAD_LEN])
      modifies this`workDone, this`allDiffOneShares, this`hashMismatches
      ensures var c := Candidate(data[..], ts, nonce0, nonce1, nonce2);
              var hash := HashValue(c);
              && hashMismatches == old(hashMismatches) + (if hash >= Pow256(28) then 1 else 0)
              && allDiffOneShares == old(allDiffOneShares) + (if hash < Pow256(28) && hash <= powLimit then 1 else 0)
              && workDone == old(workDone) + (if hash < Pow256(28) && hash <= powLimit && hash <= target && !benchmark
                                              then [c] else [])
    {
      hide Midstate, FinalHash, Candidate, Hash, LittleEndian, Pow256, FromBytes;
      var header := Rebuild(ts, nonce0, nonce1, nonce2);
      var hash := FinalBlock(midstate, header[HEAD_LEN..HEADER_LEN]);
      HostHash(data[..], ts, nonce0, nonce1, nonce2);
      LastWordZero(hash);
      if FromBytes(hash[28..32]) != 0 {
        hashMismatches := hashMismatches + 1;
        return;
      }
      var hashNum := LittleEndian(hash);
      if hashNum > powLimit {
        return;
      }
      allDiffOneShares := allDiffOneShares + 1;
      if !benchmark {
        if hashNum > target {
        } else {
          workDone := workDone + [header];
        }
      }
    }

    method Rebuild(ts: Word, nonce0: Word, nonce1: Word, nonce2: Word) returns (header: seq<Byte>)
      requires data.Length == DATA_LEN
      ensures header == Candidate(data[..], ts, nonce0, nonce1, nonce2)
    {
      hide Put;
      var d := new Byte[DATA_LEN];
      forall i | 0 <= i < DATA_LEN {
        d[i] := data[i];
      }
      assert d[..] == data[..];
      PutUint32(d, Offset(TIMESTAMP_WORD), ts);
      PutUint32(d, Offset(NONCE0_WORD), nonce0);
      PutUint32(d, Offset(NONCE1_WORD), nonce1);
      PutUint32(d, Offset(NONCE2_WORD), nonce2);
      header := d[..];
    }

    method RolloverExtraNonce2()
      modifies this`extraNonce2
      ensures extraNonce2 == RolledOver(old(extraNonce2))
      ensures TopByte(extraNonce2) == TopByte(old(extraNonce2))
      ensures Low24(extraNonce2) == (Low24(old(extraNonce2)) + 1) % TWO_TO_THE_24
    {
      hide TopByte, Low24;
      RollingAddsOne(extraNonce2);
      if extraNonce2 & 0x00FF_FFFF == 0x00FF_FFFF {
        extraNonce2 := extraNonce2 & 0xFF00_0000;
      } else {
        extraNonce2 := Increment(extraNonce2);
      }
    }

    // The launch the device makes next, at the given time.
    ghost function NextLaunch(now: Word): (l: Launch)
      requires Valid() && hasWork
      reads this, lastBlock, data, args, outputBuffer, outputData
      ensures ValidWork(l.work)
    {
      Launch(current.value, Timestamp(jobTime, timeReceived, now), extraNonce, RolledOver(extraNonce2),
             DeviceByte(index, offset2))
    }

    // Assesses every candidate in the host's copy of the output buffer, the count
    // clamped to its size.
    method AssessCandidates(ghost l: Launch)
      requires ValidWork(l.work) && |Hits(l, workSize)| < OUTPUT_BUFFER_SIZE
      requires lastBlock.Length == 16 && data.Length == DATA_LEN && |midstate| == 8
      requires lastBlock != outputData && outputData.Length == OUTPUT_BUFFER_SIZE
      requires Lists(outputData[..], Hits(l, workSize))
      requires midstate == Midstate(data[..][..HEAD_LEN])
      requires data[..] == Prepared(l.work.data, l.extraNonce, preparedWith, l.deviceByte)
      requires lastBlock[TIMESTAMP_WORD] == l.ts && lastBlock[NONCE1_WORD] == l.extraNonce
      requires lastBlock[NONCE2_WORD] == l.extraNonce2 && target == l.work.target
      modifies this`workDone, this`allDiffOneShares, this`hashMismatches
      ensures workDone == old(workDone) + (if benchmark then [] else Winners(l, powLimit, workSize))
      ensures allDiffOneShares == old(allDiffOneShares) + Shares(l, powLimit, workSize)
      ensures hashMismatches == old(hashMismatches)
    {
      hide Hits, Winners, Shares, WinnersAmong, SharesAmong, Value, Prepared, Midstate, VerdictOf, Candidate, HashValue,
           Pow256;
      ghost var found := Hits(l, workSize);
      var count := Value(outputData[0]);
      count := if count < OUTPUT_BUFFER_SIZE - 1 then count else OUTPUT_BUFFER_SIZE - 1;
      NothingAmong(l, powLimit);
      for i := 0 to count
        invariant workDone == old(workDone) + (if benchmark then [] else WinnersAmong(l, powLimit, found[..i]))
        invariant allDiffOneShares == old(allDiffOneShares) + SharesAmong(l, powLimit, found[..i])
        invariant hashMismatches == old(hashMismatches)
      {
        ghost var nonce := found[i];
        assert outputData[i + 1] == outputData[..][1..|found| + 1][i] == nonce;
        HitsHit(l, workSize, i);
        OneMoreAmong(l, powLimit, found[..i], nonce);
        assert found[..i + 1] == found[..i] + [nonce];
        LaunchNonce2Wins(l.work.data, l.ts, nonce, l.extraNonce, preparedWith, l.extraNonce2, l.deviceByte);
        FoundCandidate(lastBlock[TIMESTAMP_WORD], outputData[i + 1], lastBlock[NONCE1_WORD], lastBlock[NONCE2_WORD]);
      }
      assert found[..count] == found;
      AssessingHits(l, powLimit, workSize);
    }

    // Rolls the second extra nonce and writes it and the timestamp into the last
    // block.
    method StampBlock(now: Word)
      requires Valid() && hasWork
      modifies this`extraNonce2, lastBlock
      ensures Valid()
      ensures var l := old(NextLaunch(now));
              && extraNonce2 == l.extraNonce2
              && data[..] == Prepared(l.work.data, l.extraNonce, preparedWith, l.deviceByte)
              && midstate == Midstate(data[..][..HEAD_LEN])
              && lastBlock[..] == LaunchBlock(data[..], l.ts, l.extraNonce2)
              && lastBlock[NONCE1_WORD] == l.extraNonce
              && lastBlock[NONCE2_WORD] == l.extraNonce2
              && lastBlock[TIMESTAMP_WORD] == l.ts
      ensures LaterBy(old(jobTime), old(timeReceived), now, lastBlock[2])
    {
      Moved(jobTime, timeReceived, now);
      hide LaterBy, RolledOver, Timestamp, DeviceByte, Agrees, Prepared, LaunchBlock, Midstate;
      ghost var l := NextLaunch(now);
      RolloverExtraNonce2();
      lastBlock[NONCE2_WORD] := extraNonce2;
      lastBlock[TIMESTAMP_WORD] := Timestamp(jobTime, timeReceived, now);
      AgreesAtLaunch(l, preparedWith, data[..], midstate, old(lastBlock[..]), lastBlock[..]);
    }

    // One launch: rolls the extra nonce, sets the timestamp, runs the kernel and
    // assesses every candidate it reports.
    method MineOnce(now: Word)
      requires Valid() && hasWork
      requires |Hits(NextLaunch(now), workSize)| < OUTPUT_BUFFER_SIZE
      modifies this`extraNonce2, this`workDone, this`allDiffOneShares, this`hashMismatches, this`launches
      modifies lastBlock, args, outputBuffer, outputData
      ensures Valid()
      ensures var l := old(NextLaunch(now));
              && launches == old(launches) + [l]
              && extraNonce2 == l.extraNonce2
              && workDone == old(workDone) + (if benchmark then [] else Winners(l, powLimit, workSize))
              && allDiffOneShares == old(allDiffOneShares) + Shares(l, powLimit, workSize)
              && hashMismatches == old(hashMismatches)
    {
      hide Hits, Winners, Shares, WinnersAmong, SharesAmong, RolledOver, Timestamp, DeviceByte, Value, Agrees, Prepared,
           MessageArguments, LaunchBlock, Survivors, HeaderOf, Midstate, VerdictOf;
      ghost var l := NextLaunch(now);
      StampBlock(now);
      launches := launches + [l];
      SurvivorsAreHits(l, data[..], preparedWith, workSize);
      SetKernelArgs();
      RunKernel();
      AssessCandidates(l);
    }

    // One turn of the loop.  It reports whether the loop is over, and whether
    // that is because an OpenCL call failed.
    method TakeTurn(t: Turn) returns (over: bool, failed: bool)
      requires Valid() && Legal([t], current)
      requires t.stopped || t.failed ||
               var w := Latest(current, t.received).value;
               var l := LaunchOf(t, w, extraNonce, extraNonce2, DeviceByte(index, offset2));
               |Hits(l, workSize)| < OUTPUT_BUFFER_SIZE
      modifies this, lastBlock, data, args, outputBuffer, outputData
      ensures Valid() && current == Latest(old(current), t.received) && extraNonce == old(extraNonce)
      ensures failed == (!t.stopped && t.failed)
      ensures over == (t.stopped || t.failed || (IdleFor(t.elapsed, dutyCycle) > 0 && t.stoppedIdling))
      ensures hashMismatches == old(hashMismatches)
      ensures if t.stopped || t.failed
              then launches == old(launches) && workDone == old(workDone) && allDiffOneShares == old(allDiffOneShares)
              else
                var l := LaunchOf(t, current.value, extraNonce, old(extraNonce2), DeviceByte(index, offset2));
                && launches == old(launches) + [l]
                && extraNonce2 == l.extraNonce2
                && workDone == old(workDone) + (if benchmark then [] else Winners(l, powLimit, workSize))
                && allDiffOneShares == old(allDiffOneShares) + Shares(l, powLimit, workSize)
    {
      hide DeviceByte, Agrees, RolledOver, Timestamp, Hits, Winners, Shares, IdleFor;
      UpdateCurrentWork(t.received);
      if t.stopped {
        return true, false;
      }
      if t.failed {
        return true, true;
      }
      MineOnce(t.now);
      var idle := IdleFor(t.elapsed, dutyCycle);
      return idle > 0 && t.stoppedIdling, false;
    }

    lemma NothingHeld()
      requires Valid() && !hasWork
      ensures current == None
    {
    }

    // The mining loop, over any finite run of turns.
    method RunDevice(random1: Word, random2: Word, script: seq<Turn>) returns (failed: bool)
      requires Valid() && !hasWork && workDone == [] && launches == [] && Legal(script, None)
      requires var v, id := InitialNonce2(index, offset1, random2), DeviceByte(index, offset2);
               AllFit(LaunchesOf(script, None, random1, v, id, dutyCycle), workSize)
      modifies this, lastBlock, data, args, outputBuffer, outputData
      ensures Valid()
      ensures launches == LaunchesOf(script, None, random1, InitialNonce2(index, offset1, random2),
                                     DeviceByte(index, offset2), dutyCycle)
      ensures workDone == if benchmark then [] else AllWinners(launches, powLimit, workSize)
      ensures allDiffOneShares == old(allDiffOneShares) + AllShares(launches, powLimit, workSize)
      ensures hashMismatches == old(hashMismatches)
      ensures failed == EndsFailing(script, dutyCycle)
    {
      hide *;
      NothingHeld();
      ghost var id := DeviceByte(index, offset2);
      InitNonces(random1, random2);
      ghost var all := LaunchesOf(script, None, random1, extraNonce2, id, dutyCycle);
      failed := false;
      NoLaunches(powLimit, workSize);
      SetOut(script, random1, extraNonce2, id, dutyCycle, workSize);
      assert script[0..] == script;
      for n := 0 to |script|
        invariant Valid() && !failed && extraNonce == random1
        invariant OnCourse(script, all, script[n..], launches, current, random1, extraNonce2, id, dutyCycle, workSize)
        invariant AllValid(launches)
        invariant workDone == if benchmark then [] else AllWinners(launches, powLimit, workSize)
        invariant allDiffOneShares == old(allDiffOneShares) + AllShares(launches, powLimit, workSize)
        invariant hashMismatches == old(hashMismatches)
      {
        var t := script[n];
        assert script[n..][0] == t && script[n..][1..] == script[n + 1..];
        OneTurn(script, all, script[n..], launches, current, random1, extraNonce2, id, dutyCycle, workSize);
        ghost var before := launches;
        var over, bad := TakeTurn(t);
        if !t.stopped && !t.failed {
          OneMoreLaunch(before, launches[|before|], powLimit, workSize);
        }
        if over {
          return bad;
        }
      }
      NoTurnsLeft(script, all, launches, current, random1, extraNonce2, id, dutyCycle, workSize);
    }
  }

  // A run with some of its turns taken: what it has launched and what the rest of
  // the script launches make up all its launches.
  predicate OnCourse(script: seq<Turn>, all: seq<Launch>, rest: seq<Turn>, launches: seq<Launch>, held: Option<Work>,
                     extraNonce: Word, extraNonce2: Word, deviceByte: Byte, dutyCycle: int, n: nat)
  {
    && Legal(rest, held) && (held.Some? ==> ValidWork(held.value))
    && EndsFailing(script, dutyCycle) == EndsFailing(rest, dutyCycle)
    && var ls := LaunchesOf(rest, held, extraNonce, extraNonce2, deviceByte, dutyCycle);
    && all == launches + ls && AllFit(ls, n)
  }

  lemma SetOut(script: seq<Turn>, extraNonce: Word, extraNonce2: Word, deviceByte: Byte, dutyCycle: int, n: nat)
    requires Legal(script, None) && AllFit(LaunchesOf(script, None, extraNonce, extraNonce2, deviceByte, dutyCycle), n)
    ensures OnCourse(script, LaunchesOf(script, None, extraNonce, extraNonce2, deviceByte, dutyCycle), script, [], None,
                     extraNonce, extraNonce2, deviceByte, dutyCycle, n)
  {
    hide Legal, EndsFailing, LaunchesOf, AllFit;
    var ls := LaunchesOf(script, None, extraNonce, extraNonce2, deviceByte, dutyCycle);
    assert [] + ls == ls;
  }

  // One turn keeps a run on course, or ends it where its script says.
  lemma OneTurn(script: seq<Turn>, all: seq<Launch>, rest: seq<Turn>, launches: seq<Launch>, held: Option<Work>,
                extraNonce: Word, extraNonce2: Word, deviceByte: Byte, dutyCycle: int, n: nat)
    requires rest != []
    requires OnCourse(script, all, rest, launches, held, extraNonce, extraNonce2, deviceByte, dutyCycle, n)
    ensures var t := rest[0];
            && Legal([t], held) && (t.received.Some? ==> ValidWork(t.received.value))
            && if t.stopped || t.failed then
                 all == launches && EndsFailing(script, dutyCycle) == (!t.stopped && t.failed)
               else
                 && Latest(held, t.received).Some?
                 && var l := LaunchOf(t, Latest(held, t.received).value, extraNonce, extraNonce2, deviceByte);
                 && ValidWork(l.work) && |Hits(l, n)| < OUTPUT_BUFFER_SIZE
                 && if IdleFor(t.elapsed, dutyCycle) > 0 && t.stoppedIdling then
                      all == launches + [l] && !EndsFailing(script, dutyCycle)
                    else
                      OnCourse(script, all, rest[1..], launches + [l], Latest(held, t.received), extraNonce,
                               l.extraNonce2, deviceByte, dutyCycle, n)
  {
    hide Legal, EndsFailing, LaunchesOf, AllFit, LaunchOf, Latest, Hits, IdleFor, ValidWork;
    LegalStep(rest, held);
    FailingStep(rest, dutyCycle);
    FirstLaunch(rest, held, extraNonce, extraNonce2, deviceByte, dutyCycle, n);
    var t := rest[0];
    if !t.stopped && !t.failed {
      var l := LaunchOf(t, Latest(held, t.received).value, extraNonce, extraNonce2, deviceByte);
      var after := LaunchesOf(rest[1..], Latest(held, t.received), extraNonce, l.extraNonce2, deviceByte, dutyCycle);
      assert launches + ([l] + after) == (launches + [l]) + after;
    }
  }

  lemma FailingStep(script: seq<Turn>, dutyCycle: int)
    requires script != []
    ensures EndsFailing(script, dutyCycle) <==>
            && !script[0].stopped
            && (script[0].failed
                || (!(IdleFor(script[0].elapsed, dutyCycle) > 0 && script[0].stoppedIdling)
                    && EndsFailing(script[1..], dutyCycle)))
  {
    hide IdleFor;
  }

  lemma LegalStep(script: seq<Turn>, held: Option<Work>)
    requires script != [] && Legal(script, held) && (held.Some? ==> ValidWork(held.value))
    ensures Legal([script[0]], held) && Legal(script[1..], Latest(held, script[0].received))
    ensures script[0].received.Some? ==> ValidWork(script[0].received.value)
    ensures Latest(held, script[0].received).Some? ==> ValidWork(Latest(held, script[0].received).value)
    ensures script[0].stopped || Latest(held, script[0].received).Some?
  {
  }

  lemma NoTurnsLeft(script: seq<Turn>, all: seq<Launch>, launches: seq<Launch>, held: Option<Work>,
                    extraNonce: Word, extraNonce2: Word, deviceByte: Byte, dutyCycle: int, n: nat)
    requires OnCourse(script, all, script[|script|..], launches, held, extraNonce, extraNonce2, deviceByte,
                      dutyCycle, n)
    ensures all == launches && !EndsFailing(script, dutyCycle)
  {
    assert script[|script|..] == [];
  }

  lemma NoLaunches(powLimit: nat, n: nat)
    ensures AllValid([]) && AllWinners([], powLimit, n) == [] && AllShares([], powLimit, n) == 0
  {
  }

  lemma OneMoreLaunch(ls: seq<Launch>, l: Launch, powLimit: nat, n: nat)
    requires ValidWork(l.work) && AllValid(ls)
    ensures AllValid(ls + [l])
    ensures AllWinners(ls + [l], powLimit, n) == AllWinners(ls, powLimit, n) + Winners(l, powLimit, n)
    ensures AllShares(ls + [l], powLimit, n) == AllShares(ls, powLimit, n) + Shares(l, powLimit, n)
  {
    hide Winners, Shares;
    assert (ls + [l])[..|ls|] == ls;
  }

  // A turn that launches contributes its launch to the run's.
  lemma FirstLaunch(script: seq<Turn>, held: Option<Work>, extraNonce: Word, extraNonce2: Word, deviceByte: Byte,
                    dutyCycle: int, n: nat)
    requires script != [] && Legal(script, held) && (held.Some? ==> ValidWork(held.value))
    requires AllFit(LaunchesOf(script, held, extraNonce, extraNonce2, deviceByte, dutyCycle), n)
    ensures var t := script[0];
            var ls := LaunchesOf(script, held, extraNonce, extraNonce2, deviceByte, dutyCycle);
            if t.stopped || t.failed then ls == []
            else
              var w := Latest(held, t.received).value;
              var l := LaunchOf(t, w, extraNonce, extraNonce2, deviceByte);
              && |Hits(l, n)| < OUTPUT_BUFFER_SIZE
              && if IdleFor(t.elapsed, dutyCycle) > 0 && t.stoppedIdling then ls == [l]
                 else
                   var rest := LaunchesOf(script[1..], Some(w), extraNonce, l.extraNonce2, deviceByte, dutyCycle);
                   ls == [l] + rest && AllFit(rest, n)
  {
    hide RolledOver, Timestamp, IdleFor, Hits, ValidWork;
    var ls := LaunchesOf(script, held, extraNonce, extraNonce2, deviceByte, dutyCycle);
    if ls != [] {
      assert |Hits(ls[0], n)| < OUTPUT_BUFFER_SIZE;
      var rest := ls[1..];
      forall k | 0 <= k < |rest|
        ensures |Hits(rest[k], n)| < OUTPUT_BUFFER_SIZE
      {
        assert rest[k] == ls[k + 1];
      }
    }
  }

  lemma AgreesAtLaunch(l: Launch, stale: Word, data: seq<Byte>, midstate: seq<Word>, before: seq<Word>,
                       block: seq<Word>)
    requires ValidWork(l.work) && |data| == DATA_LEN && |midstate| == 8 && |before| == |block| == 16
    requires Agrees(l.work, l.extraNonce, stale, l.deviceByte, data, midstate, before)
    requires block == before[NONCE2_WORD := l.extraNonce2][TIMESTAMP_WORD := l.ts]
    ensures Agrees(l.work, l.extraNonce, stale, l.deviceByte, data, midstate, block)
    ensures data == Prepared(l.work.data, l.extraNonce, stale, l.deviceByte) && midstate == Midstate(data[..HEAD_LEN])
    ensures block == LaunchBlock(data, l.ts, l.extraNonce2)
    ensures block[NONCE1_WORD] == l.extraNonce
  {
    hide Midstate, Prepared, WordsOf, Get;
    LastBlockWord(data, NONCE1_WORD);
    PreparedNonce1(l.work.data, l.extraNonce, stale, l.deviceByte);
  }
}

// The devices of one process together: no header is hashed twice.
module Fleet {
  import opened Options
  import opened Integers
  import opened Words
  import opened Header
  import opened BruteForce
  import opened ExtraNonce
  import opened Throttle
  import opened Device

  // A device's run: its index and what it was started with.
  datatype DeviceRun = DeviceRun(index: nat, random1: Word, random2: Word, dutyCycle: int, script: seq<Turn>)

  // The launches the device's loop makes in the run.
  function RunLaunches(r: DeviceRun, offset1: nat, offset2: nat): (ls: seq<Launch>)
    requires Legal(r.script, None)
    ensures AllValid(ls)
  {
    LaunchesOf(r.script, None, r.random1, InitialNonce2(r.index, offset1, r.random2), DeviceByte(r.index, offset2),
               r.dutyCycle)
  }

  // The k-th launch of a run carries the second extra nonce rolled k + 1 times,
  // whatever work arrived in between.
  lemma {:induction false} LaunchesRoll(script: seq<Turn>, held: Option<Work>, extraNonce: Word, extraNonce2: Word,
                                        deviceByte: Byte, dutyCycle: int, k: nat)
    requires Legal(script, held) && (held.Some? ==> ValidWork(held.value))
    requires k < |LaunchesOf(script, held, extraNonce, extraNonce2, deviceByte, dutyCycle)|
    ensures var l := LaunchesOf(script, held, extraNonce, extraNonce2, deviceByte, dutyCycle)[k];
            && l.extraNonce2 == RolledTimes(extraNonce2, k + 1)
            && l.deviceByte == deviceByte && l.extraNonce == extraNonce
  {
    hide RolledOver, Timestamp, IdleFor, ValidWork;
    if k == 0 {
      assert RolledTimes(extraNonce2, 1) == RolledOver(RolledTimes(extraNonce2, 0));
    } else {
      var t := script[0];
      var w := Latest(held, t.received);
      LaunchesRoll(script[1..], w, extraNonce, RolledOver(extraNonce2), deviceByte, dutyCycle, k - 1);
      RolledTimesFront(extraNonce2, k + 1);
    }
  }

  // The 180 bytes hashed for a nonce in a launch of a run.
  function Tried(r: DeviceRun, offset1: nat, offset2: nat, launch: nat, nonce: nat): seq<Byte>
    requires Legal(r.script, None) && launch < |RunLaunches(r, offset1, offset2)|
  {
    Hashed(RunLaunches(r, offset1, offset2)[launch], WordOf(nonce))
  }

  lemma TriedNonces(r: DeviceRun, offset1: nat, offset2: nat, launch: nat, nonce: nat)
    requires Legal(r.script, None) && launch < |RunLaunches(r, offset1, offset2)|
    ensures var h, v := Tried(r, offset1, offset2, launch, nonce), InitialNonce2(r.index, offset1, r.random2);
            && |h| == HEADER_LEN
            && Get(h, Offset(NONCE0_WORD)) == WordOf(nonce)
            && Get(h, Offset(NONCE2_WORD)) == RolledTimes(v, launch + 1)
            && TopByte(Get(h, Offset(NONCE2_WORD))) == DeviceByte(r.index, offset1)
            && h[Offset(NONCE3_WORD)] == DeviceByte(r.index, offset2)
  {
    hide RolledTimes, InitialNonce2, DeviceByte, LaunchesOf, Hashed, TopByte, Get, WordOf;
    var v := InitialNonce2(r.index, offset1, r.random2);
    LaunchesRoll(r.script, None, r.random1, v, DeviceByte(r.index, offset2), r.dutyCycle, launch);
    HashedFields(RunLaunches(r, offset1, offset2)[launch], WordOf(nonce));
    AfterRolls(v, launch + 1);
    InitialTopByte(r.index, offset1, r.random2);
  }

  // Whatever work two devices were given and however their loops interleaved,
  // two headers they hash are the same only when device, launch and nonce are:
  // devices whose indices differ modulo 256 differ in the byte of the index,
  // and one device's launches differ as long as there are no more than 2^24.
  lemma NoHeaderTwice(a: DeviceRun, b: DeviceRun, offset1: nat, offset2: nat, i: nat, j: nat, m: nat, n: nat)
    requires Legal(a.script, None) && Legal(b.script, None)
    requires a == b || a.index % 0x100 != b.index % 0x100
    requires i < |RunLaunches(a, offset1, offset2)| <= TWO_TO_THE_24
    requires j < |RunLaunches(b, offset1, offset2)| <= TWO_TO_THE_24
    requires m < TWO_TO_THE_32 && n < TWO_TO_THE_32
    requires Tried(a, offset1, offset2, i, m) == Tried(b, offset1, offset2, j, n)
    ensures a == b && i == j && m == n
  {
    hide RolledTimes, InitialNonce2, DeviceByte, RunLaunches, Tried, TopByte, Get, WordOf;
    TriedNonces(a, offset1, offset2, i, m);
    TriedNonces(b, offset1, offset2, j, n);
    if a != b {
      DeviceByteShared(a.index, b.index, offset1);
    }
    RollsDistinct(InitialNonce2(a.index, offset1, a.random2), i + 1, j + 1);
    SmallResidues(i, j);
    WordOfInjective(m, n);
  }

  lemma SmallResidues(i: nat, j: nat)
    requires i < TWO_TO_THE_24 && j < TWO_TO_THE_24
    ensures (i + 1) % TWO_TO_THE_24 == (j + 1) % TWO_TO_THE_24 ==> i == j
  {
  }

  // Past those bounds the separation is gone: devices whose indices agree modulo
  // 256 carry the same two bytes, and a device's extra nonce comes round after
  // 2^24 launches.
  lemma SeparationEnds(i: nat, j: nat, offset1: nat, offset2: nat, v: Word, k: nat)
    ensures i % 0x100 == j % 0x100 <==>
            DeviceByte(i, offset1) == DeviceByte(j, offset1) && DeviceByte(i, offset2) == DeviceByte(j, offset2)
    ensures RolledTimes(v, k) == RolledTimes(v, k + TWO_TO_THE_24)
  {
    hide DeviceByte, RolledTimes;
    DeviceByteShared(i, j, offset1);
    DeviceByteShared(i, j, offset2);
    RollsDistinct(v, k, k + TWO_TO_THE_24);
  }

  // The words of a launch that come from the device.
  lemma LaunchesAgree(r: DeviceRun, offset1: nat, offset2: nat, k: nat)
    requires Legal(r.script, None) && k < |RunLaunches(r, offset1, offset2)|
    ensures var l := RunLaunches(r, offset1, offset2)[k];
            && l.extraNonce == r.random1
            && l.extraNonce2 == RolledTimes(InitialNonce2(r.index, offset1, r.random2), k + 1)
            && l.deviceByte == DeviceByte(r.index, offset2)
  {
    hide RolledTimes, InitialNonce2, DeviceByte, LaunchesOf;
    LaunchesRoll(r.script, None, r.random1, InitialNonce2(r.index, offset1, r.random2), DeviceByte(r.index, offset2),
                 r.dutyCycle, k);
  }

  // So headers do repeat there.  Two devices whose indices agree modulo 256 try
  // the same bytes if they draw the same random words and are given the same.
  lemma DevicesRepeat(a: DeviceRun, index: nat, offset1: nat, offset2: nat, launch: nat, nonce: nat)
    requires Legal(a.script, None) && launch < |RunLaunches(a, offset1, offset2)|
    requires a.index % 0x100 == index % 0x100
    ensures RunLaunches(a.(index := index), offset1, offset2) == RunLaunches(a, offset1, offset2)
    ensures Tried(a.(index := index), offset1, offset2, launch, nonce) == Tried(a, offset1, offset2, launch, nonce)
  {
    hide InitialNonce2, DeviceByte, LaunchesOf, Hashed;
    InitialNonce2Shared(a.index, index, offset1, a.random2);
    InitialNonce2Shared(a.index, index, offset2, a.random2);
  }

  // And a device's launches on the same work at the same time try the same bytes
  // exactly if they are a multiple of 2^24 apart.
  lemma LaunchesRepeat(r: DeviceRun, offset1: nat, offset2: nat, i: nat, j: nat, nonce: nat)
    requires Legal(r.script, None)
    requires i < |RunLaunches(r, offset1, offset2)| && j < |RunLaunches(r, offset1, offset2)|
    requires RunLaunches(r, offset1, offset2)[i].work == RunLaunches(r, offset1, offset2)[j].work
    requires RunLaunches(r, offset1, offset2)[i].ts == RunLaunches(r, offset1, offset2)[j].ts
    ensures Tried(r, offset1, offset2, i, nonce) == Tried(r, offset1, offset2, j, nonce) <==>
            i % TWO_TO_THE_24 == j % TWO_TO_THE_24
  {
    hide RolledTimes, InitialNonce2, DeviceByte, RunLaunches, Hashed, TopByte, Get, WordOf;
    LaunchesAgree(r, offset1, offset2, i);
    LaunchesAgree(r, offset1, offset2, j);
    TriedNonces(r, offset1, offset2, i, nonce);
    TriedNonces(r, offset1, offset2, j, nonce);
    RollsDistinct(InitialNonce2(r.index, offset1, r.random2), i + 1, j + 1);
    SumResidues24(1, i, j);
  }

  // Two runs try the same bytes, within the launches an extra nonce is good for.
  predicate Collide(a: DeviceRun, b: DeviceRun, offset1: nat, offset2: nat, i: nat, j: nat, m: nat, n: nat) {
    && Legal(a.script, None) && Legal(b.script, None) && m < TWO_TO_THE_32 && n < TWO_TO_THE_32
    && i < |RunLaunches(a, offset1, offset2)| <= TWO_TO_THE_24
    && j < |RunLaunches(b, offset1, offset2)| <= TWO_TO_THE_24
    && Tried(a, offset1, offset2, i, m) == Tried(b, offset1, offset2, j, n)
  }

  // Some runs of the devices with these indices do.
  ghost predicate MayCollide(index1: nat, index2: nat, offset1: nat, offset2: nat) {
    exists a: DeviceRun, b: DeviceRun, i: nat, j: nat, m: nat, n: nat ::
      a.index == index1 && b.index == index2 && Collide(a, b, offset1, offset2, i, j, m, n)
  }

  // The run of one launch.
  function ShortRun(index: nat, w: Work): (r: DeviceRun)
    requires ValidWork(w)
    ensures r.index == index && Legal(r.script, None)
  {
    DeviceRun(index, 0, 0, 100, [Turn(Some(w), false, 0, false, 0, false)])
  }

  lemma ShortRunLaunches(index: nat, w: Work, offset1: nat, offset2: nat)
    requires ValidWork(w)
    ensures |RunLaunches(ShortRun(index, w), offset1, offset2)| == 1
  {
    hide InitialNonce2, DeviceByte, Timestamp, IdleFor;
    var t := Turn(Some(w), false, 0, false, 0, false);
    var v, id := InitialNonce2(index, offset1, 0), DeviceByte(index, offset2);
    assert [t][1..] == [];
    assert |LaunchesOf([t], None, 0, v, id, 100)| ==
           1 + |LaunchesOf([], Some(w), 0, LaunchOf(t, w, 0, v, id).extraNonce2, id, 100)|;
  }

  // So two devices of one process can come to try the same bytes exactly if their
  // indices agree modulo 256.
  lemma DevicesApartExactly(index1: nat, index2: nat, offset1: nat, offset2: nat)
    requires index1 != index2
    ensures MayCollide(index1, index2, offset1, offset2) <==> index1 % 0x100 == index2 % 0x100
  {
    hide RunLaunches, Tried, Legal, ShortRun;
    if index1 % 0x100 == index2 % 0x100 {
      var w: WorkItem := Work(seq(DATA_LEN, _ => 0), 0, 0, 0);
      var a := ShortRun(index1, w);
      ShortRunLaunches(index1, w, offset1, offset2);
      DevicesRepeat(a, index2, offset1, offset2, 0, 0);
      assert Collide(a, a.(index := index2), offset1, offset2, 0, 0, 0, 0);
    } else {
      forall a: DeviceRun, b: DeviceRun, i: nat, j: nat, m: nat, n: nat
        | a.index == index1 && b.index == index2 && Collide(a, b, offset1, offset2, i, j, m, n)
        ensures false
      {
        NoHeaderTwice(a, b, offset1, offset2, i, j, m, n);
      }
    }
  }
}

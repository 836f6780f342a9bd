// The search and the threads together: which headers the devices of a run send
// to the node.
module MinerHeaders {
  import opened Integers
  import opened Words
  import opened Header
  import opened BruteForce
  import opened ExtraNonce
  import opened MinerState
  import opened MinerShares
  import opened MinerDelivery
  import opened MinerShutdown
  import Miner = Device

  // What assessing a launch's reported nonces comes to, in order.
  function Assessments(l: Launch, powLimit: nat, nonces: seq<Word>): (found: seq<Found>)
    requires ValidWork(l.work)
    ensures |found| == |nonces|
  {
    if nonces == [] then []
    else
      var last := nonces[|nonces| - 1];
      Assessments(l, powLimit, nonces[..|nonces| - 1]) + [Found(HeaderOf(l, last), VerdictOf(l, last, powLimit))]
  }

  lemma {:induction false} BelowOfMore(found: seq<Found>, last: Found)
    ensures Below(found + [last]) == Below(found) + if last.verdict.BelowTarget? then [last.header] else []
  {
    if found == [] {
      assert [] + [last] == [last];
    } else {
      assert (found + [last])[1..] == found[1..] + [last];
      BelowOfMore(found[1..], last);
    }
  }

  // The ones below the target are the launch's winners.
  lemma {:induction false} AssessmentsWin(l: Launch, powLimit: nat, nonces: seq<Word>)
    requires ValidWork(l.work)
    ensures Below(Assessments(l, powLimit, nonces)) == WinnersAmong(l, powLimit, nonces)
  {
    hide HeaderOf, VerdictOf, Below;
    if nonces == [] {
      NothingBelow();
    } else {
      var last := nonces[|nonces| - 1];
      var front := nonces[..|nonces| - 1];
      AssessmentsWin(l, powLimit, front);
      BelowOfMore(Assessments(l, powLimit, front), Found(HeaderOf(l, last), VerdictOf(l, last, powLimit)));
    }
  }

  lemma NothingBelow()
    ensures Below([]) == []
  {
  }

  // A step on which a device reports what its kernel finds: the hits of its
  // launch, as the device's own loop is proved to.
  predicate TruthfulStep(s: State, st: Step) {
    st.Device? && st.dev.Search? ==>
      && ValidWork(st.dev.launch.work)
      && st.dev.found == Assessments(st.dev.launch, s.conf.powLimit, Hits(st.dev.launch, s.conf.workSize))
  }

  predicate Truthful(states: seq<State>, steps: seq<Step>)
    requires IsRun(states, steps)
  {
    forall k :: 0 <= k < |steps| ==> TruthfulStep(states[k], steps[k])
  }

  // The headers of one device's shares, in the order of the log.
  function HeadersOf(log: seq<Share>, i: nat): seq<seq<Byte>> {
    if log == [] then []
    else
      var last := log[|log| - 1];
      HeadersOf(log[..|log| - 1], i) + if last.device == i then [last.header] else []
  }

  lemma OneMoreHeader(log: seq<Share>, last: Share, i: nat)
    ensures HeadersOf(log + [last], i) == HeadersOf(log, i) + if last.device == i then [last.header] else []
  {
    assert (log + [last])[..|log|] == log;
  }

  predicate TookUp(consumed: seq<Item>, work: Work) {
    exists m :: 0 <= m < |consumed| && consumed[m].work == work
  }

  // A launch of a device: on work it had taken up, with its own nonces, rolled
  // once more than before.
  predicate OwnLaunch(conf: Config, i: nat, d: Dev, k: nat)
    requires i < |conf.seeds| && k < |d.launches|
  {
    var l, seed := d.launches[k], conf.seeds[i];
    && ValidWork(l.work) && TookUp(d.consumed, l.work)
    && l.extraNonce2 == RolledTimes(InitialNonce2(seed.index, conf.offset1, seed.random2), k + 1)
    && l.deviceByte == DeviceByte(seed.index, conf.offset2)
  }

  predicate OwnLaunches(conf: Config, i: nat, d: Dev) {
    i < |conf.seeds| && forall k :: 0 <= k < |d.launches| ==> OwnLaunch(conf, i, d, k)
  }

  // What a device has sent and still means to send are the winners of all of its
  // launches, in order.
  predicate SendsWinners(s: State, i: nat)
    requires i < |s.devices|
  {
    var d := s.devices[i];
    && Miner.AllValid(d.launches)
    && (!s.conf.benchmark ==>
          HeadersOf(s.channel.log, i) + Pending(d, false) ==
          Miner.AllWinners(d.launches, s.conf.powLimit, s.conf.workSize))
  }

  predicate HeadersInv(s: State) {
    && |s.conf.seeds| == |s.devices|
    && FromDevices(s.channel.log, |s.devices|)
    && forall i :: 0 <= i < |s.devices| ==> Honest(s, i)
  }

  predicate FromDevices(log: seq<Share>, n: nat) {
    forall m :: 0 <= m < |log| ==> log[m].device < n
  }

  predicate Honest(s: State, i: nat)
    requires i < |s.devices|
  {
    OwnLaunches(s.conf, i, s.devices[i]) && SendsWinners(s, i)
  }

  lemma HeadersInvKept(s: State, st: Step)
    requires HeadersInv(s) && SharesInv(s) && Enabled(s, st) && TruthfulStep(s, st)
    ensures HeadersInv(Apply(s, st))
  {
    hide EnvEnabled, PubEnabled, DevEnabled, SubEnabled, ExpEnabled, WatchEnabled, StatEnabled, MainEnabled,
         EnvApply, PubApply, DevApply, SubApply, ExpApply, WatchApply, StatApply, MainApply,
         HeadersOf, Honest, Assessments;
    match st
    case Pub(p, ps) => HeadersPub(s, p, ps);
    case Device(i, ds) => HeadersDevice(s, i, ds);
    case Submit(ss) =>
      OthersLeaveDevices(s, st);
      SubmitKeepsLog(s, ss);
      AllStayHonest(s, Apply(s, st));
    case _ =>
      OthersLeaveDevices(s, st);
      AllStayHonest(s, Apply(s, st));
  }

  lemma AllStayHonest(s: State, r: State)
    requires HeadersInv(s) && r.conf == s.conf && r.devices == s.devices && r.channel.log == s.channel.log
    ensures HeadersInv(r)
  {
    hide Honest, HeadersOf, Pending;
    forall i | 0 <= i < |r.devices|
      ensures Honest(r, i)
    {
      StaysHonest(s, r, i);
    }
  }

  lemma SubmitKeepsLog(s: State, st: SubStep)
    requires SubEnabled(s, st)
    ensures SubApply(s, st).channel.log == s.channel.log
  {
    hide CoinbasePays;
  }

  // A step that leaves a device's launches, and what it has sent with what it
  // means to send, as they were.
  lemma StaysHonest(s: State, r: State, i: nat)
    requires i < |s.devices| && i < |r.devices| && Honest(s, i) && r.conf == s.conf
    requires r.devices[i].launches == s.devices[i].launches && s.devices[i].consumed <= r.devices[i].consumed
    requires !s.conf.benchmark ==>
               HeadersOf(r.channel.log, i) + Pending(r.devices[i], false) ==
               HeadersOf(s.channel.log, i) + Pending(s.devices[i], false)
    ensures Honest(r, i)
  {
    hide HeadersOf, Pending, Miner.AllWinners, Miner.AllValid, OwnLaunches;
    SameLaunches(s.conf, i, s.devices[i], r.devices[i]);
  }

  lemma SameLaunches(conf: Config, i: nat, d: Dev, e: Dev)
    requires OwnLaunches(conf, i, d) && e.launches == d.launches && d.consumed <= e.consumed
    ensures OwnLaunches(conf, i, e)
  {
    hide RolledTimes, InitialNonce2, DeviceByte;
    forall k | 0 <= k < |e.launches|
      ensures OwnLaunch(conf, i, e, k)
    {
      assert OwnLaunch(conf, i, d, k);
    }
  }

  lemma HeadersPub(s: State, p: Source, ps: PubStep)
    requires HeadersInv(s) && PubEnabled(s, p, ps)
    ensures HeadersInv(PubApply(s, p, ps))
  {
    PubLeavesLaunches(s, p, ps);
    var r := PubApply(s, p, ps);
    hide HeadersOf, Honest, PubApply, PubEnabled, Pending;
    forall i | 0 <= i < |r.devices|
      ensures Honest(r, i)
    {
      StaysHonest(s, r, i);
    }
  }

  lemma PubLeavesLaunches(s: State, p: Source, ps: PubStep)
    requires PubEnabled(s, p, ps)
    ensures var r := PubApply(s, p, ps);
            && r.conf == s.conf && r.channel == s.channel && |r.devices| == |s.devices|
            && forall i :: 0 <= i < |s.devices| ==>
                 && r.devices[i].pc == s.devices[i].pc && r.devices[i].launches == s.devices[i].launches
                 && r.devices[i].consumed == s.devices[i].consumed
                 && Pending(r.devices[i], false) == Pending(s.devices[i], false)
  {
    hide Below;
  }

  lemma HeadersDevice(s: State, i: nat, ds: DevStep)
    requires HeadersInv(s) && SharesInv(s) && DevEnabled(s, i, ds) && TruthfulStep(s, Device(i, ds))
    ensures HeadersInv(DevApply(s, i, ds))
  {
    DeviceLeavesOthers(s, i, ds);
    DeviceIsHonest(s, i, ds);
    var r := DevApply(s, i, ds);
    hide HeadersOf, Honest, DevApply, DevEnabled, TruthfulStep, SharesInv, Pending;
    forall j | 0 <= j < |r.devices|
      ensures Honest(r, j)
    {
      if j != i {
        StaysHonest(s, r, j);
      }
    }
  }

  lemma DeviceIsHonest(s: State, i: nat, ds: DevStep)
    requires HeadersInv(s) && SharesInv(s) && DevEnabled(s, i, ds) && TruthfulStep(s, Device(i, ds))
    ensures i < |DevApply(s, i, ds).devices| && Honest(DevApply(s, i, ds), i)
  {
    hide HeadersOf, Pending, Honest, TruthfulStep, IsNextLaunch, Accounted, Assessed;
    var r := DevApply(s, i, ds);
    assert Honest(s, i) && Accounted(s.devices[i], s.conf.benchmark);
    if ds.Search? {
      SearchIsHonest(s, i, ds.launch, ds.found);
    } else {
      PassesOn(s, i, ds);
      StaysHonest(s, r, i);
    }
  }

  // What a device's step leaves of the other devices and of what they sent.
  lemma DeviceLeavesOthers(s: State, i: nat, ds: DevStep)
    requires DevEnabled(s, i, ds)
    ensures var r := DevApply(s, i, ds);
            && r.conf == s.conf && |r.devices| == |s.devices|
            && (FromDevices(s.channel.log, |s.devices|) ==> FromDevices(r.channel.log, |s.devices|))
            && (forall j :: 0 <= j < |s.devices| && j != i ==>
                  r.devices[j] == s.devices[j] && HeadersOf(r.channel.log, j) == HeadersOf(s.channel.log, j))
  {
    hide HeadersOf, IsNextLaunch;
    if ds.Send? {
      var share := Share(i, s.devices[i].sent, s.devices[i].pc.header);
      forall j | 0 <= j < |s.devices| && j != i
        ensures HeadersOf(s.channel.log + [share], j) == HeadersOf(s.channel.log, j)
      {
        OneMoreHeader(s.channel.log, share, j);
      }
    }
  }

  // Every other step of a device moves headers on without losing one.
  lemma PassesOn(s: State, i: nat, ds: DevStep)
    requires DevEnabled(s, i, ds) && !ds.Search? && Accounted(s.devices[i], s.conf.benchmark)
    ensures var d, e := s.devices[i], DevApply(s, i, ds).devices[i];
            && e.launches == d.launches && d.consumed <= e.consumed
            && (!s.conf.benchmark ==>
                  HeadersOf(DevApply(s, i, ds).channel.log, i) + Pending(e, false) ==
                  HeadersOf(s.channel.log, i) + Pending(d, false))
  {
    hide HeadersOf;
    var d, e := s.devices[i], DevApply(s, i, ds).devices[i];
    if ds.Send? {
      OneMoreHeader(s.channel.log, Share(i, d.sent, d.pc.header), i);
      assert HeadersOf(s.channel.log, i) + ([d.pc.header] + Below(d.pc.rest)) ==
             (HeadersOf(s.channel.log, i) + [d.pc.header]) + Below(d.pc.rest);
    } else if !s.conf.benchmark {
      assert Pending(e, false) == Pending(d, false);
    }
  }

  // A search adds its launch, whose winners are now to be sent.
  lemma SearchIsHonest(s: State, i: nat, l: Launch, found: seq<Found>)
    requires DevEnabled(s, i, Search(l, found)) && TruthfulStep(s, Device(i, Search(l, found))) && Honest(s, i)
    ensures var r := DevApply(s, i, Search(l, found));
            i < |r.devices| && Honest(r, i)
  {
    hide *;
    SearchEffect(s, i, l, found);
    HonestIs(s, i);
    var d, r := s.devices[i], DevApply(s, i, Search(l, found));
    HonestIs(r, i);
    OneMoreOwn(s.conf, i, d, r.devices[i], l);
    if !s.conf.benchmark {
      WinnersGrow(HeadersOf(s.channel.log, i), d.launches, l, found, s.conf);
    } else {
      Miner.OneMoreLaunch(d.launches, l, s.conf.powLimit, s.conf.workSize);
    }
  }

  lemma SearchEffect(s: State, i: nat, l: Launch, found: seq<Found>)
    requires DevEnabled(s, i, Search(l, found)) && TruthfulStep(s, Device(i, Search(l, found)))
    ensures var r := DevApply(s, i, Search(l, found));
            && i < |s.devices| && i < |r.devices| && r.conf == s.conf && r.channel == s.channel
            && var d, e := s.devices[i], r.devices[i];
            && e.launches == d.launches + [l] && e.consumed == d.consumed
            && Pending(d, false) == [] && Pending(e, false) == Below(found)
            && IsNextLaunch(s.conf, i, d, l) && ValidWork(l.work)
            && found == Assessments(l, s.conf.powLimit, Hits(l, s.conf.workSize))
  {
    hide IsNextLaunch, Assessments, Hits, Below, ValidWork;
  }

  lemma HonestIs(s: State, i: nat)
    requires i < |s.devices|
    ensures Honest(s, i) ==> Miner.AllValid(s.devices[i].launches)
    ensures Honest(s, i) <==>
            && OwnLaunches(s.conf, i, s.devices[i]) && Miner.AllValid(s.devices[i].launches)
            && (!s.conf.benchmark ==>
                  HeadersOf(s.channel.log, i) + Pending(s.devices[i], false) ==
                  Miner.AllWinners(s.devices[i].launches, s.conf.powLimit, s.conf.workSize))
  {
    hide OwnLaunches, Miner.AllValid, HeadersOf, Pending, Miner.AllWinners;
  }

  lemma WinnersGrow(sent: seq<seq<Byte>>, ls: seq<Launch>, l: Launch, found: seq<Found>, conf: Config)
    requires Miner.AllValid(ls) && sent + [] == Miner.AllWinners(ls, conf.powLimit, conf.workSize)
    requires ValidWork(l.work) && found == Assessments(l, conf.powLimit, Hits(l, conf.workSize))
    ensures Miner.AllValid(ls + [l])
    ensures sent + Below(found) == Miner.AllWinners(ls + [l], conf.powLimit, conf.workSize)
  {
    hide Miner.AllValid, Miner.AllWinners, Winners, Assessments, Hits, Below, ValidWork;
    assert sent + [] == sent;
    Miner.OneMoreLaunch(ls, l, conf.powLimit, conf.workSize);
    FoundAreWinners(conf, l, found);
  }

  lemma OneMoreOwn(conf: Config, i: nat, d: Dev, e: Dev, l: Launch)
    requires OwnLaunches(conf, i, d) && IsNextLaunch(conf, i, d, l) && ValidWork(l.work)
    requires e.launches == d.launches + [l] && e.consumed == d.consumed
    ensures OwnLaunches(conf, i, e)
  {
    hide RolledTimes, InitialNonce2, DeviceByte, ValidWork;
    forall k | 0 <= k < |e.launches|
      ensures OwnLaunch(conf, i, e, k)
    {
      if k < |d.launches| {
        assert OwnLaunch(conf, i, d, k);
      } else {
        assert e.consumed[|e.consumed| - 1].work == l.work;
      }
    }
  }

  lemma FoundAreWinners(conf: Config, l: Launch, found: seq<Found>)
    requires ValidWork(l.work) && found == Assessments(l, conf.powLimit, Hits(l, conf.workSize))
    ensures Below(found) == Winners(l, conf.powLimit, conf.workSize)
  {
    hide Assessments, Hits, Winners, WinnersAmong, Below, ValidWork;
    AssessmentsWin(l, conf.powLimit, Hits(l, conf.workSize));
    AssessingHits(l, conf.powLimit, conf.workSize);
  }

  lemma {:induction false} HeadersInvHolds(states: seq<State>, steps: seq<Step>, k: nat)
    requires IsRunFromStart(states, steps) && Truthful(states, steps) && k < |states|
    ensures HeadersInv(states[k])
  {
    hide Enabled, Apply, TruthfulStep;
    if k == 0 {
      StartSendsNothing(states[0]);
    } else {
      HeadersInvHolds(states, steps, k - 1);
      SharesInvHolds(states, steps, k - 1);
      HeadersInvKept(states[k - 1], steps[k - 1]);
    }
  }

  lemma StartSendsNothing(s: State)
    requires Init(s)
    ensures HeadersInv(s)
  {
  }

  // Over every truthful run outside benchmark mode: what a device has sent and
  // still means to send are exactly the winners of its launches, in order, and
  // every launch was on work that had been the current work.
  lemma HeadersSent(states: seq<State>, steps: seq<Step>, k: nat, i: nat)
    requires IsRunFromStart(states, steps) && Truthful(states, steps) && k < |states| && i < |states[k].devices|
    requires !states[k].conf.benchmark
    ensures var s := states[k];
            var d := s.devices[i];
            && Miner.AllValid(d.launches)
            && HeadersOf(s.channel.log, i) + Pending(d, false) ==
               Miner.AllWinners(d.launches, s.conf.powLimit, s.conf.workSize)
            && forall a :: 0 <= a < |d.launches| ==> TookUp(s.feed.published, d.launches[a].work)
  {
    hide IsRunFromStart, HeadersOf, Pending, Miner.AllWinners, RolledTimes, InitialNonce2, DeviceByte;
    HeadersInvHolds(states, steps, k);
    DeliveryInvHolds(states, steps, k);
    var s := states[k];
    var d := s.devices[i];
    assert Honest(s, i) && Fed(s, i);
    forall a | 0 <= a < |d.launches|
      ensures TookUp(s.feed.published, d.launches[a].work)
    {
      assert OwnLaunch(s.conf, i, d, a);
      PublishedToo(s, i, d.launches[a].work);
    }
  }

  lemma PublishedToo(s: State, i: nat, work: Work)
    requires i < |s.devices| && Fed(s, i) && !s.conf.benchmark && TookUp(s.devices[i].consumed, work)
    ensures TookUp(s.feed.published, work)
  {
    var d := s.devices[i];
    var m :| 0 <= m < |d.consumed| && d.consumed[m].work == work;
    assert Got(d)[m] == d.consumed[m];
    assert d.consumed[m] in s.feed.published;
  }

  // Where a share's header is among its device's.
  lemma {:induction false} PlaceInLog(log: seq<Share>, m: nat)
    requires m < |log|
    ensures var i := log[m].device;
            var place := |HeadersOf(log[..m], i)|;
            place < |HeadersOf(log, i)| && HeadersOf(log, i)[place] == log[m].header
  {
    var front := log[..|log| - 1];
    assert log == front + [log[|log| - 1]];
    if m < |front| {
      PlaceInLog(front, m);
      assert front[..m] == log[..m];
    } else {
      assert log[..m] == front;
    }
  }

  // Which launch a winner is of.
  lemma {:induction false} WhichLaunch(ls: seq<Launch>, powLimit: nat, n: nat, place: nat) returns (a: nat, w: nat)
    requires Miner.AllValid(ls) && place < |Miner.AllWinners(ls, powLimit, n)|
    ensures a < |ls| && w < |Winners(ls[a], powLimit, n)|
    ensures Miner.AllWinners(ls, powLimit, n)[place] == Winners(ls[a], powLimit, n)[w]
  {
    hide Winners, ValidWork;
    var front := ls[..|ls| - 1];
    var before := |Miner.AllWinners(front, powLimit, n)|;
    if place < before {
      a, w := WhichLaunch(front, powLimit, n, place);
    } else {
      a, w := |ls| - 1, place - before;
    }
  }

  // Every header the node has answered, has been handed or has yet to be handed
  // is a winner of a launch, by the device that found it, on work that had been
  // the current work.
  lemma SubmittedHeadersWin(states: seq<State>, steps: seq<Step>, k: nat, m: nat) returns (a: nat)
    requires IsRunFromStart(states, steps) && Truthful(states, steps) && k < |states| && m < |states[k].channel.log|
    requires !states[k].conf.benchmark
    ensures var s, share := states[k], states[k].channel.log[m];
            && share.device < |s.devices| && a < |s.devices[share.device].launches|
            && var l := s.devices[share.device].launches[a];
            && ValidWork(l.work) && TookUp(s.feed.published, l.work)
            && share.header in Winners(l, s.conf.powLimit, s.conf.workSize) && |share.header| == DATA_LEN
  {
    hide IsRunFromStart, HeadersOf, Pending, Miner.AllWinners, Winners, ValidWork, Honest;
    HeadersInvHolds(states, steps, k);
    var s := states[k];
    var share := s.channel.log[m];
    HeadersSent(states, steps, k, share.device);
    PlaceInLog(s.channel.log, m);
    var w;
    a, w := WhichLaunch(s.devices[share.device].launches, s.conf.powLimit, s.conf.workSize,
                        |HeadersOf(s.channel.log[..m], share.device)|);
    WinnersCarry(s.devices[share.device].launches[a], s.conf.powLimit, s.conf.workSize, w);
  }

  predicate SameHashed(g: seq<Byte>, h: seq<Byte>) {
    |g| == |h| == DATA_LEN && g[..HEADER_LEN] == h[..HEADER_LEN]
  }

  predicate Distinct(ls: seq<Launch>) {
    forall a, b :: 0 <= a < b < |ls| ==> ls[a].extraNonce2 != ls[b].extraNonce2
  }

  lemma {:induction false} WinnersOfAllDistinct(ls: seq<Launch>, powLimit: nat, n: nat, j: nat, k: nat)
    requires Miner.AllValid(ls) && Distinct(ls) && n <= TWO_TO_THE_32
    requires j < k < |Miner.AllWinners(ls, powLimit, n)|
    ensures !SameHashed(Miner.AllWinners(ls, powLimit, n)[j], Miner.AllWinners(ls, powLimit, n)[k])
  {
    hide Winners, ValidWork, Get;
    var front, last := ls[..|ls| - 1], |ls| - 1;
    var before := |Miner.AllWinners(front, powLimit, n)|;
    if k < before {
      WinnersOfAllDistinct(front, powLimit, n, j, k);
    } else if j >= before {
      WinnersDistinct(ls[last], powLimit, n, j - before, k - before);
    } else {
      var a, w := WhichLaunch(front, powLimit, n, j);
      WinnersCarry(front[a], powLimit, n, w);
      WinnersCarry(ls[last], powLimit, n, k - before);
      assert front[a].extraNonce2 != ls[last].extraNonce2;
    }
  }

  // Whether the devices' indices keep them apart, and no device has launched more
  // often than its extra nonce can roll.
  predicate KeptApart(s: State) {
    && s.conf.workSize <= TWO_TO_THE_32
    && (forall i, j :: 0 <= i < j < |s.conf.seeds| ==> s.conf.seeds[i].index % 0x100 != s.conf.seeds[j].index % 0x100)
    && (forall i :: 0 <= i < |s.devices| ==> |s.devices[i].launches| <= TWO_TO_THE_24)
  }

  lemma LaunchesDistinct(conf: Config, i: nat, d: Dev)
    requires OwnLaunches(conf, i, d) && |d.launches| <= TWO_TO_THE_24
    ensures Distinct(d.launches)
  {
    hide RolledTimes, InitialNonce2, DeviceByte, TookUp, ValidWork;
    var v := InitialNonce2(conf.seeds[i].index, conf.offset1, conf.seeds[i].random2);
    forall a, b | 0 <= a < b < |d.launches|
      ensures d.launches[a].extraNonce2 != d.launches[b].extraNonce2
    {
      assert OwnLaunch(conf, i, d, a) && OwnLaunch(conf, i, d, b);
      RollsDistinct(v, a + 1, b + 1);
      DistinctResidues(a, b);
    }
  }

  lemma DistinctResidues(a: nat, b: nat)
    requires a < b < TWO_TO_THE_24
    ensures (a + 1) % TWO_TO_THE_24 != (b + 1) % TWO_TO_THE_24
  {
  }

  // A launch's second extra nonce shows the index of its device.
  lemma TopByteOfLaunch(conf: Config, i: nat, d: Dev, a: nat)
    requires OwnLaunches(conf, i, d) && a < |d.launches|
    ensures TopByte(d.launches[a].extraNonce2) == DeviceByte(conf.seeds[i].index, conf.offset1)
  {
    hide RolledTimes, InitialNonce2, DeviceByte, TookUp, ValidWork, TopByte, Low24;
    assert OwnLaunch(conf, i, d, a);
    var seed := conf.seeds[i];
    AfterRolls(InitialNonce2(seed.index, conf.offset1, seed.random2), a + 1);
    InitialTopByte(seed.index, conf.offset1, seed.random2);
  }

  lemma WinnersOfTwoDevices(s: State, i: nat, j: nat, a: nat, b: nat, v: nat, w: nat)
    requires i < |s.devices| && j < |s.devices| && i < |s.conf.seeds| && j < |s.conf.seeds|
    requires OwnLaunches(s.conf, i, s.devices[i]) && OwnLaunches(s.conf, j, s.devices[j])
    requires s.conf.seeds[i].index % 0x100 != s.conf.seeds[j].index % 0x100
    requires a < |s.devices[i].launches| && b < |s.devices[j].launches|
    requires ValidWork(s.devices[i].launches[a].work) && ValidWork(s.devices[j].launches[b].work)
    requires v < |Winners(s.devices[i].launches[a], s.conf.powLimit, s.conf.workSize)|
    requires w < |Winners(s.devices[j].launches[b], s.conf.powLimit, s.conf.workSize)|
    ensures !SameHashed(Winners(s.devices[i].launches[a], s.conf.powLimit, s.conf.workSize)[v],
                        Winners(s.devices[j].launches[b], s.conf.powLimit, s.conf.workSize)[w])
  {
    hide Winners, ValidWork, OwnLaunches, DeviceByte, TopByte, Get;
    TopByteOfLaunch(s.conf, i, s.devices[i], a);
    TopByteOfLaunch(s.conf, j, s.devices[j], b);
    DeviceByteShared(s.conf.seeds[i].index, s.conf.seeds[j].index, s.conf.offset1);
    WinnersCarry(s.devices[i].launches[a], s.conf.powLimit, s.conf.workSize, v);
    WinnersCarry(s.devices[j].launches[b], s.conf.powLimit, s.conf.workSize, w);
  }

  // A share's header among the winners of its device's launches.
  lemma PlaceAmongWinners(s: State, m: nat)
    requires HeadersInv(s) && !s.conf.benchmark && m < |s.channel.log|
    ensures var i := s.channel.log[m].device;
            var place := |HeadersOf(s.channel.log[..m], i)|;
            && i < |s.devices| && i < |s.conf.seeds|
            && Miner.AllValid(s.devices[i].launches) && OwnLaunches(s.conf, i, s.devices[i])
            && var winners := Miner.AllWinners(s.devices[i].launches, s.conf.powLimit, s.conf.workSize);
            && place < |winners| && winners[place] == s.channel.log[m].header
  {
    hide HeadersOf, Pending, Miner.AllWinners, Miner.AllValid, OwnLaunches;
    var i := s.channel.log[m].device;
    assert Honest(s, i);
    HonestIs(s, i);
    OwnHasSeed(s.conf, i, s.devices[i]);
    PlaceInLog(s.channel.log, m);
  }

  lemma OwnHasSeed(conf: Config, i: nat, d: Dev)
    requires OwnLaunches(conf, i, d)
    ensures i < |conf.seeds|
  {
  }

  lemma OneDeviceOnce(s: State, m: nat, n: nat)
    requires HeadersInv(s) && !s.conf.benchmark && KeptApart(s) && m < n < |s.channel.log|
    requires s.channel.log[m].device == s.channel.log[n].device
    ensures !SameHashed(s.channel.log[m].header, s.channel.log[n].header)
  {
    hide HeadersInv, HeadersOf, Miner.AllWinners, Miner.AllValid, OwnLaunches, SameHashed, Distinct;
    PlaceAmongWinners(s, m);
    PlaceAmongWinners(s, n);
    var i := s.channel.log[m].device;
    PlaceInLog(s.channel.log[..n], m);
    assert s.channel.log[..n][..m] == s.channel.log[..m];
    LaunchesDistinct(s.conf, i, s.devices[i]);
    WinnersOfAllDistinct(s.devices[i].launches, s.conf.powLimit, s.conf.workSize,
                         |HeadersOf(s.channel.log[..m], i)|, |HeadersOf(s.channel.log[..n], i)|);
  }

  lemma TwoDevicesApart(s: State, m: nat, n: nat)
    requires HeadersInv(s) && !s.conf.benchmark && KeptApart(s) && m < n < |s.channel.log|
    requires s.channel.log[m].device != s.channel.log[n].device
    ensures !SameHashed(s.channel.log[m].header, s.channel.log[n].header)
  {
    PlaceAmongWinners(s, m);
    PlaceAmongWinners(s, n);
    var i, j := s.channel.log[m].device, s.channel.log[n].device;
    assert s.conf.seeds[i].index % 0x100 != s.conf.seeds[j].index % 0x100;
    hide HeadersInv, HeadersOf, Miner.AllWinners, OwnLaunches, SameHashed, Winners, KeptApart, ValidWork;
    var a, v := WhichLaunch(s.devices[i].launches, s.conf.powLimit, s.conf.workSize,
                            |HeadersOf(s.channel.log[..m], i)|);
    var b, w := WhichLaunch(s.devices[j].launches, s.conf.powLimit, s.conf.workSize,
                            |HeadersOf(s.channel.log[..n], j)|);
    WinnersOfTwoDevices(s, i, j, a, b, v, w);
  }

  // Whatever work arrives and however the threads interleave, the node is never
  // sent the same 180 bytes twice.
  lemma NothingSubmittedTwice(states: seq<State>, steps: seq<Step>, k: nat, m: nat, n: nat)
    requires IsRunFromStart(states, steps) && Truthful(states, steps) && k < |states|
    requires !states[k].conf.benchmark && KeptApart(states[k]) && m < n < |states[k].channel.log|
    ensures !SameHashed(states[k].channel.log[m].header, states[k].channel.log[n].header)
  {
    HeadersInvHolds(states, steps, k);
    hide *;
    if states[k].channel.log[m].device == states[k].channel.log[n].device {
      OneDeviceOnce(states[k], m, n);
    } else {
      TwoDevicesApart(states[k], m, n);
    }
  }
}

// Which runs hang: shutdown with the winners of a device's launches, and startup
// with the notifications that come before it is over.
module MinerHang {
  import opened Options
  import opened Words
  import opened Header
  import opened BruteForce
  import opened ExtraNonce
  import opened MinerState
  import opened MinerShares
  import opened MinerShutdown
  import opened MinerHeaders
  import Miner = Device

  // The winners of all launches of a run's devices.
  predicate LaunchesValid(s: State) {
    forall i :: 0 <= i < |s.devices| ==> Miner.AllValid(s.devices[i].launches)
  }

  function WinnerCounts(s: State): seq<nat>
    requires LaunchesValid(s)
  {
    seq(|s.devices|, i requires 0 <= i < |s.devices| =>
      |Miner.AllWinners(s.devices[i].launches, s.conf.powLimit, s.conf.workSize)|)
  }

  function WinnersFound(s: State): nat
    requires LaunchesValid(s)
  {
    Total(WinnerCounts(s))
  }

  // How many shares the submit thread has taken.
  function Taken(s: State): nat {
    |s.submit.answered| + |InHand(s.submit.pc)|
  }

  function HeaderCounts(log: seq<Share>, n: nat): seq<nat> {
    seq(n, i requires 0 <= i < n => |HeadersOf(log, i)|)
  }

  lemma {:induction false} EveryShareOnce(log: seq<Share>, n: nat)
    requires FromDevices(log, n)
    ensures Total(HeaderCounts(log, n)) == |log|
  {
    hide Total, HeaderCounts, HeadersOf;
    if log == [] {
      NoShares(n);
    } else {
      var front, i := log[..|log| - 1], log[|log| - 1].device;
      EveryShareOnce(front, n);
      OneMoreShare(log, n);
      var before := HeaderCounts(front, n);
      TotalOfUpdate(before, i, before[i] + 1);
    }
  }

  lemma NoShares(n: nat)
    ensures Total(HeaderCounts([], n)) == 0
  {
    hide Total;
    TotalBounds(HeaderCounts([], n));
  }

  lemma OneMoreShare(log: seq<Share>, n: nat)
    requires log != [] && log[|log| - 1].device < n
    ensures var before, i := HeaderCounts(log[..|log| - 1], n), log[|log| - 1].device;
            |before| == n && HeaderCounts(log, n) == before[i := before[i] + 1]
  {
    var before, i := HeaderCounts(log[..|log| - 1], n), log[|log| - 1].device;
    forall k | 0 <= k < n
      ensures |HeadersOf(log, k)| == before[k] + if k == i then 1 else 0
    {
    }
    assert HeaderCounts(log, n) == before[i := before[i] + 1];
  }

  lemma {:induction false} TotalAdds(a: seq<nat>, b: seq<nat>, c: seq<nat>)
    requires |a| == |b| == |c| && forall i :: 0 <= i < |a| ==> a[i] + b[i] == c[i]
    ensures Total(a) + Total(b) == Total(c)
  {
    if a != [] {
      var n := |a| - 1;
      TotalAdds(a[..n], b[..n], c[..n]);
    }
  }

  // The demand on the channel is what has been found and not yet taken.
  lemma UntakenWinners(states: seq<State>, steps: seq<Step>, k: nat)
    requires IsRunFromStart(states, steps) && Truthful(states, steps) && k < |states|
    requires !states[k].conf.benchmark
    ensures LaunchesValid(states[k])
    ensures Demand(states[k]) + Taken(states[k]) == WinnersFound(states[k])
  {
    hide IsRunFromStart, HeadersOf, Pending, Miner.AllWinners, Miner.AllValid, Total, Truthful;
    HeadersInvHolds(states, steps, k);
    SharesConserved(states, steps, k);
    var s := states[k];
    var n := |s.devices|;
    EveryShareOnce(s.channel.log, n);
    forall i | 0 <= i < n
      ensures Miner.AllValid(s.devices[i].launches)
      ensures |HeadersOf(s.channel.log, i)| + |Pending(s.devices[i], false)| ==
              |Miner.AllWinners(s.devices[i].launches, s.conf.powLimit, s.conf.workSize)|
    {
      HeadersSent(states, steps, k, i);
    }
    TotalAdds(HeaderCounts(s.channel.log, n), Pendings(s.devices, false), WinnerCounts(s));
  }

  // Once the context is done, a run whose devices have found at most ten winners
  // more than the submit thread has taken goes on until it returns.
  lemma FewWinnersReturn(states: seq<State>, steps: seq<Step>, k: nat)
    requires IsRunFromStart(states, steps) && Truthful(states, steps) && k < |states|
    requires !states[k].conf.benchmark && RunDone(states[k]) && LaunchesValid(states[k])
    requires WinnersFound(states[k]) <= 10 + Taken(states[k])
    ensures states[k].run.main.Returned? || CanStep(states[k])
  {
    UntakenWinners(states, steps, k);
    SharesInvHolds(states, steps, k);
    ControlInvHolds(states, steps, k);
    StuckNeedsDemand(states[k]);
    hide *;
    if !states[k].run.main.Returned? {
      NothingElseBlocks(states[k]);
    }
  }

  // And a run that has come to its end has returned exactly in that case.
  lemma ReturnsIffFewLeft(states: seq<State>, steps: seq<Step>, k: nat, j: nat)
    requires IsRunFromStart(states, steps) && Truthful(states, steps) && k <= j < |states|
    requires !states[k].conf.benchmark && LaunchesValid(states[k])
    requires WindingDown(states[k]) && states[k].submit.pc.SubmitGone?
    requires !CanStep(states[j])
    ensures states[j].run.main.Returned? <==> WinnersFound(states[k]) <= 10 + Taken(states[k])
  {
    hide *;
    UntakenWinners(states, steps, k);
    ReturnsIffRoom(states, steps, k, j);
  }

  // A state that some truthful run gets to.
  predicate EndsIn(states: seq<State>, steps: seq<Step>, s: State) {
    IsRunFromStart(states, steps) && Truthful(states, steps) && states[|steps|] == s
  }

  ghost predicate Reached(s: State) {
    exists states: seq<State>, steps: seq<Step> :: EndsIn(states, steps, s)
  }

  lemma GoesOn(s: State, st: Step)
    requires Reached(s) && Enabled(s, st) && TruthfulStep(s, st)
    ensures Reached(Apply(s, st))
  {
    hide Enabled, Apply, TruthfulStep, Init;
    var states, steps :| EndsIn(states, steps, s);
    var more, last := states + [Apply(s, st)], steps + [st];
    forall k | 0 <= k < |last|
      ensures Enabled(more[k], last[k]) && more[k + 1] == Apply(more[k], last[k]) && TruthfulStep(more[k], last[k])
    {
    }
    assert EndsIn(more, last, Apply(s, st));
  }

  // A run of one device.
  predicate OneDevice(conf: Config) {
    |conf.seeds| == 1 && !conf.benchmark
  }

  function StartOf(conf: Config): (s: State)
    requires OneDevice(conf)
    ensures Init(s) && s.conf == conf
  {
    var none := Publisher(0, None);
    State(conf, RunState(false, false, false, false, false, Beginning),
          Feed(None, [], none, none, none), [NewDev()], Channel([], []),
          Submitter(Waiting, [], 0, 0, false), Expirer(Ticking, false, 0, []), Watching,
          Printer(Printing(0), false))
  }

  lemma StartReached(conf: Config)
    requires OneDevice(conf)
    ensures Reached(StartOf(conf))
  {
    hide StartOf;
    assert EndsIn([StartOf(conf)], [], StartOf(conf));
  }

  // The queue and the channel of such a run as long as nothing has ended it.
  predicate Running(s: State, conf: Config, started: bool, main: MainPc) {
    && OneDevice(conf) && s.conf == conf && |s.devices| == 1
    && s.run == RunState(false, false, false, false, started, main)
    && s.submit.pc.Waiting? && s.feed.callback.handing.None?
  }

  // The device with the given queue, launches and place in its loop.
  predicate DeviceIs(s: State, queue: seq<Item>, ls: seq<Launch>, pc: DevPc) {
    && |s.devices| == 1 && s.devices[0].queue == queue && s.devices[0].launches == ls && s.devices[0].pc == pc
  }

  // A notification reaches the only device's queue.
  lemma Renotified(s: State, conf: Config, started: bool, main: MainPc, work: WorkItem)
    returns (r: State, item: Item)
    requires Reached(s) && Running(s, conf, started, main) && |s.devices[0].queue| < QUEUE_SIZE
    ensures Reached(r) && Running(r, conf, started, main) && r.channel == s.channel && item.work == work
    ensures r.feed.seeder == s.feed.seeder
    ensures r.devices == [s.devices[0].(queue := s.devices[0].queue + [item])]
  {
    hide Reached;
    item := Item(Callback, s.feed.callback.issued, work);
    var notified := Env(Notified(work));
    assert Enabled(s, notified) && TruthfulStep(s, notified);
    GoesOn(s, notified);
    var s1 := Apply(s, notified);
    var hand := Pub(Callback, Hand);
    assert Enabled(s1, hand) && TruthfulStep(s1, hand);
    GoesOn(s1, hand);
    var s2 := Apply(s1, hand);
    var finish := Pub(Callback, Finish);
    assert Enabled(s2, finish) && TruthfulStep(s2, finish);
    GoesOn(s2, finish);
    r := Apply(s2, finish);
  }

  // Whether the context is not done and the threads run.
  predicate Mining(s: State, conf: Config) {
    Running(s, conf, true, Joining)
  }

  // Up to where NewMiner has handed out its work item.
  lemma Seeded(conf: Config, work: WorkItem) returns (r: State, item: Item)
    requires OneDevice(conf)
    ensures Reached(r) && Running(r, conf, false, Seeding) && r.channel.queued == [] && item.work == work
    ensures r.feed.seeder == Publisher(1, Some(Handing(1, work)))
    ensures DeviceIs(r, [item], [], Receiving)
  {
    hide Reached;
    StartReached(conf);
    var s0 := StartOf(conf);
    item := Item(Seeder, 0, work);
    assert Enabled(s0, Main(Seed(work))) && TruthfulStep(s0, Main(Seed(work)));
    GoesOn(s0, Main(Seed(work)));
    var s1 := Apply(s0, Main(Seed(work)));
    assert Enabled(s1, Pub(Seeder, Hand)) && TruthfulStep(s1, Pub(Seeder, Hand));
    GoesOn(s1, Pub(Seeder, Hand));
    r := Apply(s1, Pub(Seeder, Hand));
  }

  // Up to where Run has started its threads.
  lemma Started(conf: Config, work: WorkItem) returns (r: State, item: Item)
    requires OneDevice(conf)
    ensures Reached(r) && Mining(r, conf) && r.channel.queued == [] && item.work == work
    ensures DeviceIs(r, [item], [], Receiving)
  {
    hide Reached;
    var s2;
    s2, item := Seeded(conf, work);
    assert Enabled(s2, Pub(Seeder, Finish)) && TruthfulStep(s2, Pub(Seeder, Finish));
    GoesOn(s2, Pub(Seeder, Finish));
    var s3 := Apply(s2, Pub(Seeder, Finish));
    assert Enabled(s3, Main(StartThreads)) && TruthfulStep(s3, Main(StartThreads));
    GoesOn(s3, Main(StartThreads));
    r := Apply(s3, Main(StartThreads));
  }

  // One step of the only device, other than a search.
  lemma DeviceSteps(s: State, conf: Config, ds: DevStep) returns (r: State)
    requires Reached(s) && Mining(s, conf) && DevEnabled(s, 0, ds) && !ds.Search?
    ensures r == DevApply(s, 0, ds) && Reached(r) && Mining(r, conf)
  {
    hide Reached, DevEnabled, DevAfter;
    assert Enabled(s, Device(0, ds)) && TruthfulStep(s, Device(0, ds));
    GoesOn(s, Device(0, ds));
    r := Apply(s, Device(0, ds));
  }

  // The device takes up the item in its queue and gets to its launch.
  lemma TakesUp(s: State, conf: Config, item: Item, ls: seq<Launch>) returns (r: State)
    requires Reached(s) && Mining(s, conf) && DeviceIs(s, [item], ls, Receiving)
    ensures Reached(r) && Mining(r, conf) && DeviceIs(r, [], ls, DevPc.Launching) && r.channel == s.channel
    ensures OnWork(r, item.work)
  {
    hide Reached;
    var s1 := DeviceSteps(s, conf, Receive);
    r := DeviceSteps(s1, conf, Check);
  }

  // The work the device took up last.
  predicate OnWork(s: State, work: Work) {
    && |s.devices| == 1 && s.devices[0].consumed != []
    && s.devices[0].consumed[|s.devices[0].consumed| - 1].work == work
  }

  // A device sends on all its candidates below the target while there is room.
  lemma {:induction false} Drained(s: State, conf: Config, ls: seq<Launch>, todo: seq<Found>) returns (r: State)
    requires Reached(s) && Mining(s, conf) && DeviceIs(s, [], ls, Assessing(todo))
    requires |s.channel.queued| + |Below(todo)| <= WORK_DONE_SIZE
    ensures Reached(r) && Mining(r, conf) && DeviceIs(r, [], ls, Assessing([]))
    ensures |r.channel.queued| == |s.channel.queued| + |Below(todo)|
    decreases |todo|
  {
    hide Reached, Mining;
    if todo == [] {
      r := s;
    } else {
      var s1 := OneAssessed(s, conf, ls, todo);
      r := Drained(s1, conf, ls, todo[1..]);
    }
  }

  lemma OneAssessed(s: State, conf: Config, ls: seq<Launch>, todo: seq<Found>) returns (r: State)
    requires Reached(s) && Mining(s, conf) && DeviceIs(s, [], ls, Assessing(todo)) && todo != []
    requires |s.channel.queued| + |Below(todo)| <= WORK_DONE_SIZE
    ensures Reached(r) && Mining(r, conf) && DeviceIs(r, [], ls, Assessing(todo[1..]))
    ensures |r.channel.queued| + |Below(todo[1..])| == |s.channel.queued| + |Below(todo)|
  {
    hide Reached;
    r := DeviceSteps(s, conf, Assess);
    if todo[0].verdict.BelowTarget? {
      r := DeviceSteps(r, conf, Send);
    }
  }

  // A launch that only this device can make next on the given work: its nonces
  // rolled once more than for the k launches before.
  function LaunchAt(conf: Config, work: Work, ts: Word, k: nat): (l: Launch)
    requires OneDevice(conf)
  {
    hide RolledTimes, InitialNonce2, DeviceByte;
    var seed := conf.seeds[0];
    BruteForce.Launch(work, ts, seed.random1,
                      RolledTimes(InitialNonce2(seed.index, conf.offset1, seed.random2), k + 1),
                      DeviceByte(seed.index, conf.offset2))
  }

  // Launches the only device can make one after another, on any work and at any
  // time.
  predicate CanLaunch(conf: Config, ls: seq<Launch>)
    requires OneDevice(conf)
  {
    hide LaunchAt;
    forall k :: 0 <= k < |ls| ==>
      && ValidWork(ls[k].work) && ls[k] == LaunchAt(conf, ls[k].work, ls[k].ts, k)
      && |Hits(ls[k], conf.workSize)| <= 63
  }

  // The device searches, and reports what it finds.
  lemma Searched(s: State, conf: Config, ls: seq<Launch>, l: Launch) returns (r: State)
    requires Reached(s) && Mining(s, conf) && DeviceIs(s, [], ls, DevPc.Launching) && OnWork(s, l.work)
    requires ValidWork(l.work) && l == LaunchAt(conf, l.work, l.ts, |ls|)
    requires |Hits(l, conf.workSize)| <= MAX_CANDIDATES
    ensures Reached(r) && Mining(r, conf) && r.channel == s.channel
    ensures DeviceIs(r, [], ls + [l], Assessing(Assessments(l, conf.powLimit, Hits(l, conf.workSize))))
  {
    hide Reached, RolledTimes, InitialNonce2, DeviceByte, Hits, Assessments, ValidWork;
    var found := Assessments(l, conf.powLimit, Hits(l, conf.workSize));
    var search := Device(0, Search(l, found));
    assert Enabled(s, search) && TruthfulStep(s, search);
    GoesOn(s, search);
    r := Apply(s, search);
  }

  function Count(conf: Config, ls: seq<Launch>): nat
    requires Miner.AllValid(ls)
  {
    |Miner.AllWinners(ls, conf.powLimit, conf.workSize)|
  }

  lemma OneMoreCount(conf: Config, ls: seq<Launch>, l: Launch)
    requires Miner.AllValid(ls) && ValidWork(l.work)
    ensures Miner.AllValid(ls + [l])
    ensures Count(conf, ls + [l]) ==
            Count(conf, ls) + |Below(Assessments(l, conf.powLimit, Hits(l, conf.workSize)))|
  {
    hide Miner.AllWinners, Winners, Assessments, Hits, Below, ValidWork;
    Miner.OneMoreLaunch(ls, l, conf.powLimit, conf.workSize);
    FoundAreWinners(conf, l, Assessments(l, conf.powLimit, Hits(l, conf.workSize)));
  }

  // A run with these launches behind it and their winners in the channel, about to
  // launch on the given work.
  ghost predicate ReadyFor(s: State, conf: Config, ls: seq<Launch>, work: Work) {
    && Reached(s) && Mining(s, conf) && DeviceIs(s, [], ls, DevPc.Launching) && OnWork(s, work)
    && Miner.AllValid(ls) && |s.channel.queued| == Count(conf, ls)
  }

  // The first launches leave the device ready for the last one, as long as the
  // channel holds their winners.
  lemma {:induction false} GetsReady(conf: Config, ls: seq<Launch>) returns (r: State)
    requires OneDevice(conf) && CanLaunch(conf, ls) && ls != []
    requires Miner.AllValid(ls[..|ls| - 1]) && Count(conf, ls[..|ls| - 1]) <= WORK_DONE_SIZE
    ensures ReadyFor(r, conf, ls[..|ls| - 1], ls[|ls| - 1].work)
  {
    hide Reached, Mining, Count, CanLaunch, OnWork, DeviceIs;
    var front, work := ls[..|ls| - 1], ls[|ls| - 1].work;
    LastValid(conf, ls);
    if front == [] {
      var s, item := Started(conf, work);
      NoCount(conf);
      r := TakesUp(s, conf, item, []);
    } else {
      FrontCanLaunch(conf, ls);
      var s := GetsReady(conf, front);
      r := NextTurn(s, conf, front, work);
    }
  }

  lemma LastValid(conf: Config, ls: seq<Launch>)
    requires OneDevice(conf) && CanLaunch(conf, ls) && ls != []
    ensures ValidWork(ls[|ls| - 1].work)
  {
  }

  lemma NoCount(conf: Config)
    ensures Miner.AllValid([]) && Count(conf, []) == 0
  {
  }

  // The launches before the last, and the winners of those before them.
  lemma FrontCanLaunch(conf: Config, ls: seq<Launch>)
    requires OneDevice(conf) && CanLaunch(conf, ls) && |ls| > 1
    ensures var front := ls[..|ls| - 1];
            var last := front[|front| - 1];
            && CanLaunch(conf, front) && Miner.AllValid(front) && Miner.AllValid(front[..|front| - 1])
            && front == front[..|front| - 1] + [last] && ValidWork(last.work)
            && Count(conf, front) == Count(conf, front[..|front| - 1])
                                     + |Below(Assessments(last, conf.powLimit, Hits(last, conf.workSize)))|
  {
    hide LaunchAt, Hits, Assessments, Below, Miner.AllWinners, Count;
    var front := ls[..|ls| - 1];
    OneMoreCount(conf, front[..|front| - 1], front[|front| - 1]);
  }

  // A search, its candidates and new work.
  lemma NextTurn(s: State, conf: Config, ls: seq<Launch>, work: WorkItem) returns (r: State)
    requires OneDevice(conf) && CanLaunch(conf, ls) && ls != []
    requires var front, l := ls[..|ls| - 1], ls[|ls| - 1];
             && ReadyFor(s, conf, front, l.work) && Miner.AllValid(ls) && Count(conf, ls) <= WORK_DONE_SIZE
             && Count(conf, ls) ==
                Count(conf, front) + |Below(Assessments(l, conf.powLimit, Hits(l, conf.workSize)))|
    ensures ReadyFor(r, conf, ls, work)
  {
    hide Reached, Mining, Count, OnWork, LaunchAt, Hits, Assessments, Below, Miner.AllValid;
    var front, l := ls[..|ls| - 1], ls[|ls| - 1];
    var found := Assessments(l, conf.powLimit, Hits(l, conf.workSize));
    var s1 := Searched(s, conf, front, l);
    assert front + [l] == ls;
    var s2 := Drained(s1, conf, ls, found);
    var s3, item := Resupplied(s2, conf, ls, work);
    r := TakesUp(s3, conf, item, ls);
  }

  // Between two launches.
  lemma Resupplied(s: State, conf: Config, ls: seq<Launch>, work: WorkItem) returns (r: State, item: Item)
    requires Reached(s) && Mining(s, conf) && DeviceIs(s, [], ls, Assessing([]))
    ensures Reached(r) && Mining(r, conf) && DeviceIs(r, [item], ls, Receiving) && r.channel == s.channel
    ensures item.work == work
  {
    hide Reached;
    var s1 := DeviceSteps(s, conf, Rest(false));
    r, item := Renotified(s1, conf, true, Joining, work);
  }

  // At a launch whose winners the channel has no room for, an interrupt can reach
  // the submit thread first.
  lemma Overflows(s: State, conf: Config, ls: seq<Launch>, l: Launch) returns (r: State)
    requires ReadyFor(s, conf, ls, l.work) && ValidWork(l.work) && l == LaunchAt(conf, l.work, l.ts, |ls|)
    requires |Hits(l, conf.workSize)| <= MAX_CANDIDATES
    requires Miner.AllValid(ls + [l]) && Count(conf, ls + [l]) > WORK_DONE_SIZE
    ensures Reached(r) && OutOfRoom(r, conf, ls + [l])
  {
    hide Reached, Count, OnWork, LaunchAt, Hits, Assessments, Below, Miner.AllValid, ValidWork;
    OneMoreCount(conf, ls, l);
    var s1 := Searched(s, conf, ls, l);
    var cancel := Env(ParentCancels);
    assert Enabled(s1, cancel) && TruthfulStep(s1, cancel);
    GoesOn(s1, cancel);
    var s2 := Apply(s1, cancel);
    var stop := Submit(SubStep.Stop);
    assert Enabled(s2, stop) && TruthfulStep(s2, stop);
    GoesOn(s2, stop);
    r := Apply(s2, stop);
    TotalBounds(Pendings(r.devices, false));
    assert Pendings(r.devices, false)[0] == |Below(s1.devices[0].pc.todo)|;
  }

  // A run of the configuration whose only device has made none but the first of
  // these launches.
  predicate LaunchedFrom(s: State, conf: Config, ls: seq<Launch>) {
    s.conf == conf && |s.devices| == 1 && s.devices[0].launches <= ls
  }

  // A run that has run out of room after such launches.
  predicate OutOfRoom(s: State, conf: Config, ls: seq<Launch>) {
    LaunchedFrom(s, conf, ls) && WindingDown(s) && s.submit.pc.SubmitGone? && Demand(s) > WORK_DONE_SIZE
  }

  // The room is needed, whatever work and times a device's launches are on: as
  // soon as they have more than ten winners in all, some truthful run makes them,
  // the winners wait behind the first one in the channel, and an interrupt leaves
  // the run without room for the rest.
  lemma {:induction false} HangIsReachable(conf: Config, ls: seq<Launch>)
    returns (states: seq<State>, steps: seq<Step>)
    requires OneDevice(conf) && CanLaunch(conf, ls) && Miner.AllValid(ls)
    requires |Miner.AllWinners(ls, conf.powLimit, conf.workSize)| > 10
    ensures IsRunFromStart(states, steps) && Truthful(states, steps) && |states| == |steps| + 1
    ensures OutOfRoom(states[|steps|], conf, ls)
    decreases |ls|
  {
    hide *;
    RoomForTen();
    var front, l := LastApart(conf, ls);
    if Count(conf, front) > WORK_DONE_SIZE {
      CountIs(conf, front);
      states, steps := HangIsReachable(conf, front);
      MoreLaunches(states[|steps|], conf, front, ls);
    } else {
      CountIs(conf, ls);
      var s := GetsReady(conf, ls);
      var r := Overflows(s, conf, front, l);
      states, steps := RunTo(r);
    }
  }

  lemma RoomForTen()
    ensures WORK_DONE_SIZE == 10
  {
  }

  lemma CountIs(conf: Config, ls: seq<Launch>)
    requires Miner.AllValid(ls)
    ensures Count(conf, ls) == |Miner.AllWinners(ls, conf.powLimit, conf.workSize)|
  {
  }

  lemma LastApart(conf: Config, ls: seq<Launch>) returns (front: seq<Launch>, l: Launch)
    requires OneDevice(conf) && CanLaunch(conf, ls) && Miner.AllValid(ls)
    requires |Miner.AllWinners(ls, conf.powLimit, conf.workSize)| > 0
    ensures ls != [] && front == ls[..|ls| - 1] && l == ls[|ls| - 1] && ls == front + [l]
    ensures CanLaunch(conf, front) && Miner.AllValid(front)
    ensures ValidWork(l.work) && l == LaunchAt(conf, l.work, l.ts, |front|)
    ensures |Hits(l, conf.workSize)| <= MAX_CANDIDATES
  {
    hide LaunchAt, Hits, Winners;
    front, l := ls[..|ls| - 1], ls[|ls| - 1];
  }

  lemma RunTo(s: State) returns (states: seq<State>, steps: seq<Step>)
    requires Reached(s)
    ensures IsRunFromStart(states, steps) && Truthful(states, steps)
    ensures |states| == |steps| + 1 && states[|steps|] == s
  {
    states, steps :| EndsIn(states, steps, s);
  }

  lemma MoreLaunches(s: State, conf: Config, front: seq<Launch>, ls: seq<Launch>)
    requires OutOfRoom(s, conf, front) && front <= ls
    ensures OutOfRoom(s, conf, ls)
  {
  }

  lemma Invariants(s: State)
    requires Reached(s)
    ensures ControlInv(s) && SharesInv(s)
  {
    hide ControlInv, SharesInv, IsRunFromStart, Truthful;
    var states, steps := RunTo(s);
    ControlInvHolds(states, steps, |steps|);
    SharesInvHolds(states, steps, |steps|);
  }

  // Nothing is launched any more.
  lemma LaunchesStay(s: State, st: Step)
    requires Enabled(s, st) && WindingDown(s)
    ensures Apply(s, st).conf == s.conf && |Apply(s, st).devices| == |s.devices| && TruthfulStep(s, st)
    ensures forall i :: 0 <= i < |s.devices| ==> Apply(s, st).devices[i].launches == s.devices[i].launches
  {
    hide EnvEnabled, PubEnabled, DevEnabled, SubEnabled, ExpEnabled, WatchEnabled, StatEnabled, MainEnabled,
         EnvApply, PubApply, DevApply, SubApply, ExpApply, WatchApply, StatApply, MainApply, RunDone;
    match st
    case Pub(p, ps) => PubLeavesLaunches(s, p, ps);
    case Device(i, ds) => DeviceLeavesLaunches(s, i, ds);
    case _ => OthersLeaveDevices(s, st);
  }

  lemma DeviceLeavesLaunches(s: State, i: nat, ds: DevStep)
    requires DevEnabled(s, i, ds) && WindingDown(s)
    ensures !ds.Search?
    ensures var r := DevApply(s, i, ds);
            && r.conf == s.conf && |r.devices| == |s.devices|
            && forall k :: 0 <= k < |s.devices| ==> r.devices[k].launches == s.devices[k].launches
  {
    hide IsNextLaunch, RunDone;
  }

  lemma StaysOutOfRoom(s: State, st: Step, conf: Config, ls: seq<Launch>)
    requires Reached(s) && Enabled(s, st) && OutOfRoom(s, conf, ls) && OwnStep(st)
    ensures Reached(Apply(s, st)) && OutOfRoom(Apply(s, st), conf, ls)
    ensures Measure(Apply(s, st)) < Measure(s)
  {
    hide Reached, Enabled, Apply, ControlInv, SharesInv, Measure, Demand, TruthfulStep, RunDone;
    Invariants(s);
    EveryStepCounts(s, st);
    DemandKept(s, st);
    LaunchesStay(s, st);
    GoesOn(s, st);
  }

  // Its threads come to where none of them can do anything more.
  lemma {:induction false} RunsDown(s: State, conf: Config, ls: seq<Launch>) returns (r: State)
    requires Reached(s) && OutOfRoom(s, conf, ls)
    ensures Reached(r) && OutOfRoom(r, conf, ls) && !CanStep(r)
    decreases Measure(s)
  {
    hide Reached, OutOfRoom, Measure, Enabled, Apply;
    if CanStep(s) {
      var st :| OwnStep(st) && Enabled(s, st);
      StaysOutOfRoom(s, st, conf, ls);
      r := RunsDown(Apply(s, st), conf, ls);
    } else {
      r := s;
    }
  }

  // The context is done, the run has not returned, and it cannot go on.
  ghost predicate Deadlocked(s: State) {
    RunDone(s) && !s.run.main.Returned? && !CanStep(s)
  }

  ghost predicate CanDeadlock(conf: Config, ls: seq<Launch>) {
    exists s :: Reached(s) && LaunchedFrom(s, conf, ls) && Deadlocked(s)
  }

  lemma OutOfRoomDeadlocks(s: State, conf: Config, ls: seq<Launch>)
    requires Reached(s) && OutOfRoom(s, conf, ls) && !CanStep(s)
    ensures LaunchedFrom(s, conf, ls) && Deadlocked(s)
  {
    hide CanStep, Demand, IsRunFromStart, Truthful;
    var states, steps := RunTo(s);
    NoRoomNeverReturns(states, steps, |steps|, |steps|);
  }

  lemma {:induction false} NoMoreWinners(a: seq<Launch>, b: seq<Launch>, conf: Config)
    requires Miner.AllValid(b) && a <= b
    ensures Miner.AllValid(a) && Count(conf, a) <= Count(conf, b)
  {
    hide Winners, ValidWork;
    if a == b {
    } else {
      assert a <= b[..|b| - 1];
      NoMoreWinners(a, b[..|b| - 1], conf);
    }
  }

  lemma FewWinnersNoDeadlock(s: State, conf: Config, ls: seq<Launch>)
    requires Reached(s) && LaunchedFrom(s, conf, ls) && OneDevice(conf) && Miner.AllValid(ls)
    requires Count(conf, ls) <= WORK_DONE_SIZE
    ensures !Deadlocked(s)
  {
    hide CanStep, IsRunFromStart, Truthful, Miner.AllWinners, Taken;
    NoMoreWinners(s.devices[0].launches, ls, conf);
    assert WinnerCounts(s) == [Count(conf, s.devices[0].launches)];
    assert Total(WinnerCounts(s)[..0]) == 0;
    if RunDone(s) {
      var states, steps := RunTo(s);
      FewWinnersReturn(states, steps, |steps|);
    }
  }

  // So launches of one device can end in a run that is done and never returns
  // exactly if they have more than ten winners in all.
  lemma DeadlocksExactly(conf: Config, ls: seq<Launch>)
    requires OneDevice(conf) && CanLaunch(conf, ls) && Miner.AllValid(ls)
    ensures CanDeadlock(conf, ls) <==> |Miner.AllWinners(ls, conf.powLimit, conf.workSize)| > 10
  {
    hide Reached, LaunchedFrom, Deadlocked, OutOfRoom, CanLaunch, IsRunFromStart, Truthful, Miner.AllWinners,
         Miner.AllValid, Count, CanStep;
    CountIs(conf, ls);
    if Count(conf, ls) > WORK_DONE_SIZE {
      var states, steps := HangIsReachable(conf, ls);
      var s := states[|steps|];
      ReachedBy(states, steps);
      var r := RunsDown(s, conf, ls);
      OutOfRoomDeadlocks(r, conf, ls);
    } else {
      forall s | Reached(s) && LaunchedFrom(s, conf, ls)
        ensures !Deadlocked(s)
      {
        FewWinnersNoDeadlock(s, conf, ls);
      }
    }
  }

  lemma ReachedBy(states: seq<State>, steps: seq<Step>)
    requires IsRunFromStart(states, steps) && Truthful(states, steps)
    ensures Reached(states[|steps|])
  {
    assert EndsIn(states, steps, states[|steps|]);
  }
}

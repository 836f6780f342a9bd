// Shutdown (miner.go, Run; device.go, foundCandidate): once the run's context is
// done its threads finish in a bounded number of steps, unless a device is left
// sending to a full channel that nobody drains while it holds its lock.
module MinerShutdown {
  import opened Options
  import opened Words
  import opened Header
  import opened MinerState
  import opened MinerFatal
  import opened MinerShares

  function Total(ws: seq<nat>): nat {
    if ws == [] then 0 else Total(ws[..|ws| - 1]) + ws[|ws| - 1]
  }

  lemma {:induction false} TotalOfUpdate(ws: seq<nat>, i: nat, w: nat)
    requires i < |ws|
    ensures Total(ws[i := w]) + ws[i] == Total(ws) + w
  {
    if i == |ws| - 1 {
      assert ws[i := w][..|ws| - 1] == ws[..|ws| - 1];
    } else {
      assert ws[i := w][..|ws| - 1] == ws[..|ws| - 1][i := w];
      TotalOfUpdate(ws[..|ws| - 1], i, w);
    }
  }

  lemma {:induction false} TotalBounds(ws: seq<nat>)
    ensures forall i :: 0 <= i < |ws| ==> ws[i] <= Total(ws)
    ensures (forall i :: 0 <= i < |ws| ==> ws[i] == 0) ==> Total(ws) == 0
  {
    if ws != [] {
      var front := ws[..|ws| - 1];
      TotalBounds(front);
      forall i | 0 <= i < |front|
        ensures ws[i] == front[i]
      {
      }
    }
  }

  // Steps left.  A candidate may cost an assessment, a send, and what the submit
  // thread does with the share.
  function DevWeight(d: Dev): nat {
    match d.pc
    case Gone => 0
    case Checking => 1
    case Receiving => 2
    case Idling => 3
    case Assessing(todo) => 4 + 8 * |todo|
    case Sending(_, rest) => 11 + 8 * |rest|
    case Launching => 5 + 8 * MAX_CANDIDATES
  }

  function DevWeights(devices: seq<Dev>): seq<nat> {
    seq(|devices|, i requires 0 <= i < |devices| => DevWeight(devices[i]))
  }

  function SubmitWeight(pc: SubmitPc): nat {
    match pc
    case SubmitGone => 0
    case Waiting => 1
    case SubmitCancelling => 3
    case SubmitFatal => 4
    case Verifying => 5
    case Submitting(_) => 6
  }

  // Hand-outs left, of n devices.
  function Remaining(q: Publisher, n: nat): nat {
    if q.handing.Some? && q.handing.value.next <= n then n - q.handing.value.next else 0
  }

  function ExpiryWeight(x: Expirer, poller: Publisher, n: nat): nat {
    (if x.tick then n + 3 else 0) +
    match x.pc
    case ExpiryGone => 0
    case Ticking => 1
    case ExpiryCancelling => 2
    case ExpiryFatal => 3
    case Publishing => 2 + Remaining(poller, n)
    case Polling => n + 3
  }

  function WatchWeight(pc: WatchPc): nat {
    match pc
    case WatchGone => 0
    case WatchCancelling => 1
    case WatchFatal => 2
    case Watching => 3
  }

  function StatsWeight(t: Printer, n: nat): nat {
    (if t.tick then n + 3 else 0) +
    match t.pc
    case StatsGone => 0
    case Resting => 1
    case Printing(j) => 2 + if j <= n then n - j else 0
  }

  function MainWeight(main: MainPc, seeder: Publisher, n: nat): nat {
    match main
    case Returned(_) => 0
    case Joining => 1
    case Seeded => 3
    case Seeding => 4 + Remaining(seeder, n)
    case Ready => n + 5
    case Beginning => n + 6
  }

  function CallbackWeight(q: Publisher, n: nat): nat {
    if q.handing.Some? then 1 + Remaining(q, n) else 0
  }

  function Measure(s: State): nat {
    var n := |s.devices|;
    Total(DevWeights(s.devices)) + 6 * |s.channel.queued| + SubmitWeight(s.submit.pc)
    + ExpiryWeight(s.expiry, s.feed.poller, n) + WatchWeight(s.watch) + StatsWeight(s.stats, n)
    + MainWeight(s.run.main, s.feed.seeder, n) + CallbackWeight(s.feed.callback, n)
  }

  lemma WeighDevice(devices: seq<Dev>, i: nat, d: Dev)
    requires i < |devices|
    ensures Total(DevWeights(devices[i := d])) + DevWeight(devices[i]) == Total(DevWeights(devices)) + DevWeight(d)
  {
    hide DevWeight;
    assert DevWeights(devices[i := d]) == DevWeights(devices)[i := DevWeight(d)];
    TotalOfUpdate(DevWeights(devices), i, DevWeight(d));
  }

  // The run's own steps: not the outside world's, and not the notification
  // callback's, which Run does not wait for.
  predicate OwnStep(st: Step) {
    !st.Env? && !(st.Pub? && st.source.Callback?)
  }

  // Once the context is done every step of a thread uses the measure up.
  lemma EveryStepCounts(s: State, st: Step)
    requires RunDone(s) && ControlInv(s) && Enabled(s, st)
    ensures !st.Env? ==> Measure(Apply(s, st)) < Measure(s)
    ensures st.Env? ==> Measure(Apply(s, st)) <= Measure(s) + |s.devices| + 3
    ensures RunDone(Apply(s, st))
  {
    FlagsStick(s, st);
    hide EnvEnabled, PubEnabled, DevEnabled, SubEnabled, ExpEnabled, WatchEnabled, StatEnabled, MainEnabled,
         EnvApply, PubApply, DevApply, SubApply, ExpApply, WatchApply, StatApply, MainApply, ControlInv, Measure;
    match st
    case Env(e) => EnvCounts(s, e);
    case Pub(p, ps) => PubCounts(s, p, ps);
    case Device(i, ds) => DeviceCounts(s, i, ds);
    case Submit(ss) => SubmitCounts(s, ss);
    case Expiry(es) => ExpiryCounts(s, es);
    case Watch(ws) => WatchCounts(s, ws);
    case Stats(ts) => StatsCounts(s, ts);
    case Main(ms) => MainCounts(s, ms);
  }

  lemma EnvCounts(s: State, e: EnvStep)
    requires EnvEnabled(s, e)
    ensures Measure(EnvApply(s, e)) <= Measure(s) + |s.devices| + 3
  {
  }

  lemma PubCounts(s: State, p: Source, ps: PubStep)
    requires ControlInv(s) && PubEnabled(s, p, ps)
    ensures Measure(PubApply(s, p, ps)) < Measure(s)
  {
    hide Total;
    if ps.Hand? {
      var i := PublisherOf(s.feed, p).handing.value.next;
      WeighDevice(s.devices, i, PubApply(s, p, ps).devices[i]);
    }
  }

  lemma DeviceCounts(s: State, i: nat, ds: DevStep)
    requires RunDone(s) && DevEnabled(s, i, ds)
    ensures Measure(DevApply(s, i, ds)) < Measure(s)
  {
    hide Total;
    WeighDevice(s.devices, i, DevApply(s, i, ds).devices[i]);
  }

  lemma SubmitCounts(s: State, st: SubStep)
    requires SubEnabled(s, st)
    ensures Measure(SubApply(s, st)) < Measure(s)
  {
    hide Total, CoinbasePays;
  }

  lemma ExpiryCounts(s: State, st: ExpStep)
    requires RunDone(s) && ControlInv(s) && ExpEnabled(s, st)
    ensures Measure(ExpApply(s, st)) < Measure(s)
  {
    hide Total;
  }

  lemma WatchCounts(s: State, st: WatchStep)
    requires WatchEnabled(s, st)
    ensures Measure(WatchApply(s, st)) < Measure(s)
  {
    hide Total;
  }

  lemma StatsCounts(s: State, st: StatStep)
    requires StatEnabled(s, st)
    ensures Measure(StatApply(s, st)) < Measure(s)
  {
    hide Total;
  }

  lemma MainCounts(s: State, st: MainStep)
    requires MainEnabled(s, st)
    ensures Measure(MainApply(s, st)) < Measure(s)
  {
    hide Total;
  }

  // How many of the steps from j up to k are the outside world's.
  function WorldSteps(steps: seq<Step>, j: nat, k: nat): (n: nat)
    requires j <= k <= |steps|
    ensures n <= k - j
    decreases k
  {
    if j == k then 0 else WorldSteps(steps, j, k - 1) + if steps[k - 1].Env? then 1 else 0
  }

  // Every run from a state with a done context: the threads take no more steps
  // than the measure allows, plus n + 3 for each thing the outside world does.
  lemma {:induction false} ShutdownIsBounded(states: seq<State>, steps: seq<Step>, j: nat, k: nat)
    requires IsRunFromStart(states, steps) && j <= k < |states| && RunDone(states[j])
    ensures RunDone(states[k]) && |states[k].devices| == |states[j].devices|
    ensures var world := WorldSteps(steps, j, k);
            (k - j - world) + Measure(states[k]) <= Measure(states[j]) + world * (|states[j].devices| + 3)
    decreases k
  {
    hide Enabled, Apply, Measure, RunDone;
    if j < k {
      ShutdownIsBounded(states, steps, j, k - 1);
      ControlInvHolds(states, steps, k - 1);
      EveryStepCounts(states[k - 1], steps[k - 1]);
      FlagsStick(states[k - 1], steps[k - 1]);
      OneMoreTime(WorldSteps(steps, j, k - 1), |states[j].devices| + 3);
    }
  }

  lemma OneMoreTime(n: nat, m: nat)
    ensures (n + 1) * m == n * m + m
  {
  }

  // A device holds its lock at a full channel that nobody will drain.
  predicate Stuck(s: State) {
    && s.run.started && s.submit.pc.SubmitGone? && |s.channel.queued| >= WORK_DONE_SIZE
    && exists i :: 0 <= i < |s.devices| && s.devices[i].pc.Sending?
  }

  ghost predicate CanStep(s: State) {
    exists st: Step :: OwnStep(st) && Enabled(s, st)
  }

  // Nothing but that keeps a run with a done context from going on to return.
  lemma NothingElseBlocks(s: State)
    requires ControlInv(s) && RunDone(s) && !s.run.main.Returned? && !Stuck(s)
    ensures CanStep(s)
  {
    if !s.run.main.Joining? {
      BeforeJoiningGoesOn(s);
    } else if exists i :: 0 <= i < |s.devices| && !s.devices[i].pc.Gone? && !s.devices[i].pc.Sending? {
      var i :| 0 <= i < |s.devices| && !s.devices[i].pc.Gone? && !s.devices[i].pc.Sending?;
      DeviceGoesOn(s, i);
    } else if exists i :: 0 <= i < |s.devices| && s.devices[i].pc.Sending? {
      var i :| 0 <= i < |s.devices| && s.devices[i].pc.Sending?;
      if |s.channel.queued| < WORK_DONE_SIZE {
        assert Enabled(s, Device(i, Send)) && OwnStep(Device(i, Send));
      } else {
        SubmitGoesOn(s);
      }
    } else {
      OthersGoOn(s);
    }
  }

  lemma BeforeJoiningGoesOn(s: State)
    requires ControlInv(s) && RunDone(s) && !s.run.main.Returned? && !s.run.main.Joining?
    ensures CanStep(s)
  {
    if s.run.main.Seeding? {
      var ps := if s.feed.seeder.handing.value.next < |s.devices| then Drop else Finish;
      assert Enabled(s, Pub(Seeder, ps)) && OwnStep(Pub(Seeder, ps));
    } else {
      var work: WorkItem := Work(seq(DATA_LEN, _ => 0), 0, 0, 0);
      var ms := if s.run.main == (if s.conf.benchmark then Ready else Beginning) then Seed(work) else StartThreads;
      assert Enabled(s, Main(ms)) && OwnStep(Main(ms));
    }
  }

  lemma DeviceGoesOn(s: State, i: nat)
    requires s.run.started && RunDone(s) && i < |s.devices| && !s.devices[i].pc.Gone? && !s.devices[i].pc.Sending?
    ensures CanStep(s)
  {
    var d := s.devices[i];
    var ds :=
      match d.pc
      case Receiving => (if d.queue != [] then Receive else if d.consumed != [] then Skip else GiveUp)
      case Checking => Check
      case Launching => Fail
      case Assessing(todo) => (if todo != [] then Assess else Rest(false))
      case _ => Leave;
    assert DevEnabled(s, i, ds);
    assert Enabled(s, Device(i, ds)) && OwnStep(Device(i, ds));
  }

  lemma SubmitGoesOn(s: State)
    requires s.run.started && RunDone(s) && !s.submit.pc.SubmitGone?
    ensures CanStep(s)
  {
    var ss :=
      match s.submit.pc
      case Waiting => SubStep.Stop
      case Submitting(_) => Answer(false)
      case Verifying => ReadBack(None)
      case SubmitFatal => StoreFatal
      case _ => SubStep.Cancel;
    assert SubEnabled(s, ss);
    assert Enabled(s, Submit(ss)) && OwnStep(Submit(ss));
  }

  lemma OthersGoOn(s: State)
    requires ControlInv(s) && RunDone(s) && s.run.main.Joining?
    requires forall i :: 0 <= i < |s.devices| ==> s.devices[i].pc.Gone?
    ensures CanStep(s)
  {
    if !s.submit.pc.SubmitGone? {
      SubmitGoesOn(s);
    } else if s.expiry.pc.Publishing? {
      var ps := if s.feed.poller.handing.value.next < |s.devices| then Drop else Finish;
      assert Enabled(s, Pub(Poller, ps)) && OwnStep(Pub(Poller, ps));
    } else if !s.expiry.pc.ExpiryGone? {
      var es := match s.expiry.pc
                case Ticking => ExpStop
                case Polling => PollFails
                case ExpiryFatal => ExpStoreFatal
                case _ => ExpCancel;
      assert Enabled(s, Expiry(es)) && OwnStep(Expiry(es));
    } else if !s.watch.WatchGone? {
      var ws := if s.watch.Watching? then WatchStop else if s.watch.WatchFatal? then WatchStoreFatal else WatchCancel;
      assert Enabled(s, Watch(ws)) && OwnStep(Watch(ws));
    } else if !s.stats.pc.StatsGone? {
      var ts := if s.stats.pc.Resting? then StatStop else Print;
      assert Enabled(s, Stats(ts)) && OwnStep(Stats(ts));
    } else {
      assert Enabled(s, Main(Return)) && OwnStep(Main(Return));
    }
  }

  // A device launches at most once after the context is done: only a device that
  // had passed its check before then still can.
  predicate OneLateLaunch(d: Dev, done: bool) {
    d.lateLaunches <= (if done && !d.pc.Launching? then 1 else 0)
  }

  lemma LateLaunchKept(s: State, st: Step)
    requires Enabled(s, st)
    requires forall i :: 0 <= i < |s.devices| ==> OneLateLaunch(s.devices[i], RunDone(s))
    ensures var r := Apply(s, st);
            forall i :: 0 <= i < |r.devices| ==> OneLateLaunch(r.devices[i], RunDone(r))
  {
    FlagsStick(s, st);
    if st.Device? {
      hide EnvEnabled, EnvApply, PubEnabled, PubApply, SubEnabled, SubApply, ExpEnabled, ExpApply,
           WatchEnabled, WatchApply, StatEnabled, StatApply, MainEnabled, MainApply;
    } else if st.Pub? {
      hide EnvEnabled, EnvApply, DevEnabled, DevApply, SubEnabled, SubApply, ExpEnabled, ExpApply,
           WatchEnabled, WatchApply, StatEnabled, StatApply, MainEnabled, MainApply;
    } else {
      OthersLeaveDevices(s, st);
      hide Enabled, Apply;
    }
  }

  lemma {:induction false} AtMostOneLateLaunch(states: seq<State>, steps: seq<Step>, k: nat)
    requires IsRunFromStart(states, steps) && k < |states|
    ensures forall i :: 0 <= i < |states[k].devices| ==>
              states[k].devices[i].lateLaunches <= 1 && OneLateLaunch(states[k].devices[i], RunDone(states[k]))
  {
    hide Enabled, Apply;
    if k > 0 {
      AtMostOneLateLaunch(states, steps, k - 1);
      LateLaunchKept(states[k - 1], steps[k - 1]);
    }
  }

  lemma LateIsCounted(s: State, st: Step, i: nat)
    requires Enabled(s, st) && i < |s.devices|
    ensures var r := Apply(s, st);
            && i < |r.devices|
            && (RunDone(s) ==> |r.devices[i].launches| - |s.devices[i].launches| ==
                               r.devices[i].lateLaunches - s.devices[i].lateLaunches)
  {
    FlagsStick(s, st);
    hide EnvEnabled, EnvApply, SubEnabled, SubApply, ExpEnabled, ExpApply, WatchEnabled, WatchApply,
         StatEnabled, StatApply, MainEnabled, MainApply, IsNextLaunch;
    if !st.Pub? && !st.Device? {
      OthersLeaveDevices(s, st);
    }
  }

  lemma {:induction false} LateAreCounted(states: seq<State>, steps: seq<Step>, j: nat, k: nat, i: nat)
    requires IsRunFromStart(states, steps) && j <= k < |states| && RunDone(states[j]) && i < |states[j].devices|
    ensures RunDone(states[k]) && i < |states[k].devices|
    ensures |states[k].devices[i].launches| - |states[j].devices[i].launches| ==
            states[k].devices[i].lateLaunches - states[j].devices[i].lateLaunches
    decreases k
  {
    hide Enabled, Apply;
    if j < k {
      LateAreCounted(states, steps, j, k - 1, i);
      LateIsCounted(states[k - 1], steps[k - 1], i);
      FlagsStick(states[k - 1], steps[k - 1]);
    }
  }

  // So from any state with a done context on, a device makes one launch at most.
  lemma OneMoreLaunchAtMost(states: seq<State>, steps: seq<Step>, j: nat, k: nat, i: nat)
    requires IsRunFromStart(states, steps) && j <= k < |states| && i < |states[j].devices|
    requires states[j].run.parentDone || states[j].run.cancelled
    ensures i < |states[k].devices| && |states[k].devices[i].launches| <= |states[j].devices[i].launches| + 1
  {
    LateAreCounted(states, steps, j, k, i);
    AtMostOneLateLaunch(states, steps, k);
    hide IsRunFromStart;
  }

  // The headers among candidates that are below the target.
  function Below(todo: seq<Found>): (headers: seq<seq<Byte>>) {
    if todo == [] then []
    else (if todo[0].verdict.BelowTarget? then [todo[0].header] else []) + Below(todo[1..])
  }

  // What a device still means to send.
  function Pending(d: Dev, benchmark: bool): seq<seq<Byte>> {
    if benchmark then []
    else match d.pc
         case Assessing(todo) => Below(todo)
         case Sending(header, rest) => [header] + Below(rest)
         case _ => []
  }

  function Pendings(devices: seq<Dev>, benchmark: bool): seq<nat> {
    seq(|devices|, i requires 0 <= i < |devices| => |Pending(devices[i], benchmark)|)
  }

  // What the channel would have to hold if nobody took anything more from it.
  function Demand(s: State): nat {
    |s.channel.queued| + Total(Pendings(s.devices, s.conf.benchmark))
  }

  // The context is done and no device is on a launch.
  predicate WindingDown(s: State) {
    RunDone(s) && forall i :: 0 <= i < |s.devices| ==> !s.devices[i].pc.Launching?
  }

  lemma DemandOfUpdate(devices: seq<Dev>, benchmark: bool, i: nat, d: Dev)
    requires i < |devices|
    ensures Total(Pendings(devices[i := d], benchmark)) + |Pending(devices[i], benchmark)| ==
              Total(Pendings(devices, benchmark)) + |Pending(d, benchmark)|
  {
    hide Pending;
    assert Pendings(devices[i := d], benchmark) == Pendings(devices, benchmark)[i := |Pending(d, benchmark)|];
    TotalOfUpdate(Pendings(devices, benchmark), i, |Pending(d, benchmark)|);
  }

  // From then on only the submit thread lowers the demand, and nothing raises it.
  lemma DemandKept(s: State, st: Step)
    requires WindingDown(s) && Enabled(s, st) && SharesInv(s)
    ensures var r := Apply(s, st);
            && WindingDown(r)
            && Demand(r) <= Demand(s)
            && (s.submit.pc.SubmitGone? ==> r.submit.pc.SubmitGone? && Demand(r) == Demand(s))
  {
    FlagsStick(s, st);
    match st
    case Pub(p, ps) => DemandPub(s, p, ps);
    case Device(i, ds) => DemandDevice(s, i, ds);
    case Submit(_) =>
      OthersLeaveDevices(s, st);
      hide EnvEnabled, EnvApply, PubEnabled, PubApply, DevEnabled, DevApply, ExpEnabled, ExpApply,
           WatchEnabled, WatchApply, StatEnabled, StatApply, MainEnabled, MainApply, CoinbasePays, Total, Pendings,
           SharesInv;
    case _ =>
      OthersLeaveDevices(s, st);
      hide Enabled, Apply, Total, Pendings, SharesInv;
  }

  lemma DemandPub(s: State, p: Source, ps: PubStep)
    requires WindingDown(s) && PubEnabled(s, p, ps)
    ensures var r := PubApply(s, p, ps);
            WindingDown(r) && Demand(r) == Demand(s) && r.submit == s.submit
  {
    hide Total, Pendings;
    if ps.Hand? {
      var i := PublisherOf(s.feed, p).handing.value.next;
      DemandOfUpdate(s.devices, s.conf.benchmark, i, PubApply(s, p, ps).devices[i]);
    }
  }

  lemma DemandDevice(s: State, i: nat, ds: DevStep)
    requires WindingDown(s) && DevEnabled(s, i, ds) && SharesInv(s)
    ensures var r := DevApply(s, i, ds);
            WindingDown(r) && Demand(r) == Demand(s) && r.submit == s.submit
  {
    hide Total, Pendings;
    assert Accounted(s.devices[i], s.conf.benchmark);
    DemandOfUpdate(s.devices, s.conf.benchmark, i, DevApply(s, i, ds).devices[i]);
  }

  lemma {:induction false} DemandStays(states: seq<State>, steps: seq<Step>, j: nat, k: nat)
    requires IsRunFromStart(states, steps) && j <= k < |states| && WindingDown(states[j])
    ensures WindingDown(states[k]) && Demand(states[k]) <= Demand(states[j])
    ensures states[j].submit.pc.SubmitGone? ==>
              states[k].submit.pc.SubmitGone? && Demand(states[k]) == Demand(states[j])
    decreases k
  {
    hide Enabled, Apply, Demand, WindingDown;
    if j < k {
      DemandStays(states, steps, j, k - 1);
      SharesInvHolds(states, steps, k - 1);
      DemandKept(states[k - 1], steps[k - 1]);
    }
  }

  // A stuck device means the channel cannot hold all of the demand; a run that
  // has returned left all of it in the channel.
  lemma StuckNeedsDemand(s: State)
    requires SharesInv(s)
    ensures Stuck(s) ==> Demand(s) > WORK_DONE_SIZE
    ensures AllGone(s) ==> Demand(s) <= WORK_DONE_SIZE
  {
    hide Total, Pending, NumbersOf, Accounted;
    var pendings := Pendings(s.devices, s.conf.benchmark);
    TotalBounds(pendings);
    if Stuck(s) {
      var i :| 0 <= i < |s.devices| && s.devices[i].pc.Sending?;
      SendingIsPending(s.devices[i], s.conf.benchmark);
      assert pendings[i] >= 1;
    }
    if AllGone(s) {
      forall i | 0 <= i < |s.devices|
        ensures pendings[i] == 0
      {
        GoneIsDone(s.devices[i], s.conf.benchmark);
      }
    }
  }

  lemma SendingIsPending(d: Dev, benchmark: bool)
    requires d.pc.Sending? && Accounted(d, benchmark)
    ensures Pending(d, benchmark) != []
  {
  }

  lemma GoneIsDone(d: Dev, benchmark: bool)
    requires d.pc.Gone?
    ensures Pending(d, benchmark) == []
  {
  }

  // With room in the channel for every candidate still to be sent, the run goes
  // on until it returns, whatever the submit thread still takes.
  lemma RoomReturns(states: seq<State>, steps: seq<Step>, k: nat, j: nat)
    requires IsRunFromStart(states, steps) && k <= j < |states|
    requires WindingDown(states[k]) && Demand(states[k]) <= 10
    ensures states[j].run.main.Returned? || CanStep(states[j])
  {
    DemandStays(states, steps, k, j);
    SharesInvHolds(states, steps, j);
    ControlInvHolds(states, steps, j);
    StuckNeedsDemand(states[j]);
    hide IsRunFromStart, Demand, CanStep, Stuck, SharesInv, ControlInv;
    if !states[j].run.main.Returned? {
      NothingElseBlocks(states[j]);
    }
  }

  // Without it, and with the submit thread gone, the run never returns.
  lemma NoRoomNeverReturns(states: seq<State>, steps: seq<Step>, k: nat, j: nat)
    requires IsRunFromStart(states, steps) && k <= j < |states|
    requires WindingDown(states[k]) && states[k].submit.pc.SubmitGone? && Demand(states[k]) > 10
    ensures !states[j].run.main.Returned?
  {
    hide Demand, SharesInv;
    DemandStays(states, steps, k, j);
    SharesInvHolds(states, steps, j);
    FatalInvHolds(states, steps, j);
    StuckNeedsDemand(states[j]);
  }

  // So a run whose threads can do nothing more has returned exactly if there was
  // room when the submit thread went.
  lemma ReturnsIffRoom(states: seq<State>, steps: seq<Step>, k: nat, j: nat)
    requires IsRunFromStart(states, steps) && k <= j < |states|
    requires WindingDown(states[k]) && states[k].submit.pc.SubmitGone?
    requires !CanStep(states[j])
    ensures states[j].run.main.Returned? <==> Demand(states[k]) <= 10
  {
    hide Demand, IsRunFromStart, WindingDown, CanStep;
    if Demand(states[k]) <= WORK_DONE_SIZE {
      RoomReturns(states, steps, k, j);
    } else {
      NoRoomNeverReturns(states, steps, k, j);
    }
  }
}

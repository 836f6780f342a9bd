// Startup (miner.go, NewMiner): work notifications come in before Run has started
// the threads that take work up, and the first work item has to queue behind them.
module MinerStartup {
  import opened Header
  import opened MinerState
  import opened MinerFatal
  import opened MinerHeaders
  import opened MinerHang

  // NewMiner is at a device whose queue is full, and nothing takes from it yet.
  predicate SeederWaits(s: State) {
    && !s.conf.benchmark && !s.run.started && s.run.main.Seeding?
    && s.feed.seeder.handing.Some? && s.feed.seeder.handing.value.next < |s.devices|
    && |s.devices[s.feed.seeder.handing.value.next].queue| >= QUEUE_SIZE
  }

  ghost predicate SeederCanStep(s: State) {
    exists ps: PubStep :: PubEnabled(s, Seeder, ps)
  }

  // That, with the caller's context not done, is all that can keep NewMiner from
  // going on.
  lemma SeederGoesOn(s: State)
    requires ControlInv(s) && !s.conf.benchmark && s.run.main.Seeding?
    ensures SeederCanStep(s) <==> !SeederWaits(s) || s.run.parentDone
  {
    var next := s.feed.seeder.handing.value.next;
    var ps := if next >= |s.devices| then Finish else if s.run.parentDone then Drop else Hand;
    if !SeederWaits(s) || s.run.parentDone {
      assert PubEnabled(s, Seeder, ps);
    }
  }

  lemma KeepsWaiting(s: State, st: Step)
    requires SeederWaits(s) && ControlInv(s) && Enabled(s, st) && !s.run.parentDone
    ensures SeederWaits(Apply(s, st))
  {
    if st.Pub? {
      hide EnvEnabled, EnvApply, SubEnabled, SubApply, ExpEnabled, ExpApply, WatchEnabled, WatchApply,
           StatEnabled, StatApply, MainEnabled, MainApply, DevEnabled, DevApply;
    } else {
      hide PubEnabled, PubApply, DevApply, SubApply, ExpApply, WatchApply, StatApply, MainApply, IsNextLaunch;
    }
  }

  // It waits for as long as that context is not done, whatever else happens: no
  // thread is ever started.
  lemma {:induction false} StartupHangs(states: seq<State>, steps: seq<Step>, j: nat, k: nat)
    requires IsRunFromStart(states, steps) && j <= k < |states|
    requires SeederWaits(states[j]) && !states[k].run.parentDone
    ensures SeederWaits(states[k]) && !SeederCanStep(states[k])
    decreases k
  {
    hide *;
    ControlInvHolds(states, steps, k);
    if j < k {
      RunLength(states, steps);
      ControlInvHolds(states, steps, k - 1);
      OneStep(states, steps, k - 1);
      FlagsStick(states[k - 1], steps[k - 1]);
      StartupHangs(states, steps, j, k - 1);
      KeepsWaiting(states[k - 1], steps[k - 1]);
    }
    WaitsSeeding(states[k]);
    SeederGoesOn(states[k]);
  }

  lemma RunLength(states: seq<State>, steps: seq<Step>)
    requires IsRunFromStart(states, steps)
    ensures |states| == |steps| + 1
  {
  }

  lemma OneStep(states: seq<State>, steps: seq<Step>, k: nat)
    requires IsRunFromStart(states, steps) && k < |steps|
    ensures |states| == |steps| + 1 && Enabled(states[k], steps[k])
    ensures states[k + 1] == Apply(states[k], steps[k])
  {
    hide Enabled, Apply, Init;
  }

  lemma WaitsSeeding(s: State)
    requires SeederWaits(s)
    ensures !s.conf.benchmark && s.run.main.Seeding?
  {
  }

  // How many of a source's items the i-th device has been offered.
  function Offered(q: Publisher, i: nat): int {
    q.issued - if q.handing.Some? && q.handing.value.next <= i then 1 else 0
  }

  // Before the threads run, queues hold what the callback and NewMiner put there.
  predicate QueuesCounted(s: State) {
    !s.run.started && !s.conf.benchmark ==>
      && s.feed.seeder.issued == (if s.run.main.Beginning? then 0 else 1)
      && forall i :: 0 <= i < |s.devices| ==>
           |s.devices[i].queue| <= Offered(s.feed.callback, i) + Offered(s.feed.seeder, i)
  }

  lemma QueuesCountedKept(s: State, st: Step)
    requires QueuesCounted(s) && ControlInv(s) && Enabled(s, st)
    ensures QueuesCounted(Apply(s, st))
  {
    FlagsStick(s, st);
    hide EnvEnabled, PubEnabled, MainEnabled, EnvApply, PubApply, DevApply, SubApply, ExpApply, WatchApply,
         StatApply, MainApply, ControlInv, IsNextLaunch;
    if !s.run.started {
      match st
      case Env(e) => EnvKeepsCount(s, e);
      case Pub(p, ps) => PubKeepsCount(s, p, ps);
      case Main(ms) => MainKeepsCount(s, ms);
      case _ => assert false;
    }
  }

  lemma EnvKeepsCount(s: State, e: EnvStep)
    requires QueuesCounted(s) && EnvEnabled(s, e)
    ensures QueuesCounted(EnvApply(s, e))
  {
  }

  lemma PubKeepsCount(s: State, p: Source, ps: PubStep)
    requires QueuesCounted(s) && ControlInv(s) && PubEnabled(s, p, ps) && !s.run.started
    ensures QueuesCounted(PubApply(s, p, ps))
  {
  }

  lemma MainKeepsCount(s: State, ms: MainStep)
    requires QueuesCounted(s) && ControlInv(s) && MainEnabled(s, ms)
    ensures QueuesCounted(MainApply(s, ms))
  {
  }

  lemma {:induction false} QueuesCountedHolds(states: seq<State>, steps: seq<Step>, k: nat)
    requires IsRunFromStart(states, steps) && k < |states|
    ensures QueuesCounted(states[k])
  {
    hide Enabled, Apply, ControlInv;
    if k > 0 {
      QueuesCountedHolds(states, steps, k - 1);
      ControlInvHolds(states, steps, k - 1);
      QueuesCountedKept(states[k - 1], steps[k - 1]);
    }
  }

  // It takes five notifications during startup.
  lemma FewNotificationsStart(states: seq<State>, steps: seq<Step>, k: nat)
    requires IsRunFromStart(states, steps) && k < |states|
    requires !states[k].conf.benchmark && states[k].run.main.Seeding?
    requires states[k].feed.callback.issued < 5
    ensures SeederCanStep(states[k])
  {
    hide IsRunFromStart;
    ControlInvHolds(states, steps, k);
    QueuesCountedHolds(states, steps, k);
    SeederGoesOn(states[k]);
  }

  lemma {:induction false} AllNotified(conf: Config, works: seq<WorkItem>) returns (r: State)
    requires OneDevice(conf) && |works| <= QUEUE_SIZE
    ensures Reached(r) && Running(r, conf, false, Beginning) && |r.devices[0].queue| == |works|
    ensures forall k :: 0 <= k < |works| ==> r.devices[0].queue[k].work == works[k]
  {
    hide Reached;
    if works == [] {
      StartReached(conf);
      r := StartOf(conf);
    } else {
      var s := AllNotified(conf, works[..|works| - 1]);
      var item;
      r, item := Renotified(s, conf, false, Beginning, works[|works| - 1]);
    }
  }

  // And five are enough, whatever work they and NewMiner's own request bring.
  lemma StartupHangIsReachable(conf: Config, works: seq<WorkItem>, first: WorkItem)
    returns (states: seq<State>, steps: seq<Step>)
    requires OneDevice(conf) && |works| == 5
    ensures IsRunFromStart(states, steps) && Truthful(states, steps) && |states| == |steps| + 1
    ensures var s := states[|steps|];
            && s.conf == conf && SeederWaits(s) && !s.run.parentDone && s.feed.current.Some?
            && s.feed.current.value.work == first
            && |s.devices| == 1 && |s.devices[0].queue| == 5
            && forall k :: 0 <= k < 5 ==> s.devices[0].queue[k].work == works[k]
  {
    hide Reached, IsRunFromStart, Truthful;
    var s := AllNotified(conf, works);
    var seed := Main(Seed(first));
    assert Enabled(s, seed) && TruthfulStep(s, seed);
    GoesOn(s, seed);
    states, steps := RunTo(Apply(s, seed));
  }
}

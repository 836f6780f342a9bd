// Why a run fails (miner.go: workSubmitThread, expiryThread, nodeWatchThread and
// Run's result): the three things that end one, and nothing else.
module MinerReasons {
  import opened MinerState
  import opened MinerFatal
  import opened MinerShares
  import opened MinerExpiry

  // A poll fails while the context is live, as the two before it did.
  predicate ThirdFailure(s: State, st: Step) {
    var polls := s.expiry.polls;
    && st == Expiry(PollFails) && !s.run.parentDone && !s.run.cancelled
    && |polls| >= 2 && !polls[|polls| - 1] && !polls[|polls| - 2]
  }

  // The node's exit is noticed.
  predicate SeesExit(st: Step) {
    st == Watch(SeeExit)
  }

  predicate Condemns(s: State, st: Step) {
    ExposesPayee(s, st) || ThirdFailure(s, st) || SeesExit(st)
  }

  // A thread is about to set the flag, or one has.
  predicate Condemned(s: State) {
    s.run.fatal || s.submit.pc.SubmitFatal? || s.expiry.pc.ExpiryFatal? || s.watch.WatchFatal?
  }

  lemma CondemnedBy(s: State, st: Step)
    requires ControlInv(s) && ExpiryInv(s) && Enabled(s, st)
    ensures Condemned(Apply(s, st)) <==> Condemned(s) || Condemns(s, st)
  {
    hide EnvEnabled, EnvApply, PubEnabled, PubApply, DevEnabled, DevApply, SubEnabled, SubApply, ExpEnabled, ExpApply,
         WatchEnabled, WatchApply, StatEnabled, StatApply, MainEnabled, MainApply, ControlInv, ExpiryInv, ExposesPayee,
         ThirdFailure, Condemned;
    match st
    case Env(e) => EnvCondemns(s, e);
    case Pub(p, ps) => SourceCondemns(s, p, ps);
    case Device(i, ds) => DeviceCondemns(s, i, ds);
    case Submit(ss) => SubmitCondemns(s, ss);
    case Expiry(es) => ExpiryCondemns(s, es);
    case Watch(ws) => WatchCondemns(s, ws);
    case Stats(ts) => StatsCondemns(s, ts);
    case Main(ms) => MainCondemns(s, ms);
  }

  lemma EnvCondemns(s: State, e: EnvStep)
    requires EnvEnabled(s, e)
    ensures Condemned(EnvApply(s, e)) <==> Condemned(s)
    ensures !Condemns(s, Env(e))
  {
  }

  lemma SourceCondemns(s: State, p: Source, ps: PubStep)
    requires ControlInv(s) && PubEnabled(s, p, ps)
    ensures Condemned(PubApply(s, p, ps)) <==> Condemned(s)
    ensures !Condemns(s, Pub(p, ps))
  {
  }

  lemma DeviceCondemns(s: State, i: nat, ds: DevStep)
    requires DevEnabled(s, i, ds)
    ensures Condemned(DevApply(s, i, ds)) <==> Condemned(s)
    ensures !Condemns(s, Device(i, ds))
  {
    hide DevEnabled, DevAfter;
  }

  lemma SubmitCondemns(s: State, st: SubStep)
    requires SubEnabled(s, st)
    ensures Condemned(SubApply(s, st)) <==> Condemned(s) || Condemns(s, Submit(st))
  {
    hide CoinbasePays;
  }

  lemma ExpiryCondemns(s: State, st: ExpStep)
    requires ExpiryInv(s) && ExpEnabled(s, st)
    ensures Condemned(ExpApply(s, st)) <==> Condemned(s) || Condemns(s, Expiry(st))
  {
    hide Issued, TrailingFailures;
    LastTwo(s.expiry.polls);
  }

  lemma LastTwo(polls: seq<bool>)
    ensures TrailingFailures(polls) >= 2 <==> |polls| >= 2 && !polls[|polls| - 1] && !polls[|polls| - 2]
  {
    if |polls| >= 2 {
      assert polls[..|polls| - 1][|polls| - 2] == polls[|polls| - 2];
    }
  }

  lemma WatchCondemns(s: State, st: WatchStep)
    requires WatchEnabled(s, st)
    ensures Condemned(WatchApply(s, st)) <==> Condemned(s) || Condemns(s, Watch(st))
  {
  }

  lemma StatsCondemns(s: State, st: StatStep)
    requires StatEnabled(s, st)
    ensures Condemned(StatApply(s, st)) <==> Condemned(s)
    ensures !Condemns(s, Stats(st))
  {
  }

  lemma MainCondemns(s: State, st: MainStep)
    requires MainEnabled(s, st)
    ensures Condemned(MainApply(s, st)) <==> Condemned(s)
    ensures !Condemns(s, Main(st))
  {
  }

  lemma {:induction false} CondemnedForAReason(states: seq<State>, steps: seq<Step>, k: nat)
    requires IsRunFromStart(states, steps) && k < |states|
    ensures Condemned(states[k]) <==> exists j :: 0 <= j < k && Condemns(states[j], steps[j])
  {
    hide Enabled, Apply, Condemns, ControlInv, ExpiryInv;
    if k > 0 {
      CondemnedForAReason(states, steps, k - 1);
      ControlInvHolds(states, steps, k - 1);
      ExpiryInvHolds(states, steps, k - 1);
      CondemnedBy(states[k - 1], steps[k - 1]);
    }
  }

  // In every interleaving: Run reports an error exactly if a block was exposed as
  // paying somebody else, a third poll in a row had failed, or the node's exit was
  // noticed.
  lemma FailsForAReason(states: seq<State>, steps: seq<Step>, k: nat)
    requires IsRunFromStart(states, steps) && k < |states| && states[k].run.main.Returned?
    ensures states[k].run.main.failed <==>
            exists j :: 0 <= j < k && (ExposesPayee(states[j], steps[j]) || ThirdFailure(states[j], steps[j])
                                       || SeesExit(steps[j]))
  {
    CondemnedForAReason(states, steps, k);
    FatalInvHolds(states, steps, k);
    hide IsRunFromStart, ExposesPayee, ThirdFailure, SeesExit;
    if exists j :: 0 <= j < k && Condemns(states[j], steps[j]) {
      var j :| 0 <= j < k && Condemns(states[j], steps[j]);
    }
  }

  // The threads that have ended before the context was done: those benchmark mode
  // does not start.
  predicate StaysOn(s: State) {
    && (s.submit.pc.SubmitGone? ==> RunDone(s))
    && (s.expiry.pc.ExpiryGone? ==> RunDone(s) || s.conf.benchmark)
    && (s.watch.WatchGone? ==> RunDone(s) || s.conf.benchmark)
    && (s.stats.pc.StatsGone? ==> RunDone(s))
  }

  lemma StaysOnStep(s: State, st: Step)
    requires StaysOn(s) && ControlInv(s) && Enabled(s, st)
    ensures StaysOn(Apply(s, st))
  {
    FlagsStick(s, st);
    hide EnvEnabled, PubEnabled, DevEnabled, SubEnabled, ExpEnabled, WatchEnabled, StatEnabled, MainEnabled,
         EnvApply, PubApply, DevApply, SubApply, ExpApply, WatchApply, StatApply, MainApply, ControlInv;
    match st
    case Env(e) => EnvStays(s, e);
    case Pub(p, ps) => SourceStays(s, p, ps);
    case Device(i, ds) => DeviceStays(s, i, ds);
    case Submit(ss) => SubmitStays(s, ss);
    case Expiry(es) => ExpiryStays(s, es);
    case Watch(ws) => WatchStays(s, ws);
    case Stats(ts) => StatsStay(s, ts);
    case Main(ms) => MainStays(s, ms);
  }

  lemma EnvStays(s: State, e: EnvStep)
    requires StaysOn(s) && EnvEnabled(s, e)
    ensures StaysOn(EnvApply(s, e))
  {
  }

  lemma SourceStays(s: State, p: Source, ps: PubStep)
    requires StaysOn(s) && ControlInv(s) && PubEnabled(s, p, ps)
    ensures StaysOn(PubApply(s, p, ps))
  {
  }

  lemma DeviceStays(s: State, i: nat, ds: DevStep)
    requires StaysOn(s) && DevEnabled(s, i, ds)
    ensures StaysOn(DevApply(s, i, ds))
  {
    hide DevEnabled, DevAfter;
  }

  lemma SubmitStays(s: State, st: SubStep)
    requires StaysOn(s) && SubEnabled(s, st)
    ensures StaysOn(SubApply(s, st))
  {
    hide CoinbasePays;
  }

  lemma ExpiryStays(s: State, st: ExpStep)
    requires StaysOn(s) && ExpEnabled(s, st)
    ensures StaysOn(ExpApply(s, st))
  {
    hide Issued;
  }

  lemma WatchStays(s: State, st: WatchStep)
    requires StaysOn(s) && WatchEnabled(s, st)
    ensures StaysOn(WatchApply(s, st))
  {
  }

  lemma StatsStay(s: State, st: StatStep)
    requires StaysOn(s) && StatEnabled(s, st)
    ensures StaysOn(StatApply(s, st))
  {
  }

  lemma MainStays(s: State, st: MainStep)
    requires StaysOn(s) && MainEnabled(s, st)
    ensures StaysOn(MainApply(s, st))
  {
    hide Issued;
  }

  lemma GoneStep(s: State, st: Step, i: nat)
    requires Enabled(s, st) && i < |s.devices|
    ensures i < |Apply(s, st).devices|
    ensures Apply(s, st).devices[i].pc.Gone? ==> s.devices[i].pc.Gone? || RunDone(s) || st == Device(i, Fail)
  {
    hide EnvEnabled, EnvApply, SubEnabled, SubApply, ExpEnabled, ExpApply, WatchEnabled, WatchApply,
         StatEnabled, StatApply, MainEnabled, MainApply, IsNextLaunch;
    if !st.Pub? && !st.Device? {
      OthersLeaveDevices(s, st);
    }
  }

  predicate HasFailed(steps: seq<Step>, k: nat, i: nat)
    requires k <= |steps|
  {
    exists j :: 0 <= j < k && steps[j] == Device(i, Fail)
  }

  lemma FailedLater(steps: seq<Step>, k: nat, i: nat)
    requires k < |steps|
    ensures HasFailed(steps, k, i) || steps[k] == Device(i, Fail) ==> HasFailed(steps, k + 1, i)
  {
  }

  lemma {:induction false} GoneForAReason(states: seq<State>, steps: seq<Step>, k: nat, i: nat)
    requires IsRunFromStart(states, steps) && k < |states| && i < |states[k].devices|
    ensures states[k].devices[i].pc.Gone? ==> RunDone(states[k]) || HasFailed(steps, k, i)
  {
    hide Enabled, Apply, HasFailed;
    if k > 0 {
      FlagsStick(states[k - 1], steps[k - 1]);
      GoneForAReason(states, steps, k - 1, i);
      GoneStep(states[k - 1], steps[k - 1], i);
      FailedLater(steps, k - 1, i);
    }
  }

  // Over every run: while its context is live no thread ends, but for a device
  // whose OpenCL call has failed and for the two that benchmark mode does without.
  lemma ThreadsStay(states: seq<State>, steps: seq<Step>, k: nat, i: nat)
    requires IsRunFromStart(states, steps) && k < |states| && i < |states[k].devices|
    requires !states[k].run.parentDone && !states[k].run.cancelled
    ensures var s := states[k];
            && !s.submit.pc.SubmitGone? && !s.stats.pc.StatsGone?
            && (!s.conf.benchmark ==> !s.expiry.pc.ExpiryGone? && !s.watch.WatchGone?)
            && (s.devices[i].pc.Gone? ==> exists j :: 0 <= j < k && steps[j] == Device(i, Fail))
  {
    StaysOnHolds(states, steps, k);
    GoneForAReason(states, steps, k, i);
    hide IsRunFromStart;
  }

  lemma {:induction false} StaysOnHolds(states: seq<State>, steps: seq<Step>, k: nat)
    requires IsRunFromStart(states, steps) && k < |states|
    ensures StaysOn(states[k])
  {
    hide Enabled, Apply, ControlInv;
    if k > 0 {
      StaysOnHolds(states, steps, k - 1);
      ControlInvHolds(states, steps, k - 1);
      StaysOnStep(states[k - 1], steps[k - 1]);
    }
  }

  // The printer reads a device's rate under its lock, which a device that is
  // sending holds.
  lemma PrinterIsHeldUp(s: State, st: StatStep)
    requires s.stats.pc.Printing? && s.stats.pc.next < |s.devices| && s.devices[s.stats.pc.next].pc.Sending?
    ensures !Enabled(s, Stats(st))
  {
  }
}

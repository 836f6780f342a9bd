// A fatal condition ends the run and is reported (miner.go: the three setters of
// fatal, and Run's result).
module MinerFatal {
  import opened MinerState

  predicate CancelPending(s: State) {
    s.submit.pc.SubmitCancelling? || s.expiry.pc.ExpiryCancelling? || s.watch.WatchCancelling?
  }

  // Whoever sets the flag is about to cancel or has cancelled, the flag is the
  // only reason to cancel, and Run has returned only from a finished run.
  predicate FatalInv(s: State) {
    && (s.run.fatal <==> s.run.cancelled || CancelPending(s))
    && (s.submit.pc.SubmitGone? ==> RunDone(s))
    && (s.watch.WatchFatal? ==> s.run.nodeExited)
    && (s.expiry.pc.ExpiryFatal? ==> s.expiry.failures >= MAX_FAILURES)
    && (s.run.main.Returned? ==> s.run.started && AllGone(s) && s.run.main.failed == s.run.fatal)
  }

  lemma FatalInvKept(s: State, st: Step)
    requires FatalInv(s) && ControlInv(s) && Enabled(s, st)
    ensures FatalInv(Apply(s, st))
  {
    hide EnvEnabled, PubEnabled, DevEnabled, SubEnabled, ExpEnabled, WatchEnabled, StatEnabled, MainEnabled,
         EnvApply, PubApply, DevApply, SubApply, ExpApply, WatchApply, StatApply, MainApply, FatalInv;
    match st
    case Env(e) => FatalEnv(s, e);
    case Pub(p, ps) => FatalPub(s, p, ps);
    case Device(i, ds) => FatalDevice(s, i, ds);
    case Submit(ss) => FatalSubmit(s, ss);
    case Expiry(es) => FatalExpiry(s, es);
    case Watch(ws) => FatalWatch(s, ws);
    case Stats(ts) => FatalStats(s, ts);
    case Main(ms) => FatalMain(s, ms);
  }

  lemma FatalEnv(s: State, e: EnvStep)
    requires FatalInv(s) && ControlInv(s) && EnvEnabled(s, e)
    ensures FatalInv(EnvApply(s, e))
  {
  }

  lemma FatalPub(s: State, p: Source, ps: PubStep)
    requires FatalInv(s) && ControlInv(s) && PubEnabled(s, p, ps)
    ensures FatalInv(PubApply(s, p, ps))
  {
  }

  lemma FatalDevice(s: State, i: nat, ds: DevStep)
    requires FatalInv(s) && ControlInv(s) && DevEnabled(s, i, ds)
    ensures FatalInv(DevApply(s, i, ds))
  {
  }

  lemma FatalSubmit(s: State, st: SubStep)
    requires FatalInv(s) && ControlInv(s) && SubEnabled(s, st)
    ensures FatalInv(SubApply(s, st))
  {
  }

  lemma FatalExpiry(s: State, st: ExpStep)
    requires FatalInv(s) && ControlInv(s) && ExpEnabled(s, st)
    ensures FatalInv(ExpApply(s, st))
  {
  }

  lemma FatalWatch(s: State, st: WatchStep)
    requires FatalInv(s) && ControlInv(s) && WatchEnabled(s, st)
    ensures FatalInv(WatchApply(s, st))
  {
  }

  lemma FatalStats(s: State, st: StatStep)
    requires FatalInv(s) && ControlInv(s) && StatEnabled(s, st)
    ensures FatalInv(StatApply(s, st))
  {
  }

  lemma FatalMain(s: State, st: MainStep)
    requires FatalInv(s) && ControlInv(s) && MainEnabled(s, st)
    ensures FatalInv(MainApply(s, st))
  {
  }

  lemma {:induction false} FatalInvHolds(states: seq<State>, steps: seq<Step>, k: nat)
    requires IsRunFromStart(states, steps) && k < |states|
    ensures FatalInv(states[k])
  {
    hide Enabled, Apply;
    if k > 0 {
      FatalInvHolds(states, steps, k - 1);
      ControlInvHolds(states, steps, k - 1);
      FatalInvKept(states[k - 1], steps[k - 1]);
    }
  }

  // Neither context, once done, is live again, and the flag is never cleared.
  lemma FlagsStick(s: State, st: Step)
    requires Enabled(s, st)
    ensures s.run.parentDone ==> Apply(s, st).run.parentDone
    ensures s.run.cancelled ==> Apply(s, st).run.cancelled
    ensures s.run.fatal ==> Apply(s, st).run.fatal
    ensures s.run.started ==> Apply(s, st).run.started
    ensures Apply(s, st).conf == s.conf && |Apply(s, st).devices| == |s.devices|
  {
    hide EnvEnabled, PubEnabled, DevEnabled, SubEnabled, ExpEnabled, WatchEnabled, StatEnabled, MainEnabled,
         PubApply, DevApply, SubApply, ExpApply, Issued;
    match st
    case Pub(p, ps) => PubLeavesFlags(s, p, ps);
    case Device(i, ds) => DeviceLeavesFlags(s, i, ds);
    case Submit(ss) => SubmitKeepsFlags(s, ss);
    case Expiry(es) => ExpiryKeepsFlags(s, es);
    case _ =>
  }

  lemma SubmitKeepsFlags(s: State, st: SubStep)
    requires SubEnabled(s, st)
    ensures var r := SubApply(s, st);
            && r.run == s.run.(cancelled := r.run.cancelled, fatal := r.run.fatal)
            && (s.run.cancelled ==> r.run.cancelled) && (s.run.fatal ==> r.run.fatal)
            && r.conf == s.conf && r.devices == s.devices
  {
    hide CoinbasePays;
  }

  lemma ExpiryKeepsFlags(s: State, st: ExpStep)
    requires ExpEnabled(s, st)
    ensures var r := ExpApply(s, st);
            && r.run == s.run.(cancelled := r.run.cancelled, fatal := r.run.fatal)
            && (s.run.cancelled ==> r.run.cancelled) && (s.run.fatal ==> r.run.fatal)
            && r.conf == s.conf && r.devices == s.devices
  {
    hide Issued;
  }

  lemma PubLeavesFlags(s: State, p: Source, ps: PubStep)
    requires PubEnabled(s, p, ps)
    ensures var r := PubApply(s, p, ps);
            && r.run == s.run.(main := r.run.main) && r.conf == s.conf && |r.devices| == |s.devices|
  {
  }

  lemma DeviceLeavesFlags(s: State, i: nat, ds: DevStep)
    requires DevEnabled(s, i, ds)
    ensures var r := DevApply(s, i, ds);
            r.run == s.run && r.conf == s.conf && |r.devices| == |s.devices|
  {
  }

  lemma {:induction false} FlagsStay(states: seq<State>, steps: seq<Step>, j: nat, k: nat)
    requires IsRun(states, steps) && j <= k < |states|
    ensures states[j].run.parentDone ==> states[k].run.parentDone
    ensures states[j].run.cancelled ==> states[k].run.cancelled
    ensures states[j].run.fatal ==> states[k].run.fatal
    ensures states[k].conf == states[j].conf && |states[k].devices| == |states[j].devices|
    decreases k
  {
    hide Enabled, Apply;
    if j < k {
      FlagsStay(states, steps, j, k - 1);
      FlagsStick(states[k - 1], steps[k - 1]);
    }
  }

  // In every interleaving: Run returns only once its context is done and every
  // thread it waits for is gone, with an error exactly when the flag was set,
  // and without one only if its caller's context was done.
  lemma RunReportsFatal(states: seq<State>, steps: seq<Step>, k: nat)
    requires IsRunFromStart(states, steps) && k < |states| && states[k].run.main.Returned?
    ensures RunDone(states[k]) && AllGone(states[k])
    ensures states[k].run.main.failed <==> exists j :: 0 <= j <= k && states[j].run.fatal
    ensures !states[k].run.main.failed ==> states[k].run.parentDone
  {
    hide Enabled, Apply;
    FatalInvHolds(states, steps, k);
    forall j | 0 <= j <= k && states[j].run.fatal
      ensures states[k].run.fatal
    {
      FlagsStay(states, steps, j, k);
    }
  }

  // The step that cancels, for a thread that has set the flag.
  function CancelStep(s: State): Step
    requires CancelPending(s)
  {
    if s.submit.pc.SubmitCancelling? then Submit(Cancel)
    else if s.expiry.pc.ExpiryCancelling? then Expiry(ExpCancel)
    else Watch(WatchCancel)
  }

  // A run whose flag is set has been cancelled, or the cancelling is the very
  // next step of the thread that set it, and nothing can hold that step up.
  lemma FatalCancels(states: seq<State>, steps: seq<Step>, k: nat)
    requires IsRunFromStart(states, steps) && k < |states| && states[k].run.fatal && !states[k].run.cancelled
    ensures CancelPending(states[k])
    ensures Enabled(states[k], CancelStep(states[k])) && Apply(states[k], CancelStep(states[k])).run.cancelled
  {
    FatalInvHolds(states, steps, k);
    ControlInvHolds(states, steps, k);
    hide IsRunFromStart;
    var s := states[k];
    assert SubEnabled(s, Cancel) || ExpEnabled(s, ExpCancel) || WatchEnabled(s, WatchCancel);
  }
}

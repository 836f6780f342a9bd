// Shares: what devices send reaches the node once each and in order, and every
// candidate is accounted for (device.go, foundCandidate; miner.go,
// workSubmitThread, checkPayee and Status).
module MinerShares {
  import opened Options
  import opened MinerState
  import opened MinerFatal

  function InHand(pc: SubmitPc): seq<Share> {
    if pc.Submitting? then [pc.share] else []
  }

  // The numbers one device's shares carry, in the order of the log.
  function NumbersOf(log: seq<Share>, i: nat): seq<nat> {
    if log == [] then []
    else
      var last := log[|log| - 1];
      NumbersOf(log[..|log| - 1], i) + if last.device == i then [last.number] else []
  }

  lemma OneMoreNumber(log: seq<Share>, last: Share, i: nat)
    ensures NumbersOf(log + [last], i) == NumbersOf(log, i) + if last.device == i then [last.number] else []
  {
    assert (log + [last])[..|log|] == log;
  }

  function Iota(n: nat): (r: seq<nat>)
    ensures |r| == n && forall k :: 0 <= k < n ==> r[k] == k
  {
    if n == 0 then [] else Iota(n - 1) + [n - 1]
  }

  // Every assessed candidate is a mismatch, above the proof-of-work limit, or a
  // share; outside benchmark mode every share is above the target, sent, or
  // being sent.
  predicate Accounted(d: Dev, benchmark: bool) {
    && d.assessed == d.hashMismatches + d.powErrors + d.allDiffOneShares
    && (!benchmark ==> d.allDiffOneShares == d.sent + d.aboveTarget + if d.pc.Sending? then 1 else 0)
    && (benchmark ==> d.sent == 0 && !d.pc.Sending?)
  }

  predicate SharesInv(s: State) {
    && s.channel.log == s.submit.answered + InHand(s.submit.pc) + s.channel.queued
    && |s.channel.queued| <= WORK_DONE_SIZE
    && s.submit.valid + s.submit.invalid == |s.submit.answered|
    && (forall i :: 0 <= i < |s.devices| ==> Accounted(s.devices[i], s.conf.benchmark))
    && (forall i :: 0 <= i < |s.devices| ==> NumbersOf(s.channel.log, i) == Iota(s.devices[i].sent))
  }

  lemma SharesInvKept(s: State, st: Step)
    requires SharesInv(s) && Enabled(s, st)
    ensures SharesInv(Apply(s, st))
  {
    hide EnvEnabled, PubEnabled, DevEnabled, SubEnabled, ExpEnabled, WatchEnabled, StatEnabled, MainEnabled,
         EnvApply, PubApply, DevApply, SubApply, ExpApply, WatchApply, StatApply, MainApply, NumbersOf;
    match st
    case Pub(p, ps) => SharesPub(s, p, ps);
    case Device(i, ds) => SharesDevice(s, i, ds);
    case Submit(ss) => SharesSubmit(s, ss);
    case _ => OthersLeaveDevices(s, st);
  }

  lemma SharesPub(s: State, p: Source, ps: PubStep)
    requires SharesInv(s) && PubEnabled(s, p, ps)
    ensures SharesInv(PubApply(s, p, ps))
  {
  }

  lemma SharesDevice(s: State, i: nat, ds: DevStep)
    requires SharesInv(s) && DevEnabled(s, i, ds)
    ensures SharesInv(DevApply(s, i, ds))
  {
    if ds.Send? {
      SharesSend(s, i);
    } else {
      AccountedKept(s, i, ds);
      hide NumbersOf, IsNextLaunch, DevAfter, Accounted;
    }
  }

  lemma SharesSend(s: State, i: nat)
    requires SharesInv(s) && DevEnabled(s, i, Send)
    ensures SharesInv(DevApply(s, i, Send))
  {
    hide NumbersOf;
    var r := DevApply(s, i, Send);
    forall j | 0 <= j < |s.devices|
      ensures NumbersOf(r.channel.log, j) == Iota(r.devices[j].sent)
    {
      OneMoreNumber(s.channel.log, Share(i, s.devices[i].sent, s.devices[i].pc.header), j);
    }
  }

  lemma AccountedKept(s: State, i: nat, ds: DevStep)
    requires DevEnabled(s, i, ds) && !ds.Send? && Accounted(s.devices[i], s.conf.benchmark)
    ensures Accounted(DevAfter(s, i, ds), s.conf.benchmark) && DevAfter(s, i, ds).sent == s.devices[i].sent
  {
    hide IsNextLaunch;
  }

  lemma SharesSubmit(s: State, st: SubStep)
    requires SharesInv(s) && SubEnabled(s, st)
    ensures SharesInv(SubApply(s, st))
  {
  }

  lemma {:induction false} SharesInvHolds(states: seq<State>, steps: seq<Step>, k: nat)
    requires IsRunFromStart(states, steps) && k < |states|
    ensures SharesInv(states[k])
  {
    hide Enabled, Apply;
    if k > 0 {
      SharesInvHolds(states, steps, k - 1);
      SharesInvKept(states[k - 1], steps[k - 1]);
    }
  }

  // Conservation on every reachable state: what was sent is what was answered,
  // what is in hand and what is queued, in that order, with Status's counts
  // summing to what was answered; and each device's shares are in there once
  // each, in the order it sent them.
  lemma SharesConserved(states: seq<State>, steps: seq<Step>, k: nat)
    requires IsRunFromStart(states, steps) && k < |states|
    ensures var s := states[k];
            && s.channel.log == s.submit.answered + InHand(s.submit.pc) + s.channel.queued
            && |s.channel.log| == s.submit.valid + s.submit.invalid + |InHand(s.submit.pc)| + |s.channel.queued|
            && forall i :: 0 <= i < |s.devices| ==>
                 var d := s.devices[i];
                 && NumbersOf(s.channel.log, i) == Iota(d.sent)
                 && d.assessed == d.hashMismatches + d.powErrors + d.allDiffOneShares
                 && (!s.conf.benchmark && !d.pc.Sending? ==> d.allDiffOneShares == d.sent + d.aboveTarget)
  {
    hide IsRunFromStart;
    SharesInvHolds(states, steps, k);
  }

  // In benchmark mode nothing is ever sent.
  lemma {:induction false} BenchmarkSendsNothing(states: seq<State>, steps: seq<Step>, k: nat)
    requires IsRunFromStart(states, steps) && k < |states| && states[k].conf.benchmark
    ensures states[k].channel.log == [] && states[k].submit.answered == []
  {
    hide Enabled, Apply, SharesInv;
    SharesConserved(states, steps, k);
    if k > 0 {
      FlagsStick(states[k - 1], steps[k - 1]);
      BenchmarkSendsNothing(states, steps, k - 1);
      SharesInvHolds(states, steps, k - 1);
      NothingSent(states[k - 1], steps[k - 1]);
    }
  }

  lemma NothingSent(s: State, st: Step)
    requires SharesInv(s) && Enabled(s, st) && s.conf.benchmark
    ensures Apply(s, st).channel.log == s.channel.log
  {
    hide EnvEnabled, EnvApply, ExpEnabled, ExpApply, WatchEnabled, WatchApply, StatEnabled, StatApply, MainEnabled,
         MainApply, NumbersOf, IsNextLaunch, CoinbasePays;
    if !st.Pub? && !st.Device? && !st.Submit? {
      OthersLeaveDevices(s, st);
    } else if st.Device? {
      assert Accounted(s.devices[st.i], s.conf.benchmark);
    }
  }

  // The step that sets payeeChecked: a block read back whose coinbase pays the
  // script, which is not empty.
  predicate VerifiesPayee(s: State, st: Step) {
    st.Submit? && st.sub.ReadBack? && st.sub.block.Some? && s.submit.pc.Verifying? && !s.submit.payeeChecked
    && s.conf.payoutScript != "" && CoinbasePays(st.sub.block.value, s.conf.payoutScript)
  }

  // The step that finds an accepted block paying somebody else.
  predicate ExposesPayee(s: State, st: Step) {
    st.Submit? && st.sub.ReadBack? && st.sub.block.Some? && s.submit.pc.Verifying? && !s.submit.payeeChecked
    && s.conf.payoutScript != "" && !CoinbasePays(st.sub.block.value, s.conf.payoutScript)
  }

  lemma PayeeStep(s: State, st: Step)
    requires Enabled(s, st)
    ensures Apply(s, st).submit.payeeChecked <==> s.submit.payeeChecked || VerifiesPayee(s, st)
    ensures Apply(s, st).submit.pc.SubmitFatal? <==>
            ExposesPayee(s, st) || (s.submit.pc.SubmitFatal? && st != Submit(StoreFatal))
    ensures SubmitEnding(s.submit.pc) ==>
              SubmitEnding(Apply(s, st).submit.pc) && Apply(s, st).submit.answered == s.submit.answered
    ensures s.submit.pc.SubmitFatal? && !Apply(s, st).submit.pc.SubmitFatal? ==> Apply(s, st).run.fatal
  {
    hide EnvEnabled, PubEnabled, DevEnabled, ExpEnabled, WatchEnabled, StatEnabled, MainEnabled, CoinbasePays;
    match st
    case Env(_) =>
    case Pub(_, _) =>
    case Device(_, _) =>
    case Submit(_) =>
    case Expiry(_) =>
    case Watch(_) =>
    case Stats(_) =>
    case Main(_) =>
  }

  predicate SubmitEnding(pc: SubmitPc) {
    pc.SubmitFatal? || pc.SubmitCancelling? || pc.SubmitGone?
  }

  // payeeChecked is never cleared, and at every moment it is set one earlier
  // step verified the payee; no later step did so again.
  lemma {:induction false} PayeeCheckedOnce(states: seq<State>, steps: seq<Step>, k: nat)
    requires IsRunFromStart(states, steps) && k < |states|
    ensures states[k].submit.payeeChecked <==> exists j :: 0 <= j < k && VerifiesPayee(states[j], steps[j])
    ensures forall i, j :: 0 <= i < j < k && VerifiesPayee(states[i], steps[i]) ==> !VerifiesPayee(states[j], steps[j])
  {
    hide Enabled, Apply, CoinbasePays;
    if k > 0 {
      PayeeCheckedOnce(states, steps, k - 1);
      PayeeStep(states[k - 1], steps[k - 1]);
    }
  }

  // What the submit thread did last, of the steps from j up to k.
  predicate NoSubmit(steps: seq<Step>, j: nat, k: nat)
    requires k <= |steps|
  {
    forall i :: j <= i < k ==> !steps[i].Submit?
  }

  // How many of the first k steps answered a share, and how.
  function Answers(steps: seq<Step>, k: nat, ok: bool): nat
    requires k <= |steps|
  {
    if k == 0 then 0 else Answers(steps, k - 1, ok) + if steps[k - 1] == Submit(Answer(ok)) then 1 else 0
  }

  lemma AnswerStep(s: State, st: Step)
    requires Enabled(s, st)
    ensures var u, v := s.submit, Apply(s, st).submit;
            && v.valid == u.valid + (if st == Submit(Answer(true)) then 1 else 0)
            && v.invalid == u.invalid + (if st == Submit(Answer(false)) then 1 else 0)
            && (v.pc.Verifying? <==> if st.Submit? then st == Submit(Answer(true)) else u.pc.Verifying?)
            && (v.pc.Waiting? ==> st != Submit(Answer(true)))
            && (st == Submit(Answer(false)) ==> v.pc.Waiting?)
            && (!st.Submit? ==> v == u)
            && (st.Submit? && st.sub.Answer? ==> u.pc.Submitting? && v.answered == u.answered + [u.pc.share])
  {
    hide EnvEnabled, PubEnabled, DevEnabled, ExpEnabled, WatchEnabled, StatEnabled, MainEnabled, CoinbasePays;
    match st
    case Pub(p, ps) => SourceLeavesSubmit(s, p, ps);
    case Device(i, ds) => DeviceLeavesSubmit(s, i, ds);
    case Submit(ss) =>
    case _ => OthersLeaveDevices(s, st);
  }

  lemma SourceLeavesSubmit(s: State, p: Source, ps: PubStep)
    requires PubEnabled(s, p, ps)
    ensures PubApply(s, p, ps).submit == s.submit
  {
  }

  lemma DeviceLeavesSubmit(s: State, i: nat, ds: DevStep)
    requires DevEnabled(s, i, ds)
    ensures DevApply(s, i, ds).submit == s.submit
  {
    hide DevEnabled, DevAfter;
  }

  // Over every run: Status's valid shares are those the node accepted, and the
  // invalid ones those it did not.
  lemma {:induction false} AnswersCounted(states: seq<State>, steps: seq<Step>, k: nat)
    requires IsRunFromStart(states, steps) && k < |states|
    ensures states[k].submit.valid == Answers(steps, k, true) && states[k].submit.invalid == Answers(steps, k, false)
  {
    hide Enabled, Apply;
    if k > 0 {
      AnswersCounted(states, steps, k - 1);
      AnswerStep(states[k - 1], steps[k - 1]);
    }
  }

  // Whether the last thing the submit thread did in the first k steps was to have
  // a share accepted.
  predicate JustAccepted(steps: seq<Step>, k: nat)
    requires k <= |steps|
  {
    exists j :: 0 <= j < k && steps[j] == Submit(Answer(true)) && NoSubmit(steps, j + 1, k)
  }

  lemma AcceptedLater(steps: seq<Step>, k: nat)
    requires k < |steps|
    ensures JustAccepted(steps, k + 1) <==>
            if steps[k].Submit? then steps[k] == Submit(Answer(true)) else JustAccepted(steps, k)
  {
    if steps[k] == Submit(Answer(true)) {
      assert NoSubmit(steps, k + 1, k + 1);
    }
    if !steps[k].Submit? && JustAccepted(steps, k) {
      var j :| 0 <= j < k && steps[j] == Submit(Answer(true)) && NoSubmit(steps, j + 1, k);
      assert NoSubmit(steps, j + 1, k + 1);
    }
    if !steps[k].Submit? && JustAccepted(steps, k + 1) {
      var j :| 0 <= j < k + 1 && steps[j] == Submit(Answer(true)) && NoSubmit(steps, j + 1, k + 1);
      assert NoSubmit(steps, j + 1, k);
    }
  }

  lemma {:induction false} VerifyingIsAccepted(states: seq<State>, steps: seq<Step>, k: nat)
    requires IsRunFromStart(states, steps) && k < |states|
    ensures states[k].submit.pc.Verifying? <==> JustAccepted(steps, k)
  {
    hide Enabled, Apply, JustAccepted;
    if k == 0 {
      NothingAccepted(steps);
    } else {
      VerifyingIsAccepted(states, steps, k - 1);
      AnswerStep(states[k - 1], steps[k - 1]);
      AcceptedLater(steps, k - 1);
    }
  }

  lemma NothingAccepted(steps: seq<Step>)
    ensures !JustAccepted(steps, 0)
  {
  }

  // Over every run: a block can be read back exactly when the last thing the
  // submit thread did was to have a share accepted.
  lemma ReadBackFollowsAnswer(states: seq<State>, steps: seq<Step>, k: nat, block: Option<Block>)
    requires IsRunFromStart(states, steps) && k < |states|
    ensures Enabled(states[k], Submit(ReadBack(block))) <==>
            exists j :: 0 <= j < k && steps[j] == Submit(Answer(true)) && NoSubmit(steps, j + 1, k)
  {
    VerifyingIsAccepted(states, steps, k);
    ControlInvHolds(states, steps, k);
    hide IsRunFromStart, NoSubmit;
  }

  // Once the node has accepted a share and its block has been read back and does
  // not pay the script, nothing more is submitted, and a run that returns returns
  // an error.
  lemma {:induction false} WrongPayeeEndsMining(states: seq<State>, steps: seq<Step>, j: nat, k: nat)
    requires IsRunFromStart(states, steps) && j < k < |states| && ExposesPayee(states[j], steps[j])
    ensures SubmitEnding(states[k].submit.pc) && states[k].submit.answered == states[j].submit.answered
    ensures states[k].submit.pc.SubmitFatal? || states[k].run.fatal
    ensures states[k].run.main.Returned? ==> states[k].run.main.failed
    ensures JustAccepted(steps, j)
    decreases k
  {
    hide Enabled, Apply, CoinbasePays, JustAccepted;
    VerifyingIsAccepted(states, steps, j);
    PayeeStep(states[k - 1], steps[k - 1]);
    FatalInvHolds(states, steps, k);
    if k == j + 1 {
      ReadBackAnswersNothing(states[j], steps[j]);
    } else {
      WrongPayeeEndsMining(states, steps, j, k - 1);
      FlagsStick(states[k - 1], steps[k - 1]);
    }
  }

  lemma ReadBackAnswersNothing(s: State, st: Step)
    requires Enabled(s, st) && st.Submit? && st.sub.ReadBack?
    ensures Apply(s, st).submit.answered == s.submit.answered
  {
    hide CoinbasePays;
  }

  // The scan for our script: coinbasePays looks at the outputs of the first
  // transaction only, and an empty script matches nothing.
  method ScanCoinbase(blk: Block, wantScript: string) returns (pays: bool)
    ensures pays == CoinbasePays(blk, wantScript)
    ensures pays <==> && wantScript != "" && |blk.rawTx| > 0
                      && exists k :: 0 <= k < |blk.rawTx[0]| && EqualFold(blk.rawTx[0][k], wantScript)
  {
    if wantScript == "" {
      return false;
    }
    if |blk.rawTx| == 0 {
      return false;
    }
    for k := 0 to |blk.rawTx[0]|
      invariant forall j :: 0 <= j < k ==> !EqualFold(blk.rawTx[0][j], wantScript)
    {
      if EqualFold(blk.rawTx[0][k], wantScript) {
        return true;
      }
    }
    return false;
  }

  // For a script without upper-case letters, as hex.EncodeToString makes them, an
  // output matches exactly if it is the script with some of its letters in upper
  // case.
  lemma FoldsToScript(output: string, script: string)
    requires forall k :: 0 <= k < |script| ==> !('A' <= script[k] <= 'Z')
    ensures EqualFold(output, script) <==>
            && |output| == |script|
            && forall k :: 0 <= k < |script| ==>
                 || output[k] == script[k]
                 || ('A' <= output[k] <= 'Z' && script[k] as int == output[k] as int + 32)
  {
  }
}

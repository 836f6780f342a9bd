// The expiry policy (miner.go: workStale and expiryThread): what the failure
// count means over a run, and how old work is when the miner gives up on it.
module MinerExpiry {
  import opened Options
  import opened MinerState
  import opened MinerFatal

  // The length of the run of failed polls the poll history ends with.
  function TrailingFailures(polls: seq<bool>): (n: nat)
    ensures n <= |polls|
    ensures forall k :: |polls| - n <= k < |polls| ==> !polls[k]
    ensures n < |polls| ==> polls[|polls| - n - 1]
  {
    if polls == [] || polls[|polls| - 1] then 0 else TrailingFailures(polls[..|polls| - 1]) + 1
  }

  lemma OneMorePoll(polls: seq<bool>, ok: bool)
    ensures TrailingFailures(polls + [ok]) == if ok then 0 else TrailingFailures(polls) + 1
  {
    assert (polls + [ok])[..|polls|] == polls;
  }

  predicate ExpiryInv(s: State) {
    && s.expiry.failures == TrailingFailures(s.expiry.polls) <= MAX_FAILURES
    && (s.expiry.failures == MAX_FAILURES ==> GivingUp(s))
    && (s.expiry.pc.ExpiryFatal? || s.expiry.pc.ExpiryCancelling? ==> s.expiry.failures == MAX_FAILURES)
  }

  // The expiry thread is about to set the flag, or has set it.
  predicate GivingUp(s: State) {
    s.expiry.pc.ExpiryFatal? || (s.run.fatal && (s.expiry.pc.ExpiryCancelling? || s.run.cancelled))
  }

  lemma ExpiryInvKept(s: State, st: Step)
    requires ExpiryInv(s) && ControlInv(s) && Enabled(s, st)
    ensures ExpiryInv(Apply(s, st))
  {
    hide TrailingFailures;
    FlagsStick(s, st);
    if st.Expiry? {
      ExpiryStep(s, st.exp);
    } else {
      OnlyExpiryPolls(s, st);
    }
  }

  lemma ExpiryStep(s: State, st: ExpStep)
    requires ExpiryInv(s) && ExpEnabled(s, st)
    ensures ExpiryInv(ExpApply(s, st))
  {
    hide TrailingFailures, Issued;
    if st.PollFails? {
      OneMorePoll(s.expiry.polls, false);
    } else if st.PollAnswers? {
      OneMorePoll(s.expiry.polls, true);
    }
  }

  lemma OnlyExpiryPolls(s: State, st: Step)
    requires ControlInv(s) && Enabled(s, st) && !st.Expiry?
    ensures Apply(s, st).expiry.failures == s.expiry.failures && Apply(s, st).expiry.polls == s.expiry.polls
    ensures Apply(s, st).expiry.pc == s.expiry.pc || (s.expiry.pc.Publishing? && Apply(s, st).expiry.pc.Ticking?)
  {
    hide EnvEnabled, DevEnabled, SubEnabled, WatchEnabled, StatEnabled, MainEnabled;
  }

  lemma {:induction false} ExpiryInvHolds(states: seq<State>, steps: seq<Step>, k: nat)
    requires IsRunFromStart(states, steps) && k < |states|
    ensures ExpiryInv(states[k])
  {
    hide Enabled, Apply;
    if k > 0 {
      ExpiryInvHolds(states, steps, k - 1);
      ControlInvHolds(states, steps, k - 1);
      ExpiryInvKept(states[k - 1], steps[k - 1]);
    }
  }

  // The answers to the polls of the first k steps: a poll that fails when the
  // context is done is not counted.
  function PollsOf(states: seq<State>, steps: seq<Step>, k: nat): seq<bool>
    requires k <= |steps| && k <= |states|
  {
    if k == 0 then []
    else
      PollsOf(states, steps, k - 1) +
      match steps[k - 1]
      case Expiry(PollFails) => (if states[k - 1].run.parentDone || states[k - 1].run.cancelled then [] else [false])
      case Expiry(PollAnswers(_)) => [true]
      case _ => []
  }

  lemma PollStep(s: State, st: Step)
    requires ControlInv(s) && Enabled(s, st)
    ensures Apply(s, st).expiry.polls == s.expiry.polls +
              match st
              case Expiry(PollFails) => (if s.run.parentDone || s.run.cancelled then [] else [false])
              case Expiry(PollAnswers(_)) => [true]
              case _ => []
    ensures st == Expiry(PollFails) && (s.run.parentDone || s.run.cancelled) ==>
              Apply(s, st).expiry.pc.ExpiryGone? && Apply(s, st).run == s.run
  {
    hide EnvEnabled, EnvApply, PubEnabled, PubApply, DevEnabled, DevApply, SubEnabled, SubApply,
         WatchEnabled, WatchApply, StatEnabled, StatApply, MainEnabled, MainApply, Issued;
    if !st.Expiry? {
      OnlyExpiryPolls(s, st);
    }
  }

  // Over every run: the history is that of the polls made.
  lemma {:induction false} PollsRecorded(states: seq<State>, steps: seq<Step>, k: nat)
    requires IsRunFromStart(states, steps) && k < |states|
    ensures states[k].expiry.polls == PollsOf(states, steps, k)
  {
    hide Enabled, Apply;
    if k > 0 {
      PollsRecorded(states, steps, k - 1);
      ControlInvHolds(states, steps, k - 1);
      PollStep(states[k - 1], steps[k - 1]);
    }
  }

  // Over every run: the failure count is the length of the run of failed polls
  // the history ends with, it never passes three, and at three the run is fatal
  // or the expiry thread's next step makes it so, which is the only way that
  // thread ends a run.
  lemma ThirdFailureIsFatal(states: seq<State>, steps: seq<Step>, k: nat)
    requires IsRunFromStart(states, steps) && k < |states|
    ensures var s := states[k];
            && s.expiry.failures == TrailingFailures(s.expiry.polls) <= 3
            && (s.expiry.failures == 3 ==>
                  s.run.fatal || (Enabled(s, Expiry(ExpStoreFatal)) && Apply(s, Expiry(ExpStoreFatal)).run.fatal))
            && (Enabled(s, Expiry(ExpStoreFatal)) ==> s.expiry.failures == 3)
  {
    ExpiryInvHolds(states, steps, k);
    ControlInvHolds(states, steps, k);
    hide IsRunFromStart, TrailingFailures, EnvEnabled, EnvApply, PubEnabled, PubApply, DevEnabled, DevApply;
  }

  // Only an answered poll takes failures back: new work and ticks that find it
  // fresh leave the count alone, so three failures need not be consecutive ticks.
  lemma OnlyAnAnswerForgives(s: State, st: Step)
    requires ControlInv(s) && Enabled(s, st)
    ensures Apply(s, st).expiry.failures < s.expiry.failures ==> st.Expiry? && st.exp.PollAnswers?
    ensures st.Expiry? && st.exp.PollAnswers? ==> Apply(s, st).expiry.failures == 0
  {
    hide EnvEnabled, EnvApply, PubEnabled, PubApply, DevEnabled, DevApply, SubEnabled, SubApply,
         WatchEnabled, WatchApply, StatEnabled, StatApply, MainEnabled, MainApply, Issued;
    if !st.Expiry? {
      OnlyExpiryPolls(s, st);
    }
  }

  lemma {:induction false} FailuresAddUp(states: seq<State>, steps: seq<Step>, j: nat, k: nat)
    requires IsRunFromStart(states, steps) && j <= k < |states|
    requires forall n :: j <= n < k ==> !(steps[n].Expiry? && steps[n].exp.PollAnswers?)
    ensures states[j].expiry.failures <= states[k].expiry.failures
    ensures states[k].expiry.failures - states[j].expiry.failures == |states[k].expiry.polls| - |states[j].expiry.polls|
    decreases k
  {
    hide Enabled, Apply;
    if j < k {
      FailuresAddUp(states, steps, j, k - 1);
      ControlInvHolds(states, steps, k - 1);
      PollsAddUp(states[k - 1], steps[k - 1]);
    }
  }

  lemma PollsAddUp(s: State, st: Step)
    requires ControlInv(s) && Enabled(s, st) && !(st.Expiry? && st.exp.PollAnswers?)
    ensures Apply(s, st).expiry.failures - s.expiry.failures == |Apply(s, st).expiry.polls| - |s.expiry.polls| >= 0
  {
    hide EnvEnabled, EnvApply, PubEnabled, PubApply, DevEnabled, DevApply, SubEnabled, SubApply,
         WatchEnabled, WatchApply, StatEnabled, StatApply, MainEnabled, MainApply, Issued;
    if !st.Expiry? {
      OnlyExpiryPolls(s, st);
    }
  }

  // Times are in nanoseconds.
  const SECOND: int := 1_000_000_000
  const MINUTE: int := 60 * SECOND
  const WORK_EXPIRY: int := 15 * MINUTE
  const POLL_DEADLINE: int := 30 * SECOND

  // Work received at a whole second; zero is work never received.
  function Age(received: nat, now: int): int {
    now - received * SECOND
  }

  predicate WorkStale(received: nat, now: int, bound: int) {
    received != 0 && Age(received, now) > bound
  }

  // The ticks of a ticker started a minute before the first.
  predicate Ticker(ticks: seq<int>) {
    forall n :: 0 < n < |ticks| ==> ticks[n] == ticks[n - 1] + MINUTE
  }

  // expiryThread while nothing is published and every poll fails, the n-th after
  // took[n].  It returns when the third failure came, if the ticks last so long.
  // Work that was never received does not go stale.
  method GiveUp(received: nat, ticks: seq<int>, took: seq<int>) returns (gaveUp: Option<int>)
    requires Ticker(ticks) && ticks != [] && (received != 0 ==> Age(received, ticks[0]) <= WORK_EXPIRY)
    requires |took| >= |ticks| && forall n :: 0 <= n < |took| ==> 0 <= took[n] <= POLL_DEADLINE
    ensures gaveUp.Some? ==> 17 * MINUTE < Age(received, gaveUp.value) <= 18 * MINUTE + 30 * SECOND
    ensures gaveUp.Some? <==> received != 0 && Age(received, ticks[|ticks| - 1]) > 17 * MINUTE
  {
    var failures := 0;
    var free := ticks[0];  // when the thread is next back at its select
    for n := 0 to |ticks|
      invariant 0 <= failures < MAX_FAILURES && failures <= n
      invariant n > 0 ==> free <= ticks[n - 1] + POLL_DEADLINE
      invariant n == 0 ==> free == ticks[0] && failures == 0
      invariant received == 0 ==> failures == 0
      invariant n > 0 && failures == 0 && received != 0 ==> Age(received, ticks[n - 1]) <= WORK_EXPIRY
      invariant n > 0 && failures > 0 ==>
                  0 < Age(received, ticks[n - 1]) - WORK_EXPIRY - (failures - 1) * MINUTE <= MINUTE
    {
      var now := if free > ticks[n] then free else ticks[n];
      assert now == ticks[n];
      if !WorkStale(received, now, WORK_EXPIRY) {
        free := now;
        continue;
      }
      free := now + took[failures];
      failures := failures + 1;
      if failures >= MAX_FAILURES {
        LaterTicks(ticks, n);
        return Some(free);
      }
    }
    return None;
  }

  lemma {:induction false} LaterTicks(ticks: seq<int>, n: nat)
    requires Ticker(ticks) && n < |ticks|
    ensures ticks[|ticks| - 1] >= ticks[n]
    decreases |ticks| - n
  {
    if n + 1 < |ticks| {
      LaterTicks(ticks, n + 1);
    }
  }
}

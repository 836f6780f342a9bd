// What the devices of a run count: the hits of their launches, and which of them
// are shares (device.go, foundCandidate).
module MinerCounts {
  import opened Words
  import opened Header
  import opened BruteForce
  import opened MinerState
  import opened MinerShares
  import opened MinerHeaders
  import Miner = Device

  // How many candidates count as shares: those within the limit, whatever the
  // target.
  function ShareCount(found: seq<Found>): nat {
    if found == [] then 0
    else (if found[0].verdict.AboveTarget? || found[0].verdict.BelowTarget? then 1 else 0) + ShareCount(found[1..])
  }

  predicate NoMismatch(found: seq<Found>) {
    forall k :: 0 <= k < |found| ==> !found[k].verdict.Mismatch?
  }

  // The candidates a device has yet to assess.
  function Todo(d: Dev): seq<Found> {
    match d.pc
    case Assessing(todo) => todo
    case Sending(_, rest) => rest
    case _ => []
  }

  function AllHits(ls: seq<Launch>, n: nat): nat
    requires Miner.AllValid(ls)
  {
    if ls == [] then 0 else AllHits(ls[..|ls| - 1], n) + |Hits(ls[|ls| - 1], n)|
  }

  // Every candidate is assessed or still to be, none disagrees with the kernel,
  // and the shares are those of the launches.
  predicate Counted(d: Dev, conf: Config) {
    && Miner.AllValid(d.launches)
    && d.hashMismatches == 0 && NoMismatch(Todo(d))
    && d.assessed + |Todo(d)| == AllHits(d.launches, conf.workSize)
    && d.allDiffOneShares + ShareCount(Todo(d)) == Miner.AllShares(d.launches, conf.powLimit, conf.workSize)
  }

  lemma {:induction false} CountOfMore(found: seq<Found>, last: Found)
    ensures ShareCount(found + [last]) ==
            ShareCount(found) + if last.verdict.AboveTarget? || last.verdict.BelowTarget? then 1 else 0
  {
    if found == [] {
      assert [] + [last] == [last];
    } else {
      assert (found + [last])[1..] == found[1..] + [last];
      CountOfMore(found[1..], last);
    }
  }

  lemma {:induction false} AssessmentsCount(l: Launch, powLimit: nat, nonces: seq<Word>)
    requires ValidWork(l.work)
    ensures ShareCount(Assessments(l, powLimit, nonces)) == SharesAmong(l, powLimit, nonces)
    ensures (forall k :: 0 <= k < |nonces| ==> HashValue(HeaderOf(l, nonces[k])) < Pow256(28)) ==>
              NoMismatch(Assessments(l, powLimit, nonces))
  {
    hide HeaderOf, HashValue, Pow256, ShareCount;
    if nonces == [] {
      NothingCounted();
    } else {
      var last := nonces[|nonces| - 1];
      var front := nonces[..|nonces| - 1];
      AssessmentsCount(l, powLimit, front);
      CountOfMore(Assessments(l, powLimit, front), Found(HeaderOf(l, last), VerdictOf(l, last, powLimit)));
    }
  }

  lemma NothingCounted()
    ensures ShareCount([]) == 0
  {
  }

  lemma SearchCounts(d: Dev, e: Dev, conf: Config, l: Launch)
    requires Counted(d, conf) && ValidWork(l.work) && Todo(d) == []
    requires e.launches == d.launches + [l] && e.hashMismatches == d.hashMismatches && e.assessed == d.assessed
    requires e.allDiffOneShares == d.allDiffOneShares
    requires Todo(e) == Assessments(l, conf.powLimit, Hits(l, conf.workSize))
    ensures Counted(e, conf)
  {
    hide Hits, Assessments, Shares, SharesAmong, HashValue, HeaderOf, Pow256, Todo, Miner.AllShares, ValidWork;
    NothingCounted();
    hide ShareCount;
    var hits := Hits(l, conf.workSize);
    AssessingHits(l, conf.powLimit, conf.workSize);
    forall k | 0 <= k < |hits|
      ensures HashValue(HeaderOf(l, hits[k])) < Pow256(28)
    {
      HitsHit(l, conf.workSize, k);
    }
    AssessmentsCount(l, conf.powLimit, hits);
    Miner.OneMoreLaunch(d.launches, l, conf.powLimit, conf.workSize);
    assert e.launches[..|d.launches|] == d.launches;
  }

  lemma AssessCounts(d: Dev, conf: Config)
    requires Counted(d, conf) && d.pc.Assessing? && d.pc.todo != []
    ensures Counted(Assessed(d, conf.benchmark), conf)
  {
    hide Miner.AllShares, Miner.AllValid, AllHits;
  }

  lemma SameCounts(d: Dev, e: Dev, conf: Config)
    requires Counted(d, conf) && e.launches == d.launches && Todo(e) == Todo(d)
    requires e.hashMismatches == d.hashMismatches && e.assessed == d.assessed
    requires e.allDiffOneShares == d.allDiffOneShares
    ensures Counted(e, conf)
  {
    hide Miner.AllShares, Miner.AllValid, AllHits, Todo, ShareCount;
  }

  predicate AllCounted(s: State) {
    forall i :: 0 <= i < |s.devices| ==> Counted(s.devices[i], s.conf)
  }

  lemma DeviceCounts(s: State, i: nat, ds: DevStep)
    requires AllCounted(s) && DevEnabled(s, i, ds) && TruthfulStep(s, Device(i, ds))
    ensures AllCounted(DevApply(s, i, ds))
  {
    hide Counted, Assessed, Assessments, Hits, IsNextLaunch, ValidWork;
    var d, e := s.devices[i], DevApply(s, i, ds).devices[i];
    if ds.Search? {
      SearchCounts(d, e, s.conf, ds.launch);
    } else if ds.Assess? {
      AssessCounts(d, s.conf);
    } else {
      SameCounts(d, e, s.conf);
    }
  }

  // Handing a device an item leaves everything but its queue.
  lemma SourceLeavesCounts(s: State, p: Source, ps: PubStep)
    requires PubEnabled(s, p, ps)
    ensures var r := PubApply(s, p, ps);
            && r.conf == s.conf && |r.devices| == |s.devices|
            && forall i :: 0 <= i < |s.devices| ==> r.devices[i] == s.devices[i].(queue := r.devices[i].queue)
  {
  }

  lemma QueueAside(d: Dev, queue: seq<Item>, conf: Config)
    requires Counted(d, conf)
    ensures Counted(d.(queue := queue), conf)
  {
    hide Miner.AllShares, Miner.AllValid, AllHits, ShareCount, NoMismatch;
  }

  lemma SourceCounts(s: State, p: Source, ps: PubStep)
    requires AllCounted(s) && PubEnabled(s, p, ps)
    ensures AllCounted(PubApply(s, p, ps))
  {
    hide *;
    SourceLeavesCounts(s, p, ps);
    EachQueueAside(s, PubApply(s, p, ps));
  }

  lemma EachQueueAside(s: State, r: State)
    requires AllCounted(s) && r.conf == s.conf && |r.devices| == |s.devices|
    requires forall i :: 0 <= i < |s.devices| ==> r.devices[i] == s.devices[i].(queue := r.devices[i].queue)
    ensures AllCounted(r)
  {
    hide Counted;
    forall i | 0 <= i < |r.devices|
      ensures Counted(r.devices[i], r.conf)
    {
      QueueAside(s.devices[i], r.devices[i].queue, s.conf);
    }
  }

  lemma StepCounts(s: State, st: Step)
    requires AllCounted(s) && Enabled(s, st) && TruthfulStep(s, st)
    ensures AllCounted(Apply(s, st))
  {
    hide EnvEnabled, PubEnabled, DevEnabled, SubEnabled, ExpEnabled, WatchEnabled, StatEnabled, MainEnabled,
         EnvApply, PubApply, DevApply, SubApply, ExpApply, WatchApply, StatApply, MainApply, Counted, TruthfulStep;
    match st
    case Pub(p, ps) => SourceCounts(s, p, ps);
    case Device(i, ds) => DeviceCounts(s, i, ds);
    case _ => OthersLeaveDevices(s, st);
  }

  lemma {:induction false} AllCountedHolds(states: seq<State>, steps: seq<Step>, k: nat)
    requires IsRunFromStart(states, steps) && Truthful(states, steps) && k < |states|
    ensures AllCounted(states[k])
  {
    hide Enabled, Apply, TruthfulStep, AllCounted, Init;
    if k == 0 {
      NothingCountedYet(states[0]);
    } else {
      AllCountedHolds(states, steps, k - 1);
      StepCounts(states[k - 1], steps[k - 1]);
    }
  }

  lemma NothingCountedYet(s: State)
    requires Init(s)
    ensures AllCounted(s)
  {
  }

  // Over every truthful run, in benchmark mode or not: no candidate disagrees with
  // the kernel; what a device has assessed and has yet to assess are the hits of
  // its launches, and its shares and those still to be counted are the launches'
  // shares.  The rest of what it has assessed was above the limit.
  lemma SharesCounted(states: seq<State>, steps: seq<Step>, k: nat, i: nat)
    requires IsRunFromStart(states, steps) && Truthful(states, steps) && k < |states| && i < |states[k].devices|
    ensures var d, conf := states[k].devices[i], states[k].conf;
            && Miner.AllValid(d.launches)
            && d.hashMismatches == 0 && d.powErrors + d.allDiffOneShares == d.assessed
            && d.assessed + |Todo(d)| == AllHits(d.launches, conf.workSize)
            && d.allDiffOneShares + ShareCount(Todo(d)) == Miner.AllShares(d.launches, conf.powLimit, conf.workSize)
  {
    hide IsRunFromStart, Truthful, Miner.AllShares, Miner.AllValid, AllHits, ShareCount, Todo;
    AllCountedHolds(states, steps, k);
    SharesConserved(states, steps, k);
    assert Counted(states[k].devices[i], states[k].conf);
  }
}

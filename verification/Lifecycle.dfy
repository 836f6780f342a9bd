// The process from start to exit (main.go, monvarkMain; node.go, nodeStart,
// connect, WaitSynced and Stop): what it does in which order, on every path.
module Lifecycle {
  import opened Options

  datatype Event =
    | DevicesBuilt
    | ChoiceSaved
    | PayoutValidated(addr: string)
    | NodeStarted
    | NodeConnected
    | NodeSynced      // the node has reported that initial block download is over
    | WorkFlows       // NewMiner has subscribed: devices may be given work
    | RunEnded
    | NodeStopped     // Stop has been called

  // One turn of connect's loop, and one of WaitSynced's.
  datatype Attempt = NodeExited | NotUp | Up
  datatype Poll = Exited | Unreadable | Downloading | Done

  // What the rest of the world answers.  A loop whose script ends has its node
  // exit then, or its deadline pass.
  datatype World = World(
    configLoads: bool,          // loadConfig, and the CPU profile's file
    benchmark: bool,
    asked: Option<bool>,        // resolveDevices: an error, or whether it asked
    built: Option<nat>,         // newMinerDevs: an error, or how many devices
    saves: bool,                // saveDeviceChoice
    payout: Option<string>,     // resolvePayout: an error, or a validated address
    prepared: bool,             // nodeStart, before it starts the process
    starts: bool,               // the process's start
    attempts: seq<Attempt>,
    polls: seq<Poll>,
    minerStarts: bool,          // NewMiner
    runFails: bool,             // a fatal condition ends the run
    interruptAt: Option<nat>)   // when the first signal arrives

  // The script gets to its aim before anything ends it.
  predicate ComesUp(attempts: seq<Attempt>) {
    exists i :: 0 <= i < |attempts| && attempts[i].Up? && forall j :: 0 <= j < i ==> attempts[j].NotUp?
  }

  predicate Syncs(polls: seq<Poll>) {
    exists i :: 0 <= i < |polls| && polls[i].Done? && forall j :: 0 <= j < i ==> polls[j].Downloading?
  }

  // Everything a run that nothing stops goes through, in order: first the
  // devices, then the node, which benchmark mode does without, and the mining.
  function Path(w: World): seq<Event> {
    Prelude(w) + Rest(w)
  }

  function Prelude(w: World): seq<Event> {
    if w.asked == Some(true) then [DevicesBuilt, ChoiceSaved] else [DevicesBuilt]
  }

  function Rest(w: World): seq<Event> {
    if w.benchmark then [WorkFlows, RunEnded]
    else if w.payout.None? then []
    else [PayoutValidated(w.payout.value), NodeStarted, NodeConnected, NodeSynced, WorkFlows, RunEnded]
  }

  // A run that got n events down its path and then returned: Stop is deferred
  // once the node has started.
  function Finished(path: seq<Event>, n: nat): seq<Event>
    requires n <= |path|
  {
    path[..n] + if NodeStarted in path[..n] then [NodeStopped] else []
  }

  // The devices are there, and the choice of them is saved.
  predicate DevicesReady(w: World) {
    w.asked.Some? && w.built.Some? && w.built.value > 0 && (w.asked.value ==> w.saves)
  }

  predicate NodeReady(w: World) {
    w.benchmark || (w.payout.Some? && w.prepared && w.starts && ComesUp(w.attempts) && Syncs(w.polls))
  }

  // Nothing but an interrupt keeps this run from getting to mine.
  predicate Smooth(w: World) {
    w.configLoads && DevicesReady(w) && NodeReady(w) && w.minerStarts
  }

  function Count(trace: seq<Event>, e: Event): nat {
    if trace == [] then 0 else Count(trace[..|trace| - 1], e) + if trace[|trace| - 1] == e then 1 else 0
  }

  // A started node is stopped exactly once, last of all, and one that was not
  // started is not stopped.
  predicate StopsOnce(trace: seq<Event>) {
    && Count(trace, NodeStopped) == Count(trace, NodeStarted) <= 1
    && (NodeStopped in trace ==> trace[|trace| - 1] == NodeStopped)
  }

  // What came before the i-th event, at which devices may be given work: outside
  // benchmark mode the payout address was validated, and then the node started,
  // answered, and reported itself synced; in benchmark mode there is no node.
  // A choice of devices that was asked for is saved by then.
  predicate SyncedAt(w: World, trace: seq<Event>, i: nat)
    requires i < |trace|
  {
    && (!w.benchmark ==> w.payout.Some? && i >= 5
                         && trace[i - 4] == PayoutValidated(w.payout.value) && trace[i - 3] == NodeStarted
                         && trace[i - 2] == NodeConnected && trace[i - 1] == NodeSynced)
    && (w.benchmark ==> i >= 1 && NodeStarted !in trace)
    && trace[0] == DevicesBuilt
    && (w.asked == Some(true) ==> trace[1] == ChoiceSaved)
  }

  predicate MinesSynced(w: World, trace: seq<Event>) {
    forall i :: 0 <= i < |trace| && trace[i] == WorkFlows ==> SyncedAt(w, trace, i)
  }

  // What that takes.
  lemma SmoothMeans(w: World)
    ensures Smooth(w) <==>
            && w.configLoads && w.asked.Some? && w.built.Some? && w.built.value > 0 && (w.asked.value ==> w.saves)
            && (w.benchmark ||
                (&& w.payout.Some? && w.prepared && w.starts
                 && (exists i :: 0 <= i < |w.attempts| && w.attempts[i].Up? &&
                                 forall j :: 0 <= j < i ==> w.attempts[j].NotUp?)
                 && (exists i :: 0 <= i < |w.polls| && w.polls[i].Done? &&
                                 forall j :: 0 <= j < i ==> w.polls[j].Downloading?)))
            && w.minerStarts
  {
  }

  class Process {
    const w: World
    var trace: seq<Event>
    var clock: nat

    constructor (w: World)
      ensures this.w == w && trace == [] && clock == 0
    {
      this.w := w;
      trace := [];
      clock := 0;
    }

    // ctx.Err() != nil: once done, done for good.
    predicate Interrupted()
      reads this
    {
      w.interruptAt.Some? && w.interruptAt.value <= clock
    }

    // Time passes, and maybe something happens.
    method Pass()
      modifies this`clock
      ensures clock > old(clock)
    {
      clock := clock + 1;
    }

    method Happens(e: Event)
      modifies this
      ensures trace == old(trace) + [e] && clock > old(clock)
    {
      trace := trace + [e];
      clock := clock + 1;
    }

    method Connect() returns (ok: bool)
      modifies this
      ensures trace == if ok then old(trace) + [NodeConnected] else old(trace)
      ensures clock >= old(clock)
      ensures ok ==> exists i :: 0 <= i < |w.attempts| && w.attempts[i].Up? &&
                                 forall j :: 0 <= j < i ==> w.attempts[j].NotUp?
      ensures !ok && !Interrupted() ==>
                forall i :: 0 <= i < |w.attempts| && w.attempts[i].Up? ==>
                              exists j :: 0 <= j < i && !w.attempts[j].NotUp?
    {
      for i := 0 to |w.attempts|
        invariant trace == old(trace) && clock >= old(clock)
        invariant forall j :: 0 <= j < i ==> w.attempts[j].NotUp?
      {
        Pass();
        match w.attempts[i] {
          case NodeExited => return false;
          case Up =>
            Happens(NodeConnected);
            return true;
          case NotUp =>
            if Interrupted() {
              return false;
            }
        }
      }
      return false;
    }

    method WaitSynced() returns (ok: bool)
      modifies this
      ensures trace == if ok then old(trace) + [NodeSynced] else old(trace)
      ensures clock >= old(clock)
      ensures ok ==> exists i :: 0 <= i < |w.polls| && w.polls[i].Done? &&
                                 forall j :: 0 <= j < i ==> w.polls[j].Downloading?
      ensures !ok && !Interrupted() ==>
                forall i :: 0 <= i < |w.polls| && w.polls[i].Done? ==>
                              exists j :: 0 <= j < i && !w.polls[j].Downloading?
    {
      for i := 0 to |w.polls|
        invariant trace == old(trace) && clock >= old(clock)
        invariant forall j :: 0 <= j < i ==> w.polls[j].Downloading?
      {
        Pass();
        match w.polls[i] {
          case Exited => return false;
          case Unreadable => return false;
          case Done =>
            Happens(NodeSynced);
            return true;
          case Downloading =>
            if Interrupted() {
              return false;
            }
        }
      }
      return false;
    }

    // A node that was started but never answered is stopped here, and not again.
    method NodeStart() returns (ok: bool)
      modifies this
      ensures trace == old(trace)
                       + if !w.prepared || !w.starts then []
                         else if ok then [NodeStarted, NodeConnected]
                         else [NodeStarted, NodeStopped]
      ensures clock >= old(clock)
      ensures ok ==> w.prepared && w.starts && ComesUp(w.attempts)
      ensures !ok && !Interrupted() ==> !(w.prepared && w.starts && ComesUp(w.attempts))
    {
      Pass();
      if !w.prepared {
        return false;
      }
      if !w.starts {
        return false;
      }
      Happens(NodeStarted);
      ok := Connect();
      if !ok {
        Happens(NodeStopped);
      }
    }

    // Run's contract: without a fatal condition it returns only once it is
    // interrupted, and a run that nobody interrupts ends only by one.
    method Run() returns (failed: bool)
      modifies this
      ensures trace == old(trace) + [RunEnded] && clock > old(clock)
      ensures failed <==> w.runFails || w.interruptAt.None?
      ensures !failed ==> Interrupted()
    {
      failed := w.runFails || w.interruptAt.None?;
      if !failed && clock < w.interruptAt.value {
        clock := w.interruptAt.value;
      }
      Happens(RunEnded);
    }
 
    // monvarkMain up to where it looks for an interrupt.
    method Prepare() returns (ok: bool, ghost n: nat)
      requires trace == []
      modifies this
      ensures n <= |Prelude(w)| && trace == Prelude(w)[..n]
      ensures ok ==> n == |Prelude(w)|
      ensures ok <==> DevicesReady(w)
    {
      n := 0;
      Pass();
      if w.asked.None? {
        return false, n;
      }
      Pass();
      if w.built.None? {
        return false, n;
      }
      if w.built.value == 0 {
        return false, n;
      }
      Happens(DevicesBuilt);
      n := 1;
      if w.asked.value {
        if !w.saves {
          return false, n;
        }
        Happens(ChoiceSaved);
        n := 2;
      }
      return true, n;
    }

    // The payout address and the node, up to where it has synced; node says
    // whether Stop has been deferred.
    method BringUp() returns (ok: bool, node: bool, ghost n: nat)
      requires !w.benchmark
      modifies this
      ensures n <= 4 && (ok ==> n == 4) && n <= |Rest(w)| && (node ==> NodeStarted in Rest(w)[..n])
      ensures trace == old(trace) + Rest(w)[..n] + if NodeStarted in Rest(w)[..n] && !node then [NodeStopped] else []
      ensures clock >= old(clock)
      ensures ok ==> NodeReady(w) && node
      ensures NodeReady(w) && !Interrupted() ==> ok
    {
      Pass();
      if w.payout.None? {
        return false, false, 0;
      }
      Happens(PayoutValidated(w.payout.value));
      ok := NodeStart();
      if !ok {
        assert Rest(w)[..1] == [PayoutValidated(w.payout.value)];
        assert Rest(w)[..2] == [PayoutValidated(w.payout.value), NodeStarted];
        return false, false, if w.prepared && w.starts then 2 else 1;
      }
      assert Rest(w)[..3] == [PayoutValidated(w.payout.value), NodeStarted, NodeConnected];
      assert Rest(w)[..3][1] == NodeStarted;
      assert Rest(w)[..4] == Rest(w)[..3] + [NodeSynced];
      ok := WaitSynced();
      return ok, true, if ok then 4 else 3;
    }

    // From the interrupt check to the deferred calls.
    method Serve() returns (err: bool, node: bool, ghost n: nat)
      modifies this
      ensures n <= |Rest(w)| && (node ==> NodeStarted in Rest(w)[..n])
      ensures trace == old(trace) + Rest(w)[..n] + if NodeStarted in Rest(w)[..n] && !node then [NodeStopped] else []
      ensures clock >= old(clock)
      ensures !err ==> Interrupted()
      ensures NodeReady(w) && w.minerStarts && !Interrupted() ==> n == |Rest(w)|
      ensures WorkFlows in Rest(w)[..n] ==> NodeReady(w)
      ensures RunEnded in Rest(w)[..n] ==> NodeReady(w) && w.minerStarts
    {
      err, node, n := true, false, 0;
      if !w.benchmark {
        var ok;
        ok, node, n := BringUp();
        if !ok {
          return;
        }
      }
      assert Rest(w)[..n + 1] == Rest(w)[..n] + [WorkFlows];
      assert Rest(w)[..n + 2] == Rest(w)[..n + 1] + [RunEnded];
      Happens(WorkFlows);
      n := n + 1;
      if w.minerStarts {
        err := Run();
        n := n + 1;
      }
    }

    method Work() returns (err: bool, node: bool, ghost n: nat)
      requires trace == [] && w.configLoads
      modifies this
      ensures WorkFlows in trace ==> DevicesReady(w) && NodeReady(w)
      ensures RunEnded in trace ==> Smooth(w)
      ensures w.interruptAt == Some(0) ==> n <= |Prelude(w)|
      ensures n <= |Path(w)| && (node ==> NodeStarted in Path(w)[..n])
      ensures trace == Path(w)[..n] + if NodeStarted in Path(w)[..n] && !node then [NodeStopped] else []
      ensures !err ==> Interrupted()
      ensures Smooth(w) && !Interrupted() ==> n == |Path(w)|
    {
      hide Rest, NodeReady, DevicesReady;
      var ok;
      ok, n := Prepare();
      err, node := !ok, false;
      assert Path(w)[..n] == Prelude(w)[..n];
      if !ok || Interrupted() {
        return;
      }
      ghost var m;
      err, node, m := Serve();
      n := n + m;
      assert Path(w)[..n] == Prelude(w) + Rest(w)[..m];
    }

    // The whole process.  The deferred calls run last first: Stop, then the one
    // that takes an interrupted run's error away.  A run that gets n events down
    // its path has called Stop exactly if it had started the node, and exits with
    // a failure exactly if no interrupt has come by the time Stop is over.  Only a
    // start on which nothing fails gets to mine, on a synced node, and one that is
    // interrupted at once gets no further than its devices.
    method MonvarkMain() returns (failed: bool, ghost n: nat)
      requires trace == []
      modifies this
      ensures n <= |Path(w)| && trace == Finished(Path(w), n)
      ensures StopsOnce(trace) && MinesSynced(w, trace)
      ensures NodeStarted in trace <==> NodeStopped in trace
      ensures NodeStopped in trace ==> trace[|trace| - 1] == NodeStopped
      ensures WorkFlows in trace && !w.benchmark ==>
                && w.payout.Some? && w.prepared && w.starts
                && (exists i :: 0 <= i < |w.attempts| && w.attempts[i].Up? &&
                                forall j :: 0 <= j < i ==> w.attempts[j].NotUp?)
                && (exists i :: 0 <= i < |w.polls| && w.polls[i].Done? &&
                                forall j :: 0 <= j < i ==> w.polls[j].Downloading?)
      ensures WorkFlows in trace ==>
                && w.configLoads && w.asked.Some? && w.built.Some? && w.built.value > 0
                && (w.asked.value ==> w.saves)
      ensures failed <==> !w.configLoads || !Interrupted()
      ensures Smooth(w) && !Interrupted() ==> n == |Path(w)|
      ensures RunEnded in trace ==> Smooth(w)
      ensures w.interruptAt == Some(0) ==> n <= |Prelude(w)|
    {
      hide Path, StopsOnce, MinesSynced;
      if !w.configLoads {
        StoppedExactlyOnce(w, 0);
        NothingMinedBeforeSync(w, 0);
          return true, 0;
      }
      var node;
      failed, node, n := Work();
      if node {
        Happens(NodeStopped);
      }
      StoppedExactlyOnce(w, n);
      NothingMinedBeforeSync(w, n);
      if Interrupted() {
        failed := false;
      }
    }
  }

  lemma StoppedExactlyOnce(w: World, n: nat)
    requires n <= |Path(w)|
    ensures var trace := Finished(Path(w), n);
            && StopsOnce(trace)
            && (NodeStarted in trace <==> NodeStopped in trace)
            && (NodeStopped in trace ==> trace[|trace| - 1] == NodeStopped)
  {
    var before := Path(w)[..n];
    CountOnPath(w, n);
    CountNone(before, NodeStopped);
    CountNone(before, NodeStarted);
    if NodeStarted in before {
      CountOneMore(before, NodeStopped, NodeStopped);
      CountOneMore(before, NodeStopped, NodeStarted);
    } else {
      assert Finished(Path(w), n) == before;
    }
  }

  lemma CountOneMore(trace: seq<Event>, last: Event, e: Event)
    ensures Count(trace + [last], e) == Count(trace, e) + if last == e then 1 else 0
  {
    assert (trace + [last])[..|trace|] == trace;
  }

  lemma {:induction false} CountNone(trace: seq<Event>, e: Event)
    ensures e !in trace <==> Count(trace, e) == 0
  {
    if trace != [] {
      CountNone(trace[..|trace| - 1], e);
    }
  }

  lemma {:induction false} CountAtMostOne(trace: seq<Event>, e: Event, p: nat)
    requires forall k :: 0 <= k < |trace| && trace[k] == e ==> k == p
    ensures Count(trace, e) <= 1
  {
    if trace != [] {
      var front := trace[..|trace| - 1];
      CountAtMostOne(front, e, p);
      if trace[|trace| - 1] == e {
        CountNone(front, e);
      }
    }
  }

  // Where on a path the node is started; it is stopped nowhere on it.
  lemma OnPath(w: World, k: nat)
    requires k < |Path(w)|
    ensures Path(w)[k] == NodeStarted ==> k == |Prelude(w)| + 1
    ensures Path(w)[k] != NodeStopped
  {
  }

  lemma CountOnPath(w: World, n: nat)
    requires n <= |Path(w)|
    ensures Count(Path(w)[..n], NodeStarted) <= 1 && NodeStopped !in Path(w)[..n]
  {
    hide Path, Count;
    forall k | 0 <= k < n
      ensures Path(w)[k] == NodeStarted ==> k == |Prelude(w)| + 1
      ensures Path(w)[k] != NodeStopped
    {
      OnPath(w, k);
    }
    CountAtMostOne(Path(w)[..n], NodeStarted, |Prelude(w)| + 1);
  }

  lemma SyncedOnPath(w: World, i: nat)
    requires i < |Path(w)| && Path(w)[i] == WorkFlows
    ensures SyncedAt(w, Path(w), i)
  {
    WorkComesAfter(w, i);
    var k := |Prelude(w)|;
    assert Path(w)[k..] == Rest(w);
    assert i >= k;
    if w.benchmark {
      assert NodeStarted !in Prelude(w) && NodeStarted !in Rest(w);
    } else {
      assert Path(w)[k..][0] == PayoutValidated(w.payout.value) && Path(w)[k..][1] == NodeStarted;
      assert Path(w)[k..][2] == NodeConnected && Path(w)[k..][3] == NodeSynced;
    }
  }

  lemma FinishedIsPath(path: seq<Event>, n: nat, i: nat)
    requires n <= |path| && i < |Finished(path, n)| && Finished(path, n)[i] == WorkFlows
    ensures i < n <= |Finished(path, n)| && forall j :: 0 <= j < n ==> Finished(path, n)[j] == path[j]
    ensures NodeStarted in Finished(path, n) ==> NodeStarted in path
  {
  }

  lemma SyncedBefore(w: World, n: nat, i: nat)
    requires n <= |Path(w)| && i < |Finished(Path(w), n)| && Finished(Path(w), n)[i] == WorkFlows
    ensures SyncedAt(w, Finished(Path(w), n), i)
  {
    hide Path, Finished;
    FinishedIsPath(Path(w), n, i);
    SyncedOnPath(w, i);
  }

  lemma NothingMinedBeforeSync(w: World, n: nat)
    requires n <= |Path(w)|
    ensures MinesSynced(w, Finished(Path(w), n))
  {
    hide SyncedAt, Path;
    var trace := Finished(Path(w), n);
    forall i | 0 <= i < |trace| && trace[i] == WorkFlows
      ensures SyncedAt(w, trace, i)
    {
      SyncedBefore(w, n, i);
    }
  }

  // Everything a run to the end goes through.
  lemma WholeTrace(w: World)
    requires w.payout.Some? || w.benchmark
    ensures var devices := if w.asked == Some(true) then [DevicesBuilt, ChoiceSaved] else [DevicesBuilt];
            Finished(Path(w), |Path(w)|) ==
            if w.benchmark then devices + [WorkFlows, RunEnded]
            else devices + [PayoutValidated(w.payout.value), NodeStarted, NodeConnected, NodeSynced, WorkFlows,
                            RunEnded, NodeStopped]
  {
    assert Path(w)[..|Path(w)|] == Path(w);
    if !w.benchmark {
      assert Path(w)[|Prelude(w)| + 1] == NodeStarted;
    }
  }

  lemma WorkComesAfter(w: World, i: nat)
    requires i < |Path(w)| && Path(w)[i] == WorkFlows
    ensures i == |Prelude(w)| + if w.benchmark then 0 else 4
    ensures !w.benchmark ==> w.payout.Some?
  {
    assert i >= |Prelude(w)| && Rest(w)[i - |Prelude(w)|] == WorkFlows;
  }
}

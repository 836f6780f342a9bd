// The miner's threads (miner.go, with the device loop of device_opencl.go) as
// one step system: every shared variable and channel, and one step for each
// point at which another thread may run in between.
module MinerState {
  import opened Options
  import opened Words
  import opened Header
  import opened BruteForce
  import opened ExtraNonce

  const QUEUE_SIZE: nat := 5
  const WORK_DONE_SIZE: nat := 10
  const MAX_FAILURES: nat := 3
  const MAX_CANDIDATES: nat := 63

  // Where work comes from: the OnWork notification callback, the work item the
  // run starts from, and the expiry thread's poll.
  datatype Source = Callback | Seeder | Poller

  // A work item, with its source and its number among that source's items.
  datatype Item = Item(source: Source, number: nat, work: WorkItem)

  // The work being handed out, and the next device it goes to.
  datatype Handing = Handing(next: nat, work: WorkItem)

  // How many items a source has issued, and its latest one while that is still
  // being handed out.
  datatype Publisher = Publisher(issued: nat, handing: Option<Handing>)

  // A candidate a launch reported: its header and what assessing it comes to.
  datatype Found = Found(header: seq<Byte>, verdict: Verdict)

  // A below-target header on its way to the node, the device that found it and
  // its number among that device's.
  datatype Share = Share(device: nat, number: nat, header: seq<Byte>)

  datatype DevPc =
    | Receiving
    | Checking
    | Launching
    | Assessing(todo: seq<Found>)
    | Sending(header: seq<Byte>, rest: seq<Found>)  // on the workDone channel, holding the device lock
    | Idling
    | Gone

  datatype Dev = Dev(
    pc: DevPc,
    queue: seq<Item>,
    consumed: seq<Item>,
    launches: seq<Launch>,
    assessed: nat,
    hashMismatches: nat,
    powErrors: nat,
    allDiffOneShares: nat,
    aboveTarget: nat,
    sent: nat,
    lateLaunches: nat)  // launches made after the run's context was done

  datatype SubmitPc =
    | Waiting
    | Submitting(share: Share)
    | Verifying
    | SubmitFatal
    | SubmitCancelling
    | SubmitGone

  datatype ExpiryPc = Ticking | Polling | Publishing | ExpiryFatal | ExpiryCancelling | ExpiryGone

  datatype WatchPc = Watching | WatchFatal | WatchCancelling | WatchGone

  datatype StatsPc = Printing(next: nat) | Resting | StatsGone

  datatype MainPc = Beginning | Ready | Seeding | Seeded | Joining | Returned(failed: bool)

  // The coinbase of a block read back: the scripts of its first transaction's
  // outputs, if it has a transaction.
  datatype Block = Block(rawTx: seq<seq<string>>)

  // What a device's nonces are made of: its index and its random words.
  datatype NonceSeed = NonceSeed(index: nat, random1: Word, random2: Word)

  datatype Config = Config(
    benchmark: bool,
    payoutScript: string,
    powLimit: nat,
    workSize: nat,
    offset1: nat,
    offset2: nat,
    seeds: seq<NonceSeed>)

  // The two contexts, the sticky flag, the node, and how far Run has got.
  datatype RunState = RunState(
    parentDone: bool,
    cancelled: bool,
    fatal: bool,
    nodeExited: bool,
    started: bool,
    main: MainPc)

  // The current work, every item that has been it, and the three sources.
  datatype Feed = Feed(
    current: Option<Item>,
    published: seq<Item>,
    callback: Publisher,
    seeder: Publisher,
    poller: Publisher)

  // The workDone channel and everything ever sent on it.
  datatype Channel = Channel(queued: seq<Share>, log: seq<Share>)

  datatype Submitter = Submitter(pc: SubmitPc, answered: seq<Share>, valid: nat, invalid: nat, payeeChecked: bool)

  // polls records every poll that was answered, and every one that failed while
  // the context was live; true for an answer.
  datatype Expirer = Expirer(pc: ExpiryPc, tick: bool, failures: nat, polls: seq<bool>)

  datatype Printer = Printer(pc: StatsPc, tick: bool)

  datatype State = State(
    conf: Config,
    run: RunState,
    feed: Feed,
    devices: seq<Dev>,
    channel: Channel,
    submit: Submitter,
    expiry: Expirer,
    watch: WatchPc,
    stats: Printer)

  // The context Run derives, which every thread it starts waits on.
  predicate RunDone(s: State) {
    s.run.parentDone || s.run.cancelled
  }

  predicate SourceDone(s: State, p: Source) {
    match p
    case Callback => s.run.parentDone
    case Seeder => if s.conf.benchmark then RunDone(s) else s.run.parentDone
    case Poller => RunDone(s)
  }

  function PublisherOf(f: Feed, p: Source): Publisher {
    match p
    case Callback => f.callback
    case Seeder => f.seeder
    case Poller => f.poller
  }

  function WithPublisher(f: Feed, p: Source, q: Publisher): (g: Feed)
    ensures PublisherOf(g, p) == q && forall o :: o != p ==> PublisherOf(g, o) == PublisherOf(f, o)
    ensures g.current == f.current && g.published == f.published
  {
    match p
    case Callback => f.(callback := q)
    case Seeder => f.(seeder := q)
    case Poller => f.(poller := q)
  }

  function NewDev(): Dev {
    Dev(Receiving, [], [], [], 0, 0, 0, 0, 0, 0, 0)
  }

  predicate Init(s: State) {
    && s.run == RunState(false, false, false, false, false, Beginning)
    && s.feed == Feed(None, [], Publisher(0, None), Publisher(0, None), Publisher(0, None))
    && |s.conf.seeds| == |s.devices|
    && (forall i :: 0 <= i < |s.devices| ==> s.devices[i] == NewDev())
    && s.channel == Channel([], [])
    && s.submit == Submitter(Waiting, [], 0, 0, false)
    && s.expiry == Expirer(if s.conf.benchmark then ExpiryGone else Ticking, false, 0, [])
    && s.watch == (if s.conf.benchmark then WatchGone else Watching)
    && s.stats == Printer(Printing(0), false)
  }

  // Steps: what the outside world does, and what each thread does.
  datatype EnvStep = ParentCancels | NodeExits | ExpiryTicks | StatsTicks | Notified(work: WorkItem)

  datatype PubStep = Hand | Drop | Finish

  datatype DevStep =
    | Receive
    | Skip
    | GiveUp
    | Check
    | Search(launch: Launch, found: seq<Found>)
    | Fail
    | Assess
    | Send
    | Rest(idle: bool)
    | Wake
    | Leave

  datatype SubStep = Take | Stop | Answer(ok: bool) | ReadBack(block: Option<Block>) | StoreFatal | Cancel

  datatype ExpStep =
    | TickFresh
    | TickStale
    | PollFails
    | PollAnswers(work: Option<WorkItem>)  // None: an answer that does not decode
    | ExpStoreFatal
    | ExpCancel
    | ExpStop

  datatype WatchStep = SeeExit | WatchStoreFatal | WatchCancel | WatchStop

  datatype StatStep = Print | StatTick | StatStop

  datatype MainStep = Seed(work: WorkItem) | StartThreads | Return

  datatype Step =
    | Env(env: EnvStep)
    | Pub(source: Source, pub: PubStep)
    | Device(i: nat, dev: DevStep)
    | Submit(sub: SubStep)
    | Expiry(exp: ExpStep)
    | Watch(wat: WatchStep)
    | Stats(stat: StatStep)
    | Main(ms: MainStep)

  // The environment.  The callback runs one notification at a time.
  predicate EnvEnabled(s: State, e: EnvStep) {
    match e
    case ParentCancels => true
    case NodeExits => true
    case ExpiryTicks => true
    case StatsTicks => true
    case Notified(_) => !s.conf.benchmark && s.feed.callback.handing.None?
  }

  function EnvApply(s: State, e: EnvStep): State {
    match e
    case ParentCancels => s.(run := s.run.(parentDone := true))
    case NodeExits => s.(run := s.run.(nodeExited := true))
    case ExpiryTicks => s.(expiry := s.expiry.(tick := true))
    case StatsTicks => s.(stats := s.stats.(tick := true))
    case Notified(work) => s.(feed := Issued(s.feed, Callback, work, s.conf.benchmark))
  }

  // onSoloWork: the item becomes the current work, then goes to the devices in
  // order.  Benchmark mode's item is handed out without becoming current.
  function Issued(f: Feed, p: Source, work: WorkItem, benchmark: bool): Feed {
    var q := PublisherOf(f, p);
    var item := Item(p, q.issued, work);
    var g := WithPublisher(f, p, Publisher(q.issued + 1, Some(Handing(0, work))));
    if benchmark then g else g.(current := Some(item), published := f.published + [item])
  }

  // SetWork: a send that gives way to the source's context.
  predicate PubEnabled(s: State, p: Source, ps: PubStep) {
    var q := PublisherOf(s.feed, p);
    && q.handing.Some? && q.issued > 0
    && match ps
       case Hand => q.handing.value.next < |s.devices| && |s.devices[q.handing.value.next].queue| < QUEUE_SIZE
       case Drop => q.handing.value.next < |s.devices| && SourceDone(s, p)
       case Finish => q.handing.value.next >= |s.devices|
  }

  function NextHanding(q: Publisher): Publisher
    requires q.handing.Some?
  {
    q.(handing := Some(Handing(q.handing.value.next + 1, q.handing.value.work)))
  }

  function PubApply(s: State, p: Source, ps: PubStep): State
    requires PubEnabled(s, p, ps)
  {
    var q := PublisherOf(s.feed, p);
    match ps
    case Hand =>
      var i := q.handing.value.next;
      var d := s.devices[i];
      s.(devices := s.devices[i := d.(queue := d.queue + [Item(p, q.issued - 1, q.handing.value.work)])],
         feed := WithPublisher(s.feed, p, NextHanding(q)))
    case Drop => s.(feed := WithPublisher(s.feed, p, NextHanding(q)))
    case Finish =>
      // The source's thread goes on: NewMiner or Run, or the expiry thread.
      s.(feed := WithPublisher(s.feed, p, q.(handing := None)),
         run := if p.Seeder? then s.run.(main := if s.conf.benchmark then Joining else Seeded) else s.run,
         expiry := if p.Poller? then s.expiry.(pc := Ticking) else s.expiry)
  }

  // The launch a device makes next: on the work it took up last, with its nonces
  // rolled once more, at whatever time it is.
  predicate IsNextLaunch(conf: Config, i: nat, d: Dev, l: Launch) {
    && i < |conf.seeds| && d.consumed != [] && l.work == d.consumed[|d.consumed| - 1].work
    && var seed := conf.seeds[i];
       && l.extraNonce == seed.random1
       && l.extraNonce2 == RolledTimes(InitialNonce2(seed.index, conf.offset1, seed.random2), |d.launches| + 1)
       && l.deviceByte == DeviceByte(seed.index, conf.offset2)
  }

  // The device loop.
  predicate DevEnabled(s: State, i: nat, ds: DevStep) {
    && s.run.started && i < |s.devices|
    && var d := s.devices[i];
       match ds
       case Receive => d.pc.Receiving? && d.queue != []
       case Skip => d.pc.Receiving? && d.queue == [] && d.consumed != []
       case GiveUp => d.pc.Receiving? && d.consumed == [] && RunDone(s)
       case Check => d.pc.Checking?
       case Search(l, found) => d.pc.Launching? && IsNextLaunch(s.conf, i, d, l) && |found| <= MAX_CANDIDATES
       case Fail => d.pc.Launching?
       case Assess => d.pc.Assessing? && d.pc.todo != []
       case Send => d.pc.Sending? && |s.channel.queued| < WORK_DONE_SIZE
       case Rest(_) => d.pc.Assessing? && d.pc.todo == []
       case Wake => d.pc.Idling?
       case Leave => d.pc.Idling? && RunDone(s)
  }

  // foundCandidate up to its send.
  function Assessed(d: Dev, benchmark: bool): Dev
    requires d.pc.Assessing? && d.pc.todo != []
  {
    var rest := d.pc.todo[1..];
    var e := d.(pc := Assessing(rest), assessed := d.assessed + 1);
    match d.pc.todo[0].verdict
    case Mismatch => e.(hashMismatches := d.hashMismatches + 1)
    case AbovePowLimit => e.(powErrors := d.powErrors + 1)
    case AboveTarget =>
      if benchmark then e.(allDiffOneShares := d.allDiffOneShares + 1)
      else e.(allDiffOneShares := d.allDiffOneShares + 1, aboveTarget := d.aboveTarget + 1)
    case BelowTarget =>
      if benchmark then e.(allDiffOneShares := d.allDiffOneShares + 1)
      else e.(allDiffOneShares := d.allDiffOneShares + 1, pc := Sending(d.pc.todo[0].header, rest))
  }

  // What a device step other than a send does to the device.
  function DevAfter(s: State, i: nat, ds: DevStep): Dev
    requires DevEnabled(s, i, ds) && !ds.Send?
  {
    var d := s.devices[i];
    match ds
    case Receive => d.(pc := Checking, queue := d.queue[1..], consumed := d.consumed + [d.queue[0]])
    case Skip => d.(pc := Checking)
    case GiveUp => d.(pc := Checking)
    case Check => d.(pc := if RunDone(s) then Gone else Launching)
    case Search(l, found) =>
      d.(pc := Assessing(found),
         launches := d.launches + [l],
         lateLaunches := d.lateLaunches + if RunDone(s) then 1 else 0)
    case Fail => d.(pc := Gone)
    case Assess => Assessed(d, s.conf.benchmark)
    case Rest(idle) => d.(pc := if idle then Idling else Receiving)
    case Wake => d.(pc := Receiving)
    case Leave => d.(pc := Gone)
  }

  function DevApply(s: State, i: nat, ds: DevStep): State
    requires DevEnabled(s, i, ds)
  {
    if ds.Send? then
      var d := s.devices[i];
      var share := Share(i, d.sent, d.pc.header);
      s.(devices := s.devices[i := d.(pc := Assessing(d.pc.rest), sent := d.sent + 1)],
         channel := Channel(s.channel.queued + [share], s.channel.log + [share]))
    else s.(devices := s.devices[i := DevAfter(s, i, ds)])
  }

  // coinbasePays: whether some output of the first transaction pays the script.
  // strings.EqualFold, for the lower-case hex the script is.
  function Lower(c: char): char {
    if 'A' <= c <= 'Z' then (c as int - 'A' as int + 'a' as int) as char else c
  }

  predicate EqualFold(a: string, b: string) {
    |a| == |b| && forall i :: 0 <= i < |a| ==> Lower(a[i]) == Lower(b[i])
  }

  predicate CoinbasePays(b: Block, script: string) {
    script != "" && b.rawTx != [] && exists k :: 0 <= k < |b.rawTx[0]| && EqualFold(b.rawTx[0][k], script)
  }

  // workSubmitThread and checkPayee.
  predicate SubEnabled(s: State, st: SubStep) {
    && s.run.started
    && match st
       case Take => s.submit.pc.Waiting? && s.channel.queued != []
       case Stop => s.submit.pc.Waiting? && RunDone(s)
       case Answer(_) => s.submit.pc.Submitting?
       case ReadBack(_) => s.submit.pc.Verifying?
       case StoreFatal => s.submit.pc.SubmitFatal?
       case Cancel => s.submit.pc.SubmitCancelling?
  }

  function SubApply(s: State, st: SubStep): State
    requires SubEnabled(s, st)
  {
    var u := s.submit;
    match st
    case Take =>
      s.(submit := u.(pc := Submitting(s.channel.queued[0])),
         channel := s.channel.(queued := s.channel.queued[1..]))
    case Stop => s.(submit := u.(pc := SubmitGone))
    case Answer(ok) =>
      var answered := u.answered + [u.pc.share];
      s.(submit := if ok then u.(pc := Verifying, answered := answered, valid := u.valid + 1)
                   else u.(pc := Waiting, answered := answered, invalid := u.invalid + 1))
    case ReadBack(block) =>
      s.(submit := if u.payeeChecked || s.conf.payoutScript == "" || block.None? then u.(pc := Waiting)
                   else if CoinbasePays(block.value, s.conf.payoutScript) then u.(pc := Waiting, payeeChecked := true)
                   else u.(pc := SubmitFatal))
    case StoreFatal => s.(submit := u.(pc := SubmitCancelling), run := s.run.(fatal := true))
    case Cancel => s.(submit := u.(pc := SubmitGone), run := s.run.(cancelled := true))
  }

  // expiryThread.
  predicate ExpEnabled(s: State, st: ExpStep) {
    && s.run.started
    && match st
       case TickFresh => s.expiry.pc.Ticking? && s.expiry.tick
       case TickStale => s.expiry.pc.Ticking? && s.expiry.tick && s.feed.current.Some?
       case PollFails => s.expiry.pc.Polling?
       case PollAnswers(_) => s.expiry.pc.Polling?
       case ExpStoreFatal => s.expiry.pc.ExpiryFatal?
       case ExpCancel => s.expiry.pc.ExpiryCancelling?
       case ExpStop => s.expiry.pc.Ticking? && RunDone(s)
  }

  function ExpApply(s: State, st: ExpStep): State
    requires ExpEnabled(s, st)
  {
    var x := s.expiry;
    match st
    case TickFresh => s.(expiry := x.(tick := false))
    case TickStale => s.(expiry := x.(tick := false, pc := Polling))
    case PollFails =>
      s.(expiry := if RunDone(s) then x.(pc := ExpiryGone)
                   else x.(failures := x.failures + 1, polls := x.polls + [false],
                           pc := if x.failures + 1 >= MAX_FAILURES then ExpiryFatal else Ticking))
    case PollAnswers(work) =>
      s.(expiry := x.(failures := 0, polls := x.polls + [true], pc := if work.Some? then Publishing else Ticking),
         feed := if work.Some? then Issued(s.feed, Poller, work.value, s.conf.benchmark) else s.feed)
    case ExpStoreFatal => s.(expiry := x.(pc := ExpiryCancelling), run := s.run.(fatal := true))
    case ExpCancel => s.(expiry := x.(pc := Ticking), run := s.run.(cancelled := true))
    case ExpStop => s.(expiry := x.(pc := ExpiryGone))
  }

  // nodeWatchThread.
  predicate WatchEnabled(s: State, st: WatchStep) {
    && s.run.started
    && match st
       case SeeExit => s.watch.Watching? && s.run.nodeExited
       case WatchStoreFatal => s.watch.WatchFatal?
       case WatchCancel => s.watch.WatchCancelling?
       case WatchStop => s.watch.Watching? && RunDone(s)
  }

  function WatchApply(s: State, st: WatchStep): State
    requires WatchEnabled(s, st)
  {
    match st
    case SeeExit => s.(watch := WatchFatal)
    case WatchStoreFatal => s.(watch := WatchCancelling, run := s.run.(fatal := true))
    case WatchCancel => s.(watch := WatchGone, run := s.run.(cancelled := true))
    case WatchStop => s.(watch := WatchGone)
  }

  // printStatsThread: a device's rate is read under the device lock.
  predicate StatEnabled(s: State, st: StatStep) {
    && s.run.started
    && match st
       case Print =>
         && s.stats.pc.Printing?
         && (s.stats.pc.next < |s.devices| ==> !s.devices[s.stats.pc.next].pc.Sending?)
       case StatTick => s.stats.pc.Resting? && s.stats.tick
       case StatStop => s.stats.pc.Resting? && RunDone(s)
  }

  function StatApply(s: State, st: StatStep): State
    requires StatEnabled(s, st)
  {
    match st
    case Print =>
      var next := s.stats.pc.next;
      s.(stats := s.stats.(pc := if next < |s.devices| then Printing(next + 1) else Resting))
    case StatTick => s.(stats := Printer(Printing(0), false))
    case StatStop => s.(stats := s.stats.(pc := StatsGone))
  }

  // Every thread Run waits for has finished.
  predicate AllGone(s: State) {
    && (forall i :: 0 <= i < |s.devices| ==> s.devices[i].pc.Gone?)
    && s.submit.pc.SubmitGone? && s.expiry.pc.ExpiryGone? && s.watch.WatchGone? && s.stats.pc.StatsGone?
  }

  // NewMiner's first work item, and Run.  In benchmark mode Run hands out the
  // item itself, after it has started the threads.
  predicate MainEnabled(s: State, st: MainStep) {
    match st
    case Seed(_) => s.run.main == if s.conf.benchmark then Ready else Beginning
    case StartThreads => s.run.main == if s.conf.benchmark then Beginning else Seeded
    case Return => s.run.main.Joining? && AllGone(s)
  }

  function MainApply(s: State, st: MainStep): State
    requires MainEnabled(s, st)
  {
    match st
    case Seed(work) => s.(feed := Issued(s.feed, Seeder, work, s.conf.benchmark), run := s.run.(main := Seeding))
    case StartThreads => s.(run := s.run.(started := true, main := if s.conf.benchmark then Ready else Joining))
    case Return => s.(run := s.run.(main := Returned(s.run.fatal)))
  }

  predicate Enabled(s: State, st: Step) {
    match st
    case Env(e) => EnvEnabled(s, e)
    case Pub(p, ps) => PubEnabled(s, p, ps)
    case Device(i, ds) => DevEnabled(s, i, ds)
    case Submit(ss) => SubEnabled(s, ss)
    case Expiry(es) => ExpEnabled(s, es)
    case Watch(ws) => WatchEnabled(s, ws)
    case Stats(ts) => StatEnabled(s, ts)
    case Main(ms) => MainEnabled(s, ms)
  }

  function Apply(s: State, st: Step): State
    requires Enabled(s, st)
  {
    hide EnvEnabled, PubEnabled, DevEnabled, SubEnabled, ExpEnabled, WatchEnabled, StatEnabled, MainEnabled;
    match st
    case Env(e) => EnvApply(s, e)
    case Pub(p, ps) => PubApply(s, p, ps)
    case Device(i, ds) => DevApply(s, i, ds)
    case Submit(ss) => SubApply(s, ss)
    case Expiry(es) => ExpApply(s, es)
    case Watch(ws) => WatchApply(s, ws)
    case Stats(ts) => StatApply(s, ts)
    case Main(ms) => MainApply(s, ms)
  }

  // A finite run: the states passed through and the steps between them.
  predicate IsRun(states: seq<State>, steps: seq<Step>) {
    && |states| == |steps| + 1
    && forall k :: 0 <= k < |steps| ==> Enabled(states[k], steps[k]) && states[k + 1] == Apply(states[k], steps[k])
  }

  predicate IsRunFromStart(states: seq<State>, steps: seq<Step>) {
    IsRun(states, steps) && Init(states[0])
  }

  // Only sources and devices touch a device, and only those two and the submit
  // thread touch the channel and its counts.
  lemma OthersLeaveDevices(s: State, st: Step)
    requires Enabled(s, st) && !st.Pub? && !st.Device?
    ensures Apply(s, st).conf == s.conf && Apply(s, st).devices == s.devices
    ensures !st.Submit? ==> Apply(s, st).submit == s.submit && Apply(s, st).channel == s.channel
  {
    hide EnvEnabled, SubEnabled, ExpEnabled, WatchEnabled, StatEnabled, MainEnabled;
  }

  // A source hands out an item exactly while its thread is at it, and the
  // threads run from the moment Run has started them.
  predicate ControlInv(s: State) {
    && (s.feed.poller.handing.Some? <==> s.expiry.pc.Publishing?)
    && (s.feed.seeder.handing.Some? <==> s.run.main.Seeding?)
    && IssuedBeforeHanding(s.feed)
    && (s.run.started <==> s.run.main.Joining? || s.run.main.Returned? || (s.conf.benchmark && !s.run.main.Beginning?))
    && (s.conf.benchmark ==> !s.run.main.Seeded?)
    && (!s.conf.benchmark ==> !s.run.main.Ready?)
    && (s.run.cancelled ==> s.run.started)
    && (!s.run.started ==> s.submit.pc.Waiting? && (s.expiry.pc.Ticking? || s.expiry.pc.ExpiryGone?)
                           && (s.watch.Watching? || s.watch.WatchGone?))
  }

  predicate IssuedBeforeHanding(f: Feed) {
    && (f.callback.handing.Some? ==> f.callback.issued > 0)
    && (f.seeder.handing.Some? ==> f.seeder.issued > 0)
    && (f.poller.handing.Some? ==> f.poller.issued > 0)
  }

  lemma ControlInvKept(s: State, st: Step)
    requires ControlInv(s) && Enabled(s, st)
    ensures ControlInv(Apply(s, st))
  {
    hide EnvEnabled, PubEnabled, DevEnabled, SubEnabled, ExpEnabled, WatchEnabled, StatEnabled, MainEnabled,
         EnvApply, PubApply, DevApply, SubApply, ExpApply, WatchApply, StatApply, MainApply, ControlInv;
    match st
    case Env(e) => ControlEnv(s, e);
    case Pub(p, ps) => ControlPub(s, p, ps);
    case Device(i, ds) => ControlDevice(s, i, ds);
    case Submit(ss) => ControlSubmit(s, ss);
    case Expiry(es) => ControlExpiry(s, es);
    case Watch(ws) => ControlWatch(s, ws);
    case Stats(ts) => ControlStats(s, ts);
    case Main(ms) => ControlMain(s, ms);
  }

  lemma ControlEnv(s: State, e: EnvStep)
    requires ControlInv(s) && EnvEnabled(s, e)
    ensures ControlInv(EnvApply(s, e))
  {
  }

  lemma ControlPub(s: State, p: Source, ps: PubStep)
    requires ControlInv(s) && PubEnabled(s, p, ps)
    ensures ControlInv(PubApply(s, p, ps))
  {
  }

  lemma ControlDevice(s: State, i: nat, ds: DevStep)
    requires ControlInv(s) && DevEnabled(s, i, ds)
    ensures ControlInv(DevApply(s, i, ds))
  {
  }

  lemma ControlSubmit(s: State, st: SubStep)
    requires ControlInv(s) && SubEnabled(s, st)
    ensures ControlInv(SubApply(s, st))
  {
  }

  lemma ControlExpiry(s: State, st: ExpStep)
    requires ControlInv(s) && ExpEnabled(s, st)
    ensures ControlInv(ExpApply(s, st))
  {
  }

  lemma ControlWatch(s: State, st: WatchStep)
    requires ControlInv(s) && WatchEnabled(s, st)
    ensures ControlInv(WatchApply(s, st))
  {
  }

  lemma ControlStats(s: State, st: StatStep)
    requires ControlInv(s) && StatEnabled(s, st)
    ensures ControlInv(StatApply(s, st))
  {
  }

  lemma ControlMain(s: State, st: MainStep)
    requires ControlInv(s) && MainEnabled(s, st)
    ensures ControlInv(MainApply(s, st))
  {
  }

  lemma {:induction false} ControlInvHolds(states: seq<State>, steps: seq<Step>, k: nat)
    requires IsRunFromStart(states, steps) && k < |states|
    ensures ControlInv(states[k])
  {
    hide Enabled, Apply;
    if k > 0 {
      ControlInvHolds(states, steps, k - 1);
      ControlInvKept(states[k - 1], steps[k - 1]);
    }
  }
}

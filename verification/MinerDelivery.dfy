// Work delivery (miner.go, onSoloWork; device.go, SetWork and
// updateCurrentWork): which of a source's items a device has been given, in
// which order, and how far apart two devices can be.
module MinerDelivery {
  import opened Options
  import opened Header
  import opened MinerState
  import opened MinerFatal
  import MinerShares

  // Everything a device has been given: what it took up, then what it queues.
  function Got(d: Dev): seq<Item> {
    d.consumed + d.queue
  }

  // The numbers of one source's items, in order.
  function NumbersFrom(items: seq<Item>, p: Source): seq<nat> {
    if items == [] then []
    else
      var last := items[|items| - 1];
      NumbersFrom(items[..|items| - 1], p) + if last.source == p then [last.number] else []
  }

  lemma OneMoreItem(items: seq<Item>, last: Item, p: Source)
    ensures NumbersFrom(items + [last], p) == NumbersFrom(items, p) + if last.source == p then [last.number] else []
  {
    assert (items + [last])[..|items|] == items;
  }

  // How many of its items a source has offered the i-th device.
  function Offered(q: Publisher, i: nat): nat {
    if q.handing.Some? && q.handing.value.next <= i && q.issued > 0 then q.issued - 1 else q.issued
  }

  predicate IncreasingBelow(ns: seq<nat>, k: nat) {
    && (forall a :: 0 <= a < |ns| ==> ns[a] < k)
    && forall a, b :: 0 <= a < b < |ns| ==> ns[a] < ns[b]
  }

  // Numbers that are in order, and complete unless the source is done.
  predicate InOrder(ns: seq<nat>, k: nat, done: bool) {
    IncreasingBelow(ns, k) && (!done ==> ns == MinerShares.Iota(k))
  }

  // The device has the source's items in order, and every one it was offered
  // while the source could not give up on a full queue.
  predicate Delivered(s: State, p: Source, i: nat)
    requires i < |s.devices|
  {
    InOrder(NumbersFrom(Got(s.devices[i]), p), Offered(PublisherOf(s.feed, p), i), SourceDone(s, p))
  }

  predicate AllDelivered(s: State) {
    forall p, i :: 0 <= i < |s.devices| ==> Delivered(s, p, i)
  }

  // Outside benchmark mode what is being handed out has been the current work.
  predicate HandedPublished(f: Feed, benchmark: bool) {
    !benchmark ==> forall p :: PublisherOf(f, p).handing.Some? && PublisherOf(f, p).issued > 0 ==>
                     Item(p, PublisherOf(f, p).issued - 1, PublisherOf(f, p).handing.value.work) in f.published
  }

  // A device's queue is bounded, it hashes only once it has work, and outside
  // benchmark mode it holds nothing that has not been the current work.
  predicate Fed(s: State, i: nat)
    requires i < |s.devices|
  {
    var d := s.devices[i];
    && |d.queue| <= QUEUE_SIZE
    && (d.consumed == [] ==> d.pc.Receiving? || d.pc.Gone? || (d.pc.Checking? && RunDone(s)))
    && (!s.conf.benchmark ==> forall n :: 0 <= n < |Got(d)| ==> Got(d)[n] in s.feed.published)
  }

  predicate DeliveryInv(s: State) {
    && AllDelivered(s)
    && HandedPublished(s.feed, s.conf.benchmark)
    && forall i :: 0 <= i < |s.devices| ==> Fed(s, i)
  }

  lemma DeliveryInvKept(s: State, st: Step)
    requires DeliveryInv(s) && ControlInv(s) && Enabled(s, st)
    ensures DeliveryInv(Apply(s, st))
  {
    hide EnvEnabled, PubEnabled, DevEnabled, SubEnabled, ExpEnabled, WatchEnabled, StatEnabled, MainEnabled,
         EnvApply, PubApply, DevApply, SubApply, ExpApply, WatchApply, StatApply, MainApply, DeliveryInv;
    match st
    case Pub(p, ps) => DeliveryPub(s, p, ps);
    case Device(i, ds) => DeliveryDevice(s, i, ds);
    case _ => DeliveryOthers(s, st);
  }

  // A step that issues an item offers it to nobody yet.
  lemma IssuingOffersNothing(f: Feed, p: Source, work: WorkItem, benchmark: bool)
    requires PublisherOf(f, p).handing.None? && HandedPublished(f, benchmark)
    ensures var g := Issued(f, p, work, benchmark);
            && (forall o, i :: Offered(PublisherOf(g, o), i) == Offered(PublisherOf(f, o), i))
            && f.published <= g.published
            && HandedPublished(g, benchmark)
  {
    if !benchmark {
      var g := Issued(f, p, work, benchmark);
      assert g.published[|f.published|] == Item(p, PublisherOf(f, p).issued, work);
      forall o | PublisherOf(g, o).handing.Some? && PublisherOf(g, o).issued > 0
        ensures Item(o, PublisherOf(g, o).issued - 1, PublisherOf(g, o).handing.value.work) in g.published
      {
        if o != p {
          assert Item(o, PublisherOf(f, o).issued - 1, PublisherOf(f, o).handing.value.work) in f.published;
        }
      }
    }
  }

  // The steps that issue an item, and what they leave alone.
  lemma OthersOnlyIssue(s: State, st: Step)
    requires ControlInv(s) && Enabled(s, st) && !st.Pub? && !st.Device?
    ensures var f := Apply(s, st).feed;
            || f == s.feed
            || exists p, work :: PublisherOf(s.feed, p).handing.None? && f == Issued(s.feed, p, work, s.conf.benchmark)
  {
    hide EnvApply, ExpApply, MainApply, Issued;
    match st
    case Env(e) => EnvOnlyIssues(s, e);
    case Expiry(x) => ExpiryOnlyIssues(s, x);
    case Main(m) => MainOnlyIssues(s, m);
    case _ =>
  }

  lemma EnvOnlyIssues(s: State, e: EnvStep)
    requires EnvEnabled(s, e)
    ensures var f := EnvApply(s, e).feed;
            if e.Notified? then
              PublisherOf(s.feed, Callback).handing.None? && f == Issued(s.feed, Callback, e.work, s.conf.benchmark)
            else f == s.feed
  {
    hide Issued;
  }

  lemma ExpiryOnlyIssues(s: State, x: ExpStep)
    requires ControlInv(s) && ExpEnabled(s, x)
    ensures var f := ExpApply(s, x).feed;
            if x.PollAnswers? && x.work.Some? then
              PublisherOf(s.feed, Poller).handing.None? && f == Issued(s.feed, Poller, x.work.value, s.conf.benchmark)
            else f == s.feed
  {
    hide Issued;
  }

  lemma MainOnlyIssues(s: State, m: MainStep)
    requires ControlInv(s) && MainEnabled(s, m)
    ensures var f := MainApply(s, m).feed;
            if m.Seed? then
              PublisherOf(s.feed, Seeder).handing.None? && f == Issued(s.feed, Seeder, m.work, s.conf.benchmark)
            else f == s.feed
  {
    hide Issued;
  }

  lemma DeliveryOthers(s: State, st: Step)
    requires DeliveryInv(s) && ControlInv(s) && Enabled(s, st) && !st.Pub? && !st.Device?
    ensures DeliveryInv(Apply(s, st))
  {
    var r := Apply(s, st);
    FlagsStick(s, st);
    OthersLeaveDevices(s, st);
    OthersOnlyIssue(s, st);
    hide Enabled, Apply, Issued;
    if r.feed != s.feed {
      var p, work :| PublisherOf(s.feed, p).handing.None? && r.feed == Issued(s.feed, p, work, s.conf.benchmark);
      IssuingOffersNothing(s.feed, p, work, s.conf.benchmark);
    }
    SameItems(s, r);
  }

  // A step that moves no item from source to device, or from device to device,
  // and issues none without publishing it.
  lemma SameItems(s: State, r: State)
    requires DeliveryInv(s) && s.conf == r.conf && |s.devices| == |r.devices|
    requires forall i :: 0 <= i < |s.devices| ==> Got(r.devices[i]) == Got(s.devices[i])
    requires forall i :: 0 <= i < |s.devices| ==> |r.devices[i].queue| <= |s.devices[i].queue|
    requires forall i :: 0 <= i < |s.devices| && r.devices[i].consumed == [] ==>
                           (r.devices[i].pc == s.devices[i].pc && s.devices[i].consumed == [])
                           || (r.devices[i].pc.Checking? && RunDone(r)) || r.devices[i].pc.Gone?
    requires RunDone(s) ==> RunDone(r)
    requires s.run.parentDone ==> r.run.parentDone
    requires forall p, i :: Offered(PublisherOf(r.feed, p), i) == Offered(PublisherOf(s.feed, p), i)
    requires s.feed.published <= r.feed.published
    requires HandedPublished(r.feed, r.conf.benchmark)
    ensures DeliveryInv(r)
  {
    hide NumbersFrom, Got, Offered, IncreasingBelow, RunDone;
    forall p, i | 0 <= i < |r.devices|
      ensures Delivered(r, p, i)
    {
      assert Delivered(s, p, i);
    }
    forall i | 0 <= i < |r.devices|
      ensures Fed(r, i)
    {
      assert Fed(s, i);
    }
  }

  lemma DeliveryDevice(s: State, i: nat, ds: DevStep)
    requires DeliveryInv(s) && ControlInv(s) && DevEnabled(s, i, ds)
    ensures DeliveryInv(DevApply(s, i, ds))
  {
    var r := DevApply(s, i, ds);
    assert Fed(s, i);
    DeviceKeepsItems(s, i, ds);
    hide DevEnabled, DevApply, DeliveryInv;
    SameItems(s, r);
  }

  lemma DeviceKeepsItems(s: State, i: nat, ds: DevStep)
    requires DevEnabled(s, i, ds)
    ensures var d := s.devices[i];
            var r := DevApply(s, i, ds);
            var e := r.devices[i];
            && r.conf == s.conf && r.run == s.run && r.feed == s.feed && r.devices == s.devices[i := e]
            && Got(e) == Got(d) && |e.queue| <= |d.queue|
            && (e.consumed == [] ==>
                  && d.consumed == []
                  && ((ds.GiveUp? && e.pc.Checking? && RunDone(s)) || ds.Send? || !d.pc.Receiving?))
  {
  }

  lemma DeliveryPub(s: State, p: Source, ps: PubStep)
    requires DeliveryInv(s) && ControlInv(s) && PubEnabled(s, p, ps)
    ensures DeliveryInv(PubApply(s, p, ps))
  {
    var r := PubApply(s, p, ps);
    assert |r.devices| == |s.devices|;
    forall i | 0 <= i < |r.devices|
      ensures Fed(r, i)
    {
      assert Fed(s, i);
      HandedIsPublished(s, p, ps, i);
    }
    forall o, i | 0 <= i < |r.devices|
      ensures Delivered(r, o, i)
    {
      assert Delivered(s, o, i);
      PubDelivers(s, p, ps, o, i);
    }
  }

  // Handing on or giving up moves only the device the source is at.
  lemma PubOffers(s: State, p: Source, ps: PubStep, o: Source, i: nat)
    requires ControlInv(s) && PubEnabled(s, p, ps) && i < |s.devices|
    ensures var r := PubApply(s, p, ps);
            var q := PublisherOf(s.feed, p);
            var before, after := Offered(PublisherOf(s.feed, o), i), Offered(PublisherOf(r.feed, o), i);
            && q.handing.Some? && q.issued > 0
            && |r.devices| == |s.devices| && (SourceDone(r, o) <==> SourceDone(s, o))
            && (!ps.Finish? && i == q.handing.value.next && o == p ==> before == q.issued - 1 && after == q.issued)
            && (ps.Finish? || i != q.handing.value.next || o != p ==> after == before)
            && (ps.Drop? ==> SourceDone(s, p))
            && Got(r.devices[i]) == if ps.Hand? && i == q.handing.value.next
                                    then Got(s.devices[i]) + [Item(p, q.issued - 1, q.handing.value.work)]
                                    else Got(s.devices[i])
  {
  }

  // One more item, or one more given up once its source is done.
  lemma NextInOrder(got: seq<Item>, item: Item, o: Source, k: nat, done: bool)
    requires InOrder(NumbersFrom(got, o), k, done) && (o == item.source ==> item.number == k)
    ensures done ==> InOrder(NumbersFrom(got, o), k + 1, done)
    ensures InOrder(NumbersFrom(got + [item], o), if o == item.source then k + 1 else k, done)
  {
    hide NumbersFrom;
    OneMoreItem(got, item, o);
  }

  lemma DeliveredIs(s: State, p: Source, i: nat)
    requires i < |s.devices|
    ensures Delivered(s, p, i) <==>
            InOrder(NumbersFrom(Got(s.devices[i]), p), Offered(PublisherOf(s.feed, p), i), SourceDone(s, p))
  {
  }

  lemma PubDelivers(s: State, p: Source, ps: PubStep, o: Source, i: nat)
    requires ControlInv(s) && PubEnabled(s, p, ps) && i < |s.devices| && Delivered(s, o, i)
    ensures i < |PubApply(s, p, ps).devices| && Delivered(PubApply(s, p, ps), o, i)
  {
    hide *;
    PubOffers(s, p, ps, o, i);
    var r, q := PubApply(s, p, ps), PublisherOf(s.feed, p);
    DeliveredIs(s, o, i);
    DeliveredIs(r, o, i);
    if !ps.Finish? && i == q.handing.value.next {
      var item := Item(p, q.issued - 1, q.handing.value.work);
      NextInOrder(Got(s.devices[i]), item, o, Offered(PublisherOf(s.feed, o), i), SourceDone(s, o));
    }
  }

  lemma HandedIsPublished(s: State, p: Source, ps: PubStep, i: nat)
    requires HandedPublished(s.feed, s.conf.benchmark) && PubEnabled(s, p, ps) && i < |s.devices| && Fed(s, i)
    ensures Fed(PubApply(s, p, ps), i)
  {
    var r := PubApply(s, p, ps);
    var q := PublisherOf(s.feed, p);
    if ps.Hand? && i == q.handing.value.next {
      var item := Item(p, q.issued - 1, q.handing.value.work);
      assert Got(r.devices[i]) == Got(s.devices[i]) + [item];
    }
  }

  lemma {:induction false} DeliveryInvHolds(states: seq<State>, steps: seq<Step>, k: nat)
    requires IsRunFromStart(states, steps) && k < |states|
    ensures DeliveryInv(states[k])
  {
    if k == 0 {
      StartDelivered(states[0]);
    } else {
      hide Enabled, Apply;
      DeliveryInvHolds(states, steps, k - 1);
      ControlInvHolds(states, steps, k - 1);
      DeliveryInvKept(states[k - 1], steps[k - 1]);
    }
  }

  lemma StartDelivered(s: State)
    requires Init(s)
    ensures DeliveryInv(s)
  {
    forall p
      ensures PublisherOf(s.feed, p) == Publisher(0, None)
    {
    }
  }

  // Which context a source waits with: the callback and NewMiner with the caller's,
  // the expiry thread and benchmark mode's hand-out with the run's.
  lemma GivesUpWith(s: State, p: Source)
    ensures SourceDone(s, p) <==>
            s.run.parentDone || (s.run.cancelled && (p.Poller? || (p.Seeder? && s.conf.benchmark)))
  {
  }

  // On every reachable state: queues never pass five items; while a source can
  // still be waited for, each device has had exactly the first so many of its
  // items, in order, and of two devices the earlier-listed one is ahead by at
  // most one; afterwards it still has some of them, in order.  Outside benchmark
  // mode everything a device has taken up was once the current work.
  lemma WorkDelivered(states: seq<State>, steps: seq<Step>, k: nat, p: Source, i: nat, j: nat)
    requires IsRunFromStart(states, steps) && k < |states| && i <= j < |states[k].devices|
    ensures var s := states[k];
            var issued := PublisherOf(s.feed, p).issued;
            var early, late := NumbersFrom(Got(s.devices[i]), p), NumbersFrom(Got(s.devices[j]), p);
            && |s.devices[i].queue| <= 5
            && IncreasingBelow(early, issued)
            && (!SourceDone(s, p) ==>
                  && early == MinerShares.Iota(|early|) && late == MinerShares.Iota(|late|)
                  && |late| <= |early| <= |late| + 1 && issued - 1 <= |late| && |early| <= issued)
            && (!s.conf.benchmark ==> forall item :: item in s.devices[i].consumed ==> item in s.feed.published)
  {
    hide IsRunFromStart, NumbersFrom;
    DeliveryInvHolds(states, steps, k);
    var s := states[k];
    assert Delivered(s, p, i) && Delivered(s, p, j) && Fed(s, i);
    forall item | item in s.devices[i].consumed
      ensures item in Got(s.devices[i])
    {
    }
  }

  // No device gets to a launch before it has taken up some work.
  lemma NoLaunchWithoutWork(states: seq<State>, steps: seq<Step>, k: nat, i: nat)
    requires IsRunFromStart(states, steps) && k < |states| && i < |states[k].devices|
    ensures states[k].devices[i].pc.Launching? ==> states[k].devices[i].consumed != []
  {
    hide IsRunFromStart;
    DeliveryInvHolds(states, steps, k);
    assert Fed(states[k], i);
  }

  lemma {:induction false} NumbersOfMore(a: seq<Item>, b: seq<Item>, p: Source)
    ensures |NumbersFrom(a + b, p)| <= |NumbersFrom(a, p)| + |b|
  {
    if b == [] {
      assert a + b == a;
    } else {
      var front, last := b[..|b| - 1], b[|b| - 1];
      assert a + b == (a + front) + [last];
      OneMoreItem(a + front, last, p);
      NumbersOfMore(a, front, p);
    }
  }

  // A device that has ended takes up nothing more.
  lemma GoneTakesNothing(s: State, st: Step, i: nat)
    requires Enabled(s, st) && i < |s.devices| && s.devices[i].pc.Gone?
    ensures var r := Apply(s, st);
            && i < |r.devices| && r.devices[i].pc.Gone? && r.devices[i].consumed == s.devices[i].consumed
  {
    hide EnvEnabled, EnvApply, SubEnabled, SubApply, ExpEnabled, ExpApply, WatchEnabled, WatchApply,
         StatEnabled, StatApply, MainEnabled, MainApply, IsNextLaunch;
    if !st.Pub? && !st.Device? {
      OthersLeaveDevices(s, st);
    }
  }

  lemma {:induction false} GoneForGood(states: seq<State>, steps: seq<Step>, j: nat, k: nat, i: nat)
    requires IsRun(states, steps) && j <= k < |states| && i < |states[j].devices| && states[j].devices[i].pc.Gone?
    ensures i < |states[k].devices| && states[k].devices[i].pc.Gone?
    ensures states[k].devices[i].consumed == states[j].devices[i].consumed
    decreases k
  {
    hide Enabled, Apply;
    if j < k {
      GoneForGood(states, steps, j, k - 1, i);
      GoneTakesNothing(states[k - 1], steps[k - 1], i);
    }
  }

  // One failed device stalls the rest: while a source cannot give up, no
  // later-listed device ever gets more of its items than the failed one had taken
  // up and its queue holds, and the source itself issues at most one item more.
  lemma DeadDeviceStallsTheRest(states: seq<State>, steps: seq<Step>, j: nat, k: nat, p: Source, i: nat, m: nat)
    requires IsRunFromStart(states, steps) && j <= k < |states| && i <= m < |states[k].devices|
    requires i < |states[j].devices| && states[j].devices[i].pc.Gone? && !SourceDone(states[k], p)
    ensures |NumbersFrom(Got(states[k].devices[m]), p)| <= |NumbersFrom(states[j].devices[i].consumed, p)| + 5
    ensures PublisherOf(states[k].feed, p).issued <= |NumbersFrom(states[j].devices[i].consumed, p)| + 6
  {
    GoneForGood(states, steps, j, k, i);
    WorkDelivered(states, steps, k, p, i, m);
    WorkDelivered(states, steps, k, p, i, i);
    var d := states[k].devices[i];
    NumbersOfMore(d.consumed, d.queue, p);
    hide NumbersFrom, IsRunFromStart;
  }

  // The current work is the last to have become it, and outside benchmark mode
  // every item of every source has, in order.
  predicate Published(f: Feed, benchmark: bool) {
    && (f.published == [] <==> f.current.None?)
    && (f.published != [] ==> f.current == Some(f.published[|f.published| - 1]))
    && (forall p :: NumbersFrom(f.published, p) == if benchmark then [] else MinerShares.Iota(PublisherOf(f, p).issued))
  }

  lemma IssuingPublishes(f: Feed, p: Source, work: WorkItem, benchmark: bool)
    requires Published(f, benchmark)
    ensures Published(Issued(f, p, work, benchmark), benchmark)
    ensures !benchmark ==> Issued(f, p, work, benchmark).current.Some?
    ensures !benchmark ==> Issued(f, p, work, benchmark).current.value.work == work
  {
    hide NumbersFrom;
    var g, item := Issued(f, p, work, benchmark), Item(p, PublisherOf(f, p).issued, work);
    if !benchmark {
      forall o
        ensures NumbersFrom(g.published, o) == MinerShares.Iota(PublisherOf(g, o).issued)
      {
        OneMoreItem(f.published, item, o);
      }
    }
  }

  lemma PublishedKept(s: State, st: Step)
    requires Published(s.feed, s.conf.benchmark) && ControlInv(s) && Enabled(s, st)
    ensures Published(Apply(s, st).feed, s.conf.benchmark)
  {
    hide EnvEnabled, EnvApply, DevEnabled, SubEnabled, SubApply, ExpEnabled, ExpApply, WatchEnabled, WatchApply,
         StatEnabled, StatApply, MainEnabled, MainApply, NumbersFrom, Issued;
    if !st.Pub? && !st.Device? {
      OthersOnlyIssue(s, st);
      if Apply(s, st).feed != s.feed {
        var p, work :| PublisherOf(s.feed, p).handing.None? &&
                       Apply(s, st).feed == Issued(s.feed, p, work, s.conf.benchmark);
        IssuingPublishes(s.feed, p, work, s.conf.benchmark);
      }
    }
  }

  lemma {:induction false} PublishedHolds(states: seq<State>, steps: seq<Step>, k: nat)
    requires IsRunFromStart(states, steps) && k < |states|
    ensures Published(states[k].feed, states[k].conf.benchmark)
  {
    if k == 0 {
      forall p
        ensures PublisherOf(states[0].feed, p).issued == 0
      {
      }
    } else {
      hide Enabled, Apply, Published, ControlInv;
      PublishedHolds(states, steps, k - 1);
      ControlInvHolds(states, steps, k - 1);
      FlagsStick(states[k - 1], steps[k - 1]);
      PublishedKept(states[k - 1], steps[k - 1]);
    }
  }

  lemma PollNeedsWork(s: State, st: Step)
    requires Enabled(s, st) && ControlInv(s) && (s.expiry.pc.Polling? ==> s.feed.current.Some?)
    ensures Apply(s, st).expiry.pc.Polling? ==> Apply(s, st).feed.current.Some?
  {
    hide EnvEnabled, SubEnabled, WatchEnabled, StatEnabled, MainEnabled, DevEnabled, DevAfter;
  }

  // The expiry thread polls only for work that has been there.
  lemma {:induction false} NoPollWithoutWork(states: seq<State>, steps: seq<Step>, k: nat)
    requires IsRunFromStart(states, steps) && k < |states|
    ensures states[k].expiry.pc.Polling? ==> states[k].feed.current.Some?
  {
    hide Enabled, Apply, ControlInv;
    if k > 0 {
      NoPollWithoutWork(states, steps, k - 1);
      ControlInvHolds(states, steps, k - 1);
      PollNeedsWork(states[k - 1], steps[k - 1]);
    }
  }

  // Over every run outside benchmark mode: the current work is the last item to
  // have been issued, and all of a source's items have been it, in order; in
  // benchmark mode there is none.
  lemma CurrentIsLatest(states: seq<State>, steps: seq<Step>, k: nat, p: Source)
    requires IsRunFromStart(states, steps) && k < |states|
    ensures var f := states[k].feed;
            && (f.published == [] <==> f.current.None?)
            && (f.published != [] ==> f.current == Some(f.published[|f.published| - 1]))
            && NumbersFrom(f.published, p) ==
               (if states[k].conf.benchmark then [] else MinerShares.Iota(PublisherOf(f, p).issued))
  {
    hide IsRunFromStart, NumbersFrom;
    PublishedHolds(states, steps, k);
  }
}

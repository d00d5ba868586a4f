/** Workers get somewhere: while a request is unsettled some worker can act, and a run holds
    no more worker steps than the requests published in it allow. */
module WorkerProgress {
  import opened Ordering
  import opened Contracts
  import opened Bus
  import opened Locks
  import opened Worker
  import opened WorkerSafety
  import opened WorkerAccounting
  import opened WorkerRuns
  import opened WorkerProcess

  // ---------- Nothing a worker needs is missing ----------

  predicate PcUsable(cfg: Config, w: nat, pc: Pc)
    requires w < |cfg.clusters|
  {
    && (pc.Locking? ==> LockKeyOf(cfg, w, pc.task).Ok?)
    && (pc.Retrying? ==> pc.reason != "")
  }

  ghost predicate Usable(cfg: Config, s: System) {
    && |cfg.clusters| == |s.pcs|
    && (forall e :: e in Log(s.bus, OptimizationRequests) ==> e.key != "")
    && (forall w :: 0 <= w < |s.pcs| ==> PcUsable(cfg, w, s.pcs[w]))
  }

  lemma UsableMove(cfg: Config, s: System, w: nat, o: Outcome)
    requires Usable(cfg, s) && w < |s.pcs| == |s.stats| && PcUsable(cfg, w, o.pc)
    requires Log(o.bus, OptimizationRequests) == Log(s.bus, OptimizationRequests)
    ensures Usable(cfg, Install(s, w, o))
  {
    hide PcUsable;
  }

  lemma AdvanceUsable(cfg: Config, s: System, w: nat, verdict: bool)
    requires Enabled(cfg, s, Advances(w, verdict)) && Usable(cfg, s)
    ensures Usable(cfg, AdvanceStep(cfg, s, w, verdict))
  {
    hide Usable;
    AdvancePcUsable(cfg, s, w, verdict);
    AdvanceRequests(cfg, s, w, verdict);
    hide Advance, CanAdvance, Install, PcUsable;
    UsableWorkers(cfg, s);
    UsableMove(cfg, s, w, Advance(cfg, s, w, verdict));
  }

  lemma UsableWorkers(cfg: Config, s: System)
    requires Usable(cfg, s)
    ensures |cfg.clusters| == |s.pcs|
  {
  }

  lemma AdvancePcUsable(cfg: Config, s: System, w: nat, verdict: bool)
    requires Enabled(cfg, s, Advances(w, verdict))
    ensures PcUsable(cfg, w, Advance(cfg, s, w, verdict).pc)
  {
    hide Post, Retry, Acknowledge, Unlocked, LockKeyOf, Publish, ResultEvent, DeadLetterEvent, Store;
  }

  lemma AdvanceRequests(cfg: Config, s: System, w: nat, verdict: bool)
    requires Enabled(cfg, s, Advances(w, verdict))
    ensures Log(Advance(cfg, s, w, verdict).bus, OptimizationRequests) == Log(s.bus, OptimizationRequests)
  {
    AdvanceBus(cfg, s, w, verdict);
    hide Advance, CanAdvance, PartitionFor;
  }

  lemma ClaimUsable(cfg: Config, s: System, w: nat)
    requires Enabled(cfg, s, Claims(w)) && Custody(s) && Usable(cfg, s)
    ensures Usable(cfg, ClaimStep(cfg, s, w))
  {
    var (bus', claimed) := Take(s.bus, OptimizationRequests, GROUP, "worker");
    ClaimedDelivery(s);
    hide Take, Custody, Usable, Live, HoldsRequest, InFlight, Install, Validate;
    UsableWorkers(cfg, s);
    UsableMove(cfg, s, w, Claimed(cfg, s, w, bus', claimed.value));
    assert ClaimStep(cfg, s, w).pcs == Install(s, w, Claimed(cfg, s, w, bus', claimed.value)).pcs;
    SameUsable(cfg, Install(s, w, Claimed(cfg, s, w, bus', claimed.value)), ClaimStep(cfg, s, w));
  }

  lemma SameUsable(cfg: Config, s: System, s': System)
    requires Usable(cfg, s) && s'.pcs == s.pcs && Log(s'.bus, OptimizationRequests) == Log(s.bus, OptimizationRequests)
    ensures Usable(cfg, s')
  {
  }

  lemma FailUsable(cfg: Config, s: System, w: nat, error: string)
    requires Enabled(cfg, s, Fails(w, error)) && Usable(cfg, s)
    ensures Usable(cfg, FailStep(cfg, s, w, error))
  {
    FailedBus(cfg, s, w, error);
    UsableWorkers(cfg, s);
    hide Usable, Install, LockKeyOf, Unlocked;
    UsableMove(cfg, s, w, Failed(cfg, s, w, error));
  }

  lemma PublishUsable(cfg: Config, s: System, topic: Topic, event: EventEnvelope, key: string)
    requires Enabled(cfg, s, Publishes(topic, event, key)) && Usable(cfg, s)
    ensures Usable(cfg, Apply(cfg, s, Publishes(topic, event, key)))
  {
    hide PcUsable, PartitionFor;
  }

  lemma OtherUsable(cfg: Config, s: System, a: Action)
    requires Enabled(cfg, s, a) && Custody(s) && Usable(cfg, s) && !a.Publishes? && !a.Advances? && !a.Fails?
        && !a.Claims?
    ensures Usable(cfg, Apply(cfg, s, a))
  {
    assert OthersOk(s.bus, s.others);
    hide Custody, OthersOk, Usable, Enabled, Apply;
    OtherStepGrows(cfg, s, a);
    QuietStep(cfg, s, a);
    SameUsable(cfg, s, Apply(cfg, s, a));
  }

  lemma UsableStep(cfg: Config, s: System, a: Action)
    requires Enabled(cfg, s, a) && Custody(s) && Usable(cfg, s)
    ensures Usable(cfg, Apply(cfg, s, a))
  {
    hide Custody, Usable, ClaimStep, AdvanceStep, FailStep, CanAdvance, OtherTakeStep, Publish, Retry, Subscribe;
    match a {
      case Publishes(topic, event, key) => PublishUsable(cfg, s, topic, event, key);
      case Claims(w) => ClaimUsable(cfg, s, w);
      case Advances(w, verdict) => AdvanceUsable(cfg, s, w, verdict);
      case Fails(w, error) => FailUsable(cfg, s, w, error);
      case _ => OtherUsable(cfg, s, a);
    }
  }

  lemma {:induction false} RunUsable(cfg: Config, partitions: nat, actions: seq<Action>, states: seq<System>, i: nat)
    requires Run(cfg, partitions, actions, states) && i < |states|
    ensures Usable(cfg, states[i])
  {
    hide Inv, Apply, Enabled, Custody;
    if i == 0 {
    } else {
      hide Run, Usable;
      RunNext(cfg, partitions, actions, states, i - 1);
      InvParts(cfg, states[i - 1]);
      RunUsable(cfg, partitions, actions, states, i - 1);
      UsableStep(cfg, states[i - 1], actions[i - 1]);
    }
  }

  // ---------- Somebody can always act ----------

  predicate Busy(pc: Pc) {
    !pc.Idle? && !pc.Crashed?
  }

  /** A worker that does not wait for a lock can go on. */
  lemma BusyGoesOn(cfg: Config, s: System, w: nat)
    requires Inv(cfg, s) && Usable(cfg, s) && w < |s.pcs| && Busy(s.pcs[w]) && !s.pcs[w].Locking?
    ensures w < |cfg.clusters| && s.bus.partitions >= 1 && CanAdvance(cfg, s, w)
  {
    InvParts(cfg, s);
    var pc := s.pcs[w];
    assert PcUsable(cfg, w, pc);
    hide Inv, Custody, Progress, Usable;
    if Held(pc).Some? {
      HeldIsUsable(cfg, s, w);
    }
    hide PcUsable, LockKeyOf, ResultEvent, DeadLetterEvent, NewEntry, Append;
  }

  /** What a worker holds has a key and a queue to go back to. */
  lemma HeldIsUsable(cfg: Config, s: System, w: nat)
    requires Custody(s) && Usable(cfg, s) && w < |s.pcs| && Held(s.pcs[w]).Some?
    ensures var m := Held(s.pcs[w]).value;
      m.key != "" && (m.topic, m.consumerGroup) == REQUESTS && REQUESTS in s.bus.queues
  {
    var m := Held(s.pcs[w]).value;
    assert HoldsRequest(s.bus, m);
    KeysApart(s, w);
    assert KnownKey(s.bus, AckKeyOf(m, GROUP));
    var e :| e in Log(s.bus, OptimizationRequests) && CopyOf(m, e);
    hide Custody, PcUsable;
  }

  /** Whoever holds the lock a worker waits for does not wait himself. */
  lemma HolderIsBusy(cfg: Config, s: System, w: nat)
    requires LocksOk(cfg, s) && Usable(cfg, s) && s.bus.partitions >= 1
    requires w < |s.pcs| && s.pcs[w].Locking? && !CanAdvance(cfg, s, w)
    ensures exists v :: 0 <= v < |s.pcs| && Busy(s.pcs[v]) && !s.pcs[v].Locking?
  {
    assert PcUsable(cfg, w, s.pcs[w]);
    var key := LockKeyOf(cfg, w, s.pcs[w].task).value;
    hide LockKeyOf, Usable;
    assert HoldsLock(s.pcs[s.locks[key]]);
  }

  lemma InvLocks(cfg: Config, s: System)
    requires Inv(cfg, s)
    ensures LocksOk(cfg, s) && s.bus.partitions >= 1 && |cfg.clusters| == |s.pcs|
  {
  }

  /** If anybody is busy, somebody can take a step: a worker waits only for the lock of one
      that does not wait. */
  lemma SomebodyAdvances(cfg: Config, s: System, w: nat) returns (v: nat)
    requires Inv(cfg, s) && Usable(cfg, s) && w < |s.pcs| && Busy(s.pcs[w])
    ensures v < |s.pcs| && v < |cfg.clusters| && s.bus.partitions >= 1 && CanAdvance(cfg, s, v)
  {
    InvLocks(cfg, s);
    hide Inv, LocksOk, Usable, CanAdvance;
    v := w;
    if s.pcs[w].Locking? && !CanAdvance(cfg, s, w) {
      HolderIsBusy(cfg, s, w);
      v :| 0 <= v < |s.pcs| && Busy(s.pcs[v]) && !s.pcs[v].Locking?;
    }
    if !s.pcs[v].Locking? {
      BusyGoesOn(cfg, s, v);
    }
  }

  predicate CanAct(cfg: Config, s: System, w: nat)
    requires |cfg.clusters| == |s.pcs| && s.bus.partitions >= 1
  {
    w < |s.pcs| && (CanAdvance(cfg, s, w) || (s.pcs[w].Idle? && QueueReady(s.bus, REQUESTS)))
  }

  /** The worker that crashed on a request, if one did. */
  predicate CrashedOn(pc: Pc, e: PublishedEvent) {
    pc.Crashed? && AckKeyOf(pc.message, GROUP) == EntryKey(e, GROUP)
  }

  /** No deadlock: in every reachable state, while a request of a subscribed topic is not
      acknowledged, some worker can act, unless a worker crashed on that very request over
      its lock key, or all of them crashed. */
  lemma UnsettledWorkGoesOn(cfg: Config, partitions: nat, actions: seq<Action>, states: seq<System>, i: nat,
      e: PublishedEvent)
    requires Run(cfg, partitions, actions, states) && i < |states|
    requires REQUESTS in states[i].bus.queues && e in Log(states[i].bus, OptimizationRequests)
    requires EntryKey(e, GROUP) !in states[i].bus.acknowledged
    ensures |cfg.clusters| == |states[i].pcs| && states[i].bus.partitions >= 1
    ensures var s := states[i];
      || (exists w :: CanAct(cfg, s, w))
      || (exists w :: 0 <= w < |s.pcs| && CrashedOn(s.pcs[w], e))
      || (forall w :: 0 <= w < |s.pcs| ==> s.pcs[w].Crashed?)
  {
    RunInv(cfg, partitions, actions, states, i);
    RunUsable(cfg, partitions, actions, states, i);
    hide Run, Inv, Usable;
    InvLocks(cfg, states[i]);
    StateGoesOn(cfg, states[i], e);
  }

  lemma StateGoesOn(cfg: Config, s: System, e: PublishedEvent)
    requires Inv(cfg, s) && Usable(cfg, s) && |cfg.clusters| == |s.pcs| && s.bus.partitions >= 1
    requires REQUESTS in s.bus.queues && e in Log(s.bus, OptimizationRequests)
    requires EntryKey(e, GROUP) !in s.bus.acknowledged
    ensures
      || (exists w :: CanAct(cfg, s, w))
      || (exists w :: 0 <= w < |s.pcs| && CrashedOn(s.pcs[w], e))
      || (forall w :: 0 <= w < |s.pcs| ==> s.pcs[w].Crashed?)
  {
    InvParts(cfg, s);
    hide Inv, Usable, Progress, Custody, CanAdvance;
    WhereUnsettled(s, e);
    if w :| 0 <= w < |s.pcs| && Busy(s.pcs[w]) {
      var v := SomebodyAdvances(cfg, s, w);
      assert CanAct(cfg, s, v);
    } else if w :| 0 <= w < |s.pcs| && s.pcs[w].Idle? && QueueReady(s.bus, REQUESTS) {
      assert CanAct(cfg, s, w);
    }
  }

  lemma WhereUnsettled(s: System, e: PublishedEvent)
    requires Custody(s) && REQUESTS in s.bus.queues && e in Log(s.bus, OptimizationRequests)
    requires EntryKey(e, GROUP) !in s.bus.acknowledged
    ensures
      || QueueReady(s.bus, REQUESTS)
      || exists w :: 0 <= w < |s.pcs| && Held(s.pcs[w]).Some?
          && AckKeyOf(Held(s.pcs[w]).value, GROUP) == EntryKey(e, GROUP)
  {
    assert QueueLive(s.bus, InFlight(s), REQUESTS);
    var k := EntryKey(e, GROUP);
    LogIds(s.bus, OptimizationRequests);
    assert k !in OtherKeys(s.others);
    hide Live, LogsOk, HoldersDistinct;
  }

  // ---------- How long it can take ----------

  predicate WorkerAction(a: Action) {
    a.Claims? || a.Advances? || a.Fails?
  }

  /** The worker steps among the first `n` actions. */
  function StepsTaken(actions: seq<Action>, n: nat): nat
    requires n <= |actions|
  {
    if n == 0 then 0 else StepsTaken(actions, n - 1) + if WorkerAction(actions[n - 1]) then 1 else 0
  }

  function RankSum(pcs: seq<Pc>): nat {
    if pcs == [] then 0 else Rank(pcs[0]) + RankSum(pcs[1..])
  }

  lemma {:induction false} RankSumAfter(pcs: seq<Pc>, w: nat, pc: Pc)
    requires w < |pcs|
    ensures RankSum(pcs[w := pc]) == RankSum(pcs) - Rank(pcs[w]) + Rank(pc)
  {
    hide Rank;
    if w > 0 {
      RankSumAfter(pcs[1..], w - 1, pc);
      assert pcs[w := pc][1..] == pcs[1..][w - 1 := pc];
    } else {
      assert pcs[w := pc][1..] == pcs[1..];
    }
  }

  lemma {:induction false} RankSumIdle(pcs: seq<Pc>)
    requires forall w :: 0 <= w < |pcs| ==> pcs[w].Idle?
    ensures RankSum(pcs) == 0
  {
    if pcs == [] {
    } else {
      assert pcs[0].Idle?;
      RankSumIdle(pcs[1..]);
    }
  }

  /** All deliveries of the requests in `log`, and the most there may be. */
  function Deliveries(s: System, log: seq<PublishedEvent>): nat {
    if log == [] then 0
    else Deliveries(s, log[..|log| - 1]) + TimesDelivered(s, log[|log| - 1].partition, log[|log| - 1].offset)
  }

  function Allowance(cfg: Config, log: seq<PublishedEvent>): nat {
    if log == [] then 0 else Allowance(cfg, log[..|log| - 1]) + DeliveryLimit(cfg, log[|log| - 1].event.attempt)
  }

  lemma {:induction false} DeliveriesWithinAllowance(cfg: Config, s: System, log: seq<PublishedEvent>)
    requires forall e :: e in log ==> TimesDelivered(s, e.partition, e.offset) <= DeliveryLimit(cfg, e.event.attempt)
    ensures Deliveries(s, log) <= Allowance(cfg, log)
  {
    hide TimesDelivered, DeliveryLimit;
    if log == [] {
    } else {
      DeliveriesWithinAllowance(cfg, s, log[..|log| - 1]);
    }
  }

  lemma {:induction false} SameDeliveries(s: System, s': System, log: seq<PublishedEvent>)
    requires forall e :: e in log ==>
        TimesDelivered(s', e.partition, e.offset) == TimesDelivered(s, e.partition, e.offset)
    ensures Deliveries(s', log) == Deliveries(s, log)
  {
    hide TimesDelivered;
    if log == [] {
    } else {
      SameDeliveries(s, s', log[..|log| - 1]);
    }
  }

  /** The log has an entry at the place of this delivery. */
  predicate Placed(log: seq<PublishedEvent>, m: ConsumedEvent) {
    exists e :: e in log && (e.partition, e.offset) == (m.partition, m.offset)
  }

  predicate PlacesDistinct(log: seq<PublishedEvent>) {
    forall i, j :: 0 <= i < j < |log| ==> (log[i].partition, log[i].offset) != (log[j].partition, log[j].offset)
  }

  lemma PlacedSplit(log: seq<PublishedEvent>, m: ConsumedEvent)
    requires PlacesDistinct(log) && log != []
    ensures var n := |log| - 1; var here := (log[n].partition, log[n].offset) == (m.partition, m.offset);
      && PlacesDistinct(log[..n])
      && (here ==> Placed(log, m) && !Placed(log[..n], m))
      && (!here ==> (Placed(log, m) <==> Placed(log[..n], m)))
  {
    assert log == log[..|log| - 1] + [log[|log| - 1]];
  }

  lemma TimesAfter(s: System, s': System, m: ConsumedEvent, partition: nat, offset: nat)
    requires s'.deliveries == Delivered(s.deliveries, m)
    ensures TimesDelivered(s', partition, offset)
      == TimesDelivered(s, partition, offset) + if (partition, offset) == (m.partition, m.offset) then 1 else 0
  {
  }

  lemma {:induction false} OneMoreDelivery(s: System, s': System, log: seq<PublishedEvent>, m: ConsumedEvent)
    requires s'.deliveries == Delivered(s.deliveries, m) && PlacesDistinct(log)
    ensures Deliveries(s', log) == Deliveries(s, log) + if Placed(log, m) then 1 else 0
  {
    hide TimesDelivered, Delivered;
    if log == [] {
    } else {
      var n := |log| - 1;
      PlacedSplit(log, m);
      TimesAfter(s, s', m, log[n].partition, log[n].offset);
      hide Placed, PlacesDistinct;
      OneMoreDelivery(s, s', log[..n], m);
    }
  }

  /** The measure: steps taken, plus what the workers still have ahead of them, paid for by
      the deliveries. */
  ghost predicate Paid(actions: seq<Action>, n: nat, s: System)
    requires n <= |actions|
  {
    StepsTaken(actions, n) + RankSum(s.pcs) <= 11 * Deliveries(s, Log(s.bus, OptimizationRequests))
  }

  lemma RankDrops(cfg: Config, s: System, a: Action)
    requires Enabled(cfg, s, a) && (a.Advances? || a.Fails?)
    ensures RankSum(Apply(cfg, s, a).pcs) + 1 <= RankSum(s.pcs)
    ensures Apply(cfg, s, a).deliveries == s.deliveries
    ensures Log(Apply(cfg, s, a).bus, OptimizationRequests) == Log(s.bus, OptimizationRequests)
  {
    var w := a.w;
    if a.Advances? {
      hide CanAdvance, Advance, Rank;
      RankFalls(cfg, s, w, a.verdict);
      AdvanceRequests(cfg, s, w, a.verdict);
      RankSumAfter(s.pcs, w, Advance(cfg, s, w, a.verdict).pc);
    } else {
      FailedBus(cfg, s, w, a.error);
      FailRank(cfg, s, w, a.error);
      hide Failed, Rank;
      RankSumAfter(s.pcs, w, Failed(cfg, s, w, a.error).pc);
    }
  }

  lemma FailRank(cfg: Config, s: System, w: nat, error: string)
    requires Enabled(cfg, s, Fails(w, error))
    ensures Rank(Failed(cfg, s, w, error).pc) < Rank(s.pcs[w])
  {
    hide Unlocked;
  }

  lemma ClaimGives(cfg: Config, s: System, w: nat) returns (m: ConsumedEvent, pc: Pc)
    requires Enabled(cfg, s, Claims(w)) && Custody(s)
    ensures var s' := Apply(cfg, s, Claims(w));
      && Log(s'.bus, OptimizationRequests) == Log(s.bus, OptimizationRequests)
      && s'.deliveries == Delivered(s.deliveries, m)
      && s'.pcs == s.pcs[w := pc] && Rank(pc) <= 10
    ensures HasEntry(Log(s.bus, OptimizationRequests), m)
  {
    hide Custody, Live, InFlight, Take, Validate, Delivered, Rank, HasEntry;
    var (bus', claimed) := Take(s.bus, OptimizationRequests, GROUP, "worker");
    ClaimedDelivery(s);
    m := claimed.value;
    pc := Claimed(cfg, s, w, bus', m).pc;
    ClaimRank(cfg, s, w, bus', m);
  }

  lemma CustodyIds(s: System)
    requires Custody(s)
    ensures PlacesDistinct(Log(s.bus, OptimizationRequests))
  {
    LogIds(s.bus, OptimizationRequests);
    hide LogsOk, InFlight;
  }

  /** A claim is one more delivery of one request, and ten steps ahead at most. */
  lemma ClaimPays(cfg: Config, s: System, w: nat)
    requires Enabled(cfg, s, Claims(w)) && Custody(s)
    ensures var s' := Apply(cfg, s, Claims(w)); var log := Log(s.bus, OptimizationRequests);
      && Log(s'.bus, OptimizationRequests) == log
      && Deliveries(s', log) == Deliveries(s, log) + 1
      && RankSum(s'.pcs) <= RankSum(s.pcs) + 10
  {
    var m, pc := ClaimGives(cfg, s, w);
    CustodyIds(s);
    var log := Log(s.bus, OptimizationRequests);
    assert w < |s.pcs|;
    hide Custody, Apply, Enabled, Rank, Deliveries, Delivered, RankSum;
    var e :| e in log && CopyOf(m, e);
    OneMoreDelivery(s, Apply(cfg, s, Claims(w)), log, m);
    RankSumAfter(s.pcs, w, pc);
  }

  lemma ClaimRank(cfg: Config, s: System, w: nat, bus': BusState, m: ConsumedEvent)
    requires w < |s.pcs| == |s.stats|
    ensures Rank(Claimed(cfg, s, w, bus', m).pc) <= 10
  {
    hide Validate;
  }

  lemma NewPlaceUndelivered(cfg: Config, s: System, topic: Topic, event: EventEnvelope, key: string)
    requires Inv(cfg, s) && topic == OptimizationRequests
    ensures s.bus.partitions >= 1
    ensures var n := NewEntry(s.bus, topic, event, key);
      n.topic == topic && TimesDelivered(s, n.partition, n.offset) == 0
  {
    InvParts(cfg, s);
    assert EntryCounts(cfg, s) && Live(s.bus, InFlight(s));
    hide Inv, Custody, LogsOk, DeliveryLimit;
    AppendKeepsLogs(s.bus, topic, event, key);
    hide Live, NewEntry;
  }

  lemma PublishedEntry(cfg: Config, s: System, topic: Topic, event: EventEnvelope, key: string)
    requires Enabled(cfg, s, Publishes(topic, event, key))
    ensures var n := NewEntry(s.bus, topic, event, key); var s' := Apply(cfg, s, Publishes(topic, event, key));
      n.topic == topic && s'.bus == Append(s.bus, n) && s'.deliveries == s.deliveries
  {
    hide PartitionFor, CountIn, Append;
  }

  lemma NewRequestUndelivered(cfg: Config, s: System, topic: Topic, event: EventEnvelope, key: string)
    requires Inv(cfg, s) && Enabled(cfg, s, Publishes(topic, event, key))
    ensures var s' := Apply(cfg, s, Publishes(topic, event, key));
      Deliveries(s', Log(s'.bus, OptimizationRequests)) == Deliveries(s, Log(s.bus, OptimizationRequests))
  {
    hide Inv, NewEntry, Apply, TimesDelivered;
    PublishedEntry(cfg, s, topic, event, key);
    var s' := Apply(cfg, s, Publishes(topic, event, key));
    var log := Log(s.bus, OptimizationRequests);
    SameTimes(s, s');
    SameDeliveries(s, s', log);
    if topic == OptimizationRequests {
      NewPlaceUndelivered(cfg, s, topic, event, key);
      DeliveriesWith(s', log, NewEntry(s.bus, topic, event, key));
    }
    hide Enabled, Deliveries;
  }

  lemma DeliveriesWith(s: System, log: seq<PublishedEvent>, n: PublishedEvent)
    ensures Deliveries(s, log + [n]) == Deliveries(s, log) + TimesDelivered(s, n.partition, n.offset)
  {
    assert (log + [n])[..|log|] == log;
  }

  lemma SameTimes(s: System, s': System)
    requires s'.deliveries == s.deliveries
    ensures forall p, o :: TimesDelivered(s', p, o) == TimesDelivered(s, p, o)
  {
  }

  lemma OtherPays(cfg: Config, s: System, a: Action)
    requires Inv(cfg, s) && Enabled(cfg, s, a) && !WorkerAction(a)
    ensures var s' := Apply(cfg, s, a);
      && s'.pcs == s.pcs
      && Deliveries(s', Log(s'.bus, OptimizationRequests)) == Deliveries(s, Log(s.bus, OptimizationRequests))
  {
    OtherStepGrows(cfg, s, a);
    if a.Publishes? {
      hide Inv, Apply, Enabled;
      NewRequestUndelivered(cfg, s, a.topic, a.event, a.key);
    } else {
      InvParts(cfg, s);
      assert OthersOk(s.bus, s.others);
      hide Inv, Custody, OthersOk, Apply, Enabled;
      QuietStep(cfg, s, a);
      SameDeliveries(s, Apply(cfg, s, a), Log(s.bus, OptimizationRequests));
    }
  }

  lemma {:induction false} RunPaid(cfg: Config, partitions: nat, actions: seq<Action>, states: seq<System>, i: nat)
    requires Run(cfg, partitions, actions, states) && i < |states|
    ensures |states| == |actions| + 1 && Paid(actions, i, states[i])
  {
    hide Inv, Apply, Enabled, Deliveries;
    if i == 0 {
      RankSumIdle(states[0].pcs);
    } else {
      RunNext(cfg, partitions, actions, states, i - 1);
      RunPaid(cfg, partitions, actions, states, i - 1);
      hide Run, RankSum;
      var s, a := states[i - 1], actions[i - 1];
      if a.Claims? {
        InvParts(cfg, s);
        hide Custody, Progress;
        ClaimPays(cfg, s, a.w);
      } else if WorkerAction(a) {
        RankDrops(cfg, s, a);
        SameDeliveries(s, Apply(cfg, s, a), Log(s.bus, OptimizationRequests));
      } else {
        OtherPays(cfg, s, a);
      }
    }
  }

  /** However a run interleaves, fails and retries, its workers take at most eleven steps for
      each delivery the published requests are allowed. */
  lemma WorkerStepsAreBounded(cfg: Config, partitions: nat, actions: seq<Action>, states: seq<System>, i: nat)
    requires Run(cfg, partitions, actions, states) && i < |states|
    ensures |states| == |actions| + 1
    ensures StepsTaken(actions, i) <= 11 * Allowance(cfg, Log(states[i].bus, OptimizationRequests))
  {
    RunPaid(cfg, partitions, actions, states, i);
    RunInv(cfg, partitions, actions, states, i);
    assert EntryCounts(cfg, states[i]);
    hide Run, Inv, StepsTaken, RankSum, Deliveries, Allowance, DeliveryLimit, TimesDelivered;
    DeliveriesWithinAllowance(cfg, states[i], Log(states[i].bus, OptimizationRequests));
  }
}

/** Whole runs of the workers: what holds in every state of every interleaving, with a
    failure possible at any step of the try block. */
module WorkerRuns {
  import opened Ordering
  import opened Contracts
  import opened Bus
  import opened Worker
  import opened WorkerSafety
  import opened WorkerAccounting

  ghost predicate Inv(cfg: Config, s: System) {
    && WellFormed(cfg, s) && s.bus.partitions >= 1 && !s.bus.closed
    && Custody(s) && Progress(cfg, s) && AckedIsDone(s.bus)
    && LocksOk(cfg, s) && AllBalanced(s) && Conserved(s) && Metered(cfg, s)
  }

  lemma InvParts(cfg: Config, s: System)
    requires Inv(cfg, s)
    ensures WellFormed(cfg, s) && s.bus.partitions >= 1 && !s.bus.closed && Custody(s) && Progress(cfg, s)
  {
  }

  lemma InitialInv(cfg: Config, partitions: nat)
    requires partitions >= 1 && |cfg.clusters| == |cfg.storeOf|
    ensures Inv(cfg, Initial(partitions, |cfg.clusters|))
  {
    var s := Initial(partitions, |cfg.clusters|);
    InitialCustody(cfg, partitions);
    IdleTotal(s.stats, s.pcs);
    NothingSettled(s.stats);
    hide Custody;
    assert AckedRequests(s.bus) == {};
  }

  lemma {:induction false} NothingSettled(stats: seq<WorkerStats>)
    requires forall w :: 0 <= w < |stats| ==> stats[w] == WorkerStats(0, 0, 0, 0, 0)
    ensures Total(stats) == 0
  {
    if stats == [] {
    } else {
      assert stats[0] == WorkerStats(0, 0, 0, 0, 0);
      NothingSettled(stats[1..]);
    }
  }

  lemma StepInv(cfg: Config, s: System, a: Action)
    requires Inv(cfg, s) && Enabled(cfg, s, a)
    ensures Inv(cfg, Apply(cfg, s, a))
  {
    hide Enabled, Apply, Custody, Progress, AckedIsDone, LocksOk, AllBalanced, Conserved, Metered;
    StepFrame(cfg, s, a);
    CustodyStep(cfg, s, a);
    ProgressStep(cfg, s, a);
    AckedStep(cfg, s, a);
    LocksStep(cfg, s, a);
    BooksStep(cfg, s, a);
    MeteredStep(cfg, s, a);
  }

  lemma {:induction false} RunInv(cfg: Config, partitions: nat, actions: seq<Action>, states: seq<System>, i: nat)
    requires Run(cfg, partitions, actions, states) && i < |states|
    ensures Inv(cfg, states[i])
  {
    if i == 0 {
      InitialInv(cfg, partitions);
    } else {
      RunInv(cfg, partitions, actions, states, i - 1);
      assert Worker.Next(cfg, states[i - 1], actions[i - 1], states[i - 1 + 1]);
      StepInv(cfg, states[i - 1], actions[i - 1]);
    }
  }

  /** An acknowledged request always has its result in the results log, or a dead letter
      naming it. */
  lemma AckOnlyAfterDurableCompletion(cfg: Config, partitions: nat, actions: seq<Action>, states: seq<System>, i: nat,
      e: PublishedEvent)
    requires Run(cfg, partitions, actions, states) && i < |states|
    requires e in Log(states[i].bus, OptimizationRequests) && EntryKey(e, GROUP) in states[i].bus.acknowledged
    ensures Done(states[i].bus, e)
  {
    RunInv(cfg, partitions, actions, states, i);
  }

  /** No two workers are past the lock of one (cluster, namespace, workload), and a worker
      holding a usable key waits only for a worker on its own triple. */
  lemma RunsExcludeEachOther(cfg: Config, partitions: nat, actions: seq<Action>, states: seq<System>, i: nat, v: nat,
      w: nat)
    requires Run(cfg, partitions, actions, states) && i < |states| && v < |states[i].pcs| && w < |states[i].pcs|
    ensures |states[i].pcs| == |cfg.clusters|
    ensures var s := states[i];
      && (HoldsLock(s.pcs[v]) && HoldsLock(s.pcs[w]) && SameWorkload(cfg, v, s.pcs[v].task, w, s.pcs[w].task) ==>
          v == w)
      && (s.pcs[w].Locking? && LockKeyOf(cfg, w, s.pcs[w].task).Ok? ==>
            s.bus.partitions >= 1 &&
            (CanAdvance(cfg, s, w) <==>
              forall u :: 0 <= u < |s.pcs| && HoldsLock(s.pcs[u]) ==>
                  !SameWorkload(cfg, u, s.pcs[u].task, w, s.pcs[w].task)))
  {
    RunInv(cfg, partitions, actions, states, i);
    var s := states[i];
    hide Custody, Progress, AckedIsDone, LocksOk, AllBalanced, Conserved, Metered;
    if HoldsLock(s.pcs[v]) && HoldsLock(s.pcs[w]) {
      WorkloadExclusion(cfg, s, v, w);
    }
    if s.pcs[w].Locking? && LockKeyOf(cfg, w, s.pcs[w].task).Ok? {
      hide CanAdvance, SameWorkload, LockKeyOf;
      NoFalseContention(cfg, s, w);
    }
  }

  lemma HeldCopy(s: System, w: nat, e: PublishedEvent)
    requires Custody(s) && e in Log(s.bus, OptimizationRequests)
    requires w < |s.pcs| && Held(s.pcs[w]).Some? && AckKeyOf(Held(s.pcs[w]).value, GROUP) == EntryKey(e, GROUP)
    ensures CopyOf(Held(s.pcs[w]).value, e)
  {
    assert HoldsRequest(s.bus, Held(s.pcs[w]).value);
    LogIds(s.bus, OptimizationRequests);
    hide Live;
  }

  /** A request published with attempt `a` reaches a worker at most max(1, max - a) times,
      and what a worker holds is that request at exactly the attempt of this delivery. */
  lemma DeliveryIsBounded(cfg: Config, partitions: nat, actions: seq<Action>, states: seq<System>, i: nat,
      e: PublishedEvent)
    requires Run(cfg, partitions, actions, states) && i < |states| && e in Log(states[i].bus, OptimizationRequests)
    ensures var s := states[i]; var times := TimesDelivered(s, e.partition, e.offset);
      && times <= DeliveryLimit(cfg, e.event.attempt)
      && forall w :: 0 <= w < |s.pcs| && Held(s.pcs[w]).Some? && AckKeyOf(Held(s.pcs[w]).value, GROUP) == EntryKey(e,
          GROUP) ==>
           && times >= 1
           && Held(s.pcs[w]).value.deliveryCount == times
           && Held(s.pcs[w]).value.event == e.event.(attempt := e.event.attempt + times - 1)
  {
    RunInv(cfg, partitions, actions, states, i);
    var s := states[i];
    assert EntryCounts(cfg, s) && HeldCounts(cfg, s);
    hide Run, Custody, Progress, AckedIsDone, LocksOk, AllBalanced, Conserved, DeliveryLimit, WithinLimit, Metered,
        QueueCounts;
    forall w | 0 <= w < |s.pcs| && Held(s.pcs[w]).Some? && AckKeyOf(Held(s.pcs[w]).value, GROUP) == EntryKey(e, GROUP)
      ensures CopyOf(Held(s.pcs[w]).value, e)
    {
      HeldCopy(s, w, e);
    }
  }

  /** Action `a`, leading to `s`, handed a worker the request at this place. */
  predicate HandsOver(a: Action, s: System, partition: nat, offset: nat) {
    && a.Claims? && a.w < |s.pcs| && Held(s.pcs[a.w]).Some?
    && Held(s.pcs[a.w]).value.partition == partition && Held(s.pcs[a.w]).value.offset == offset
  }

  /** How many of the first `i` actions handed this request to a worker. */
  function TimesClaimed(actions: seq<Action>, states: seq<System>, i: nat, partition: nat, offset: nat): nat
    requires i <= |actions| && |states| == |actions| + 1
  {
    if i == 0 then 0
    else TimesClaimed(actions, states, i - 1, partition, offset)
         + if HandsOver(actions[i - 1], states[i], partition, offset) then 1 else 0
  }

  lemma RunNext(cfg: Config, partitions: nat, actions: seq<Action>, states: seq<System>, i: nat)
    requires Run(cfg, partitions, actions, states) && i < |actions|
    ensures |states| == |actions| + 1 && Inv(cfg, states[i])
    ensures Enabled(cfg, states[i], actions[i]) && states[i + 1] == Apply(cfg, states[i], actions[i])
  {
    hide Inv, Apply, Enabled, Initial;
    RunInv(cfg, partitions, actions, states, i);
    assert Worker.Next(cfg, states[i], actions[i], states[i + 1]);
  }

  /** The delivery counter really counts claims. */
  lemma {:induction false} DeliveriesCountClaims(cfg: Config, partitions: nat, actions: seq<Action>,
      states: seq<System>, i: nat, partition: nat, offset: nat)
    requires Run(cfg, partitions, actions, states) && i < |states|
    ensures TimesDelivered(states[i], partition, offset) == TimesClaimed(actions, states, i, partition, offset)
  {
    hide Inv, Apply, Enabled, HandsOver;
    if i == 0 {
      assert states[0].deliveries == map[];
    } else {
      hide Run, TimesDelivered;
      RunNext(cfg, partitions, actions, states, i - 1);
      DeliveriesCountClaims(cfg, partitions, actions, states, i - 1, partition, offset);
      StepDeliveries(cfg, states[i - 1], actions[i - 1], partition, offset);
    }
  }

  lemma StepDeliveries(cfg: Config, s: System, a: Action, partition: nat, offset: nat)
    requires Enabled(cfg, s, a) && Inv(cfg, s)
    ensures TimesDelivered(Apply(cfg, s, a), partition, offset)
      == TimesDelivered(s, partition, offset) + if HandsOver(a, Apply(cfg, s, a), partition, offset) then 1 else 0
  {
    if a.Claims? {
      hide HandsOver;
      ClaimDelivers(cfg, s, a.w);
      hide Inv, Custody, ClaimStep;
      ClaimCounts(s, ClaimStep(cfg, s, a.w), a, partition, offset);
    } else {
      hide Inv;
      OnlyClaimsDeliver(cfg, s, a);
      hide Apply, Enabled;
    }
  }

  lemma ClaimDelivers(cfg: Config, s: System, w: nat)
    requires Enabled(cfg, s, Claims(w)) && Inv(cfg, s)
    ensures var s' := ClaimStep(cfg, s, w);
      w < |s'.pcs| && Held(s'.pcs[w]).Some? && s'.deliveries == Delivered(s.deliveries, Held(s'.pcs[w]).value)
  {
    InvParts(cfg, s);
    hide Inv;
    TakenDelivers(cfg, s, w);
  }

  lemma TakenDelivers(cfg: Config, s: System, w: nat)
    requires Enabled(cfg, s, Claims(w)) && Custody(s)
    ensures var s' := ClaimStep(cfg, s, w);
      w < |s'.pcs| && Held(s'.pcs[w]).Some? && s'.deliveries == Delivered(s.deliveries, Held(s'.pcs[w]).value)
  {
    hide Custody, Validate, Take, HoldsRequest, Live, InFlight, Delivered;
    ClaimedDelivery(s);
  }

  lemma ClaimCounts(s: System, s': System, a: Action, partition: nat, offset: nat)
    requires a.Claims? && a.w < |s'.pcs| && Held(s'.pcs[a.w]).Some?
    requires s'.deliveries == Delivered(s.deliveries, Held(s'.pcs[a.w]).value)
    ensures TimesDelivered(s', partition, offset)
      == TimesDelivered(s, partition, offset) + if HandsOver(a, s', partition, offset) then 1 else 0
  {
    hide Held;
  }

  lemma OnlyClaimsDeliver(cfg: Config, s: System, a: Action)
    requires Enabled(cfg, s, a) && !a.Claims?
    ensures Apply(cfg, s, a).deliveries == s.deliveries
  {
    hide Take, Advance, CanAdvance, Failed, Post, Retry, Subscribe, Publish;
  }

  /** Between deliveries a worker's counters add up; and once everything is drained, the
      requests ever published are exactly those counted completed, failed or duplicate. */
  lemma NothingIsLostOrCountedTwice(cfg: Config, partitions: nat, actions: seq<Action>, states: seq<System>, i: nat)
    requires Run(cfg, partitions, actions, states) && i < |states|
    ensures var s := states[i];
      && |s.stats| == |s.pcs|
      && (forall w :: 0 <= w < |s.pcs| && s.pcs[w].Idle? ==>
            s.stats[w].claimed == s.stats[w].completed + s.stats[w].failed + s.stats[w].retried + s.stats[w].duplicates)
      && (Quiescent(s) ==> |Log(s.bus, OptimizationRequests)| == Total(s.stats))
  {
    RunInv(cfg, partitions, actions, states, i);
    var s := states[i];
    hide Custody, Progress, AckedIsDone, LocksOk, Conserved, Metered, Quiescent;
    if Quiescent(s) {
      Conservation(s);
    }
    forall w | 0 <= w < |s.pcs| && s.pcs[w].Idle?
      ensures s.stats[w].claimed
        == s.stats[w].completed + s.stats[w].failed + s.stats[w].retried + s.stats[w].duplicates
    {
      assert Balanced(s.stats[w], s.pcs[w]);
    }
  }

  /** For every subscribed group, every entry of its topic is acknowledged, held, or waiting
      at one place of the queue: exactly one of the three; and no delivery is held twice, by
      two workers, two other consumers, or one of each. */
  lemma EveryEntryHasOneCopy(cfg: Config, partitions: nat, actions: seq<Action>, states: seq<System>, i: nat,
      g: GroupKey, e: PublishedEvent)
    requires Run(cfg, partitions, actions, states) && i < |states|
    requires g in states[i].bus.queues && e in Log(states[i].bus, g.0)
    ensures var s := states[i]; var k := EntryKey(e, g.1); var q := s.bus.queues[g];
      && (k in s.bus.acknowledged ==> k !in InFlight(s) && !Queued(q, e))
      && (k in InFlight(s) ==> !Queued(q, e))
      && (k !in s.bus.acknowledged && k !in InFlight(s) ==> Queued(q, e))
      && (forall m, n :: 0 <= m < |q| && 0 <= n < |q| && AckKeyOf(q[m], g.1) == k && AckKeyOf(q[n], g.1) == k ==>
          m == n)
      && HoldersDistinct(s.pcs) && WorkerKeys(s.pcs) !! OtherKeys(s.others)
      && (forall m, n :: m in s.others && n in s.others && AckKeyOf(m, m.consumerGroup) == AckKeyOf(n, n.consumerGroup)
            ==> m == n)
  {
    RunInv(cfg, partitions, actions, states, i);
    var s := states[i];
    forall w | 0 <= w < |s.pcs|
        && Held(s.pcs[w]).Some? ensures AckKeyOf(Held(s.pcs[w]).value, GROUP) !in OtherKeys(s.others) {
      KeysApart(s, w);
    }
    assert Live(s.bus, InFlight(s)) && HoldersDistinct(s.pcs) && OthersOk(s.bus, s.others);
    hide Live, Custody, Progress, AckedIsDone, LocksOk, AllBalanced, Conserved, Metered, HoldersDistinct, InFlight;
    ExactlyOneCopy(s.bus, InFlight(s), g, e);
  }
}

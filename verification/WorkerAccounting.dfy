/** Bounded delivery, and conservation of requests in the workers' counters. */
module WorkerAccounting {
  import opened Ordering
  import opened Contracts
  import opened Bus
  import opened Worker
  import opened WorkerSafety

  // ---------- Each worker's counters ----------

  /** Claimed, but not yet counted under any outcome. */
  predicate Uncounted(pc: Pc) {
    || pc.CheckingDuplicate? || pc.Crashed? || pc.Locking? || pc.Running? || pc.Storing? || pc.Publishing?
    || pc.Acking? || pc.Releasing?
  }

  predicate Balanced(stats: WorkerStats, pc: Pc) {
    stats.claimed
      == stats.completed + stats.failed + stats.retried + stats.duplicates + (if Uncounted(pc) then 1 else 0)
  }

  ghost predicate AllBalanced(s: System) {
    |s.pcs| == |s.stats| && forall w :: 0 <= w < |s.pcs| ==> Balanced(s.stats[w], s.pcs[w])
  }

  // ---------- Settled requests ----------

  /** Requests a worker has settled, corrected for an acknowledgement that is due or a
      completion not yet counted. */
  function Settled(stats: WorkerStats, pc: Pc): int {
    stats.completed + stats.failed + stats.duplicates
    + (if pc.Releasing? then 1 else 0)
    - (if pc.PublishingDuplicate? || pc.AckingDuplicate? || pc.DeadLettering? || pc.AckingDeadLetter? then 1 else 0)
  }

  function TotalSettled(stats: seq<WorkerStats>, pcs: seq<Pc>): int
    requires |stats| == |pcs|
  {
    if stats == [] then 0 else Settled(stats[0], pcs[0]) + TotalSettled(stats[1..], pcs[1..])
  }

  lemma {:induction false} TotalAfter(stats: seq<WorkerStats>, pcs: seq<Pc>, w: nat, st: WorkerStats, pc: Pc)
    requires |stats| == |pcs| && w < |pcs|
    ensures TotalSettled(stats[w := st], pcs[w := pc]) == TotalSettled(stats, pcs) - Settled(stats[w],
        pcs[w]) + Settled(st, pc)
  {
    if w > 0 {
      TotalAfter(stats[1..], pcs[1..], w - 1, st, pc);
      assert stats[w := st][1..] == stats[1..][w - 1 := st] && pcs[w := pc][1..] == pcs[1..][w - 1 := pc];
    } else {
      assert stats[w := st][1..] == stats[1..] && pcs[w := pc][1..] == pcs[1..];
    }
  }

  function AckedRequests(bus: BusState): set<AckKey> {
    set k | k in bus.acknowledged && k.topic == OptimizationRequests && k.group == GROUP
  }

  ghost predicate Conserved(s: System) {
    |s.pcs| == |s.stats| && TotalSettled(s.stats, s.pcs) == |AckedRequests(s.bus)|
  }

  // ---------- Steps keep the books ----------

  lemma AdvanceBooks(cfg: Config, s: System, w: nat, verdict: bool)
    requires WellFormed(cfg, s) && s.bus.partitions >= 1 && w < |s.pcs| && CanAdvance(cfg, s, w)
    requires Balanced(s.stats[w], s.pcs[w])
    ensures var o := Advance(cfg, s, w, verdict);
      && Balanced(o.stats, o.pc)
      && Settled(o.stats, o.pc) == Settled(s.stats[w], s.pcs[w]) + (if Acks(s.pcs[w]) then 1 else 0)
  {
    hide CanAdvance, Advance, Balanced, Settled;
    if s.pcs[w].CheckingDuplicate? || s.pcs[w].Releasing? {
      CountingBooks(cfg, s, w, verdict);
    } else {
      MovingBooks(cfg, s, w, verdict);
    }
  }

  lemma CountingBooks(cfg: Config, s: System, w: nat, verdict: bool)
    requires WellFormed(cfg, s) && s.bus.partitions >= 1 && w < |s.pcs| && CanAdvance(cfg, s, w)
    requires Balanced(s.stats[w], s.pcs[w]) && (s.pcs[w].CheckingDuplicate? || s.pcs[w].Releasing?)
    ensures var o := Advance(cfg, s, w, verdict);
      && Balanced(o.stats, o.pc)
      && Settled(o.stats, o.pc) == Settled(s.stats[w], s.pcs[w])
  {
    hide Unlocked, LockKeyOf, Store;
  }

  lemma MovingBooks(cfg: Config, s: System, w: nat, verdict: bool)
    requires WellFormed(cfg, s) && s.bus.partitions >= 1 && w < |s.pcs| && CanAdvance(cfg, s, w)
    requires Balanced(s.stats[w], s.pcs[w]) && !s.pcs[w].CheckingDuplicate? && !s.pcs[w].Releasing?
    ensures var o := Advance(cfg, s, w, verdict);
      && Balanced(o.stats, o.pc)
      && Settled(o.stats, o.pc) == Settled(s.stats[w], s.pcs[w]) + (if Acks(s.pcs[w]) then 1 else 0)
  {
    hide Post, Retry, Acknowledge, Unlocked, LockKeyOf, Publish, ResultEvent, DeadLetterEvent, Store;
  }

  lemma FailBooks(cfg: Config, s: System, w: nat, error: string)
    requires WellFormed(cfg, s) && w < |s.pcs| && InTryBlock(s.pcs[w]) && Balanced(s.stats[w], s.pcs[w])
    ensures var o := Failed(cfg, s, w, error);
      Balanced(o.stats, o.pc) && Settled(o.stats, o.pc) == Settled(s.stats[w], s.pcs[w])
  {
  }

  lemma ClaimBooks(cfg: Config, s: System, w: nat, bus': BusState, m: ConsumedEvent)
    requires WellFormed(cfg, s) && w < |s.pcs| && s.pcs[w].Idle? && Balanced(s.stats[w], s.pcs[w])
    ensures var o := Claimed(cfg, s, w, bus', m);
      Balanced(o.stats, o.pc) && Settled(o.stats, o.pc) == Settled(s.stats[w], s.pcs[w])
  {
    hide Validate;
  }

  lemma AckCounts(s: System, m: ConsumedEvent)
    requires Custody(s) && HoldsRequest(s.bus, m) && AckKeyOf(m, GROUP) in InFlight(s)
    ensures |AckedRequests(Acknowledge(s.bus, m))| == |AckedRequests(s.bus)| + 1
  {
    assert AckedRequests(Acknowledge(s.bus, m)) == AckedRequests(s.bus) + {AckKeyOf(m, GROUP)};
  }

  lemma BooksAfter(s: System, w: nat, o: Outcome)
    requires AllBalanced(s) && Conserved(s) && w < |s.pcs| && Balanced(o.stats, o.pc)
    requires |AckedRequests(o.bus)| - |AckedRequests(s.bus)| == Settled(o.stats, o.pc) - Settled(s.stats[w], s.pcs[w])
    ensures AllBalanced(Install(s, w, o)) && Conserved(Install(s, w, o))
  {
    TotalAfter(s.stats, s.pcs, w, o.stats, o.pc);
    hide Balanced, Settled, TotalSettled, AckedRequests;
  }

  lemma AdvanceKeepsBooks(cfg: Config, s: System, w: nat, verdict: bool)
    requires Enabled(cfg, s, Advances(w, verdict)) && Custody(s) && AllBalanced(s) && Conserved(s)
    ensures AllBalanced(AdvanceStep(cfg, s, w, verdict)) && Conserved(AdvanceStep(cfg, s, w, verdict))
  {
    var o, pc := Advance(cfg, s, w, verdict), s.pcs[w];
    AdvanceBooks(cfg, s, w, verdict);
    AdvanceBus(cfg, s, w, verdict);
    if Acks(pc) {
      KeysApart(s, w);
      assert HoldsRequest(s.bus, Held(pc).value);
      AckCounts(s, pc.message);
    } else {
      hide Custody, Advance, CanAdvance, NewEntry;
      assert o.bus.acknowledged == s.bus.acknowledged;
      assert AckedRequests(o.bus) == AckedRequests(s.bus);
    }
    hide Advance, CanAdvance, Custody, AllBalanced, Conserved;
    BooksAfter(s, w, o);
  }

  lemma SameAcked(bus: BusState, bus': BusState)
    requires forall k: AckKey :: (k.topic, k.group) == REQUESTS ==> (k in bus'.acknowledged <==> k in bus.acknowledged)
    ensures AckedRequests(bus') == AckedRequests(bus)
  {
  }

  lemma FailKeepsBooks(cfg: Config, s: System, w: nat, error: string)
    requires Enabled(cfg, s, Fails(w, error)) && AllBalanced(s) && Conserved(s)
    ensures AllBalanced(FailStep(cfg, s, w, error)) && Conserved(FailStep(cfg, s, w, error))
  {
    FailBooks(cfg, s, w, error);
    FailedBus(cfg, s, w, error);
    hide Failed, AllBalanced, Conserved, Balanced, Settled, Install;
    BooksAfter(s, w, Failed(cfg, s, w, error));
  }

  lemma ClaimKeepsBooks(cfg: Config, s: System, w: nat)
    requires Enabled(cfg, s, Claims(w)) && Custody(s) && AllBalanced(s) && Conserved(s)
    ensures AllBalanced(ClaimStep(cfg, s, w)) && Conserved(ClaimStep(cfg, s, w))
  {
    var (bus', claimed) := Take(s.bus, OptimizationRequests, GROUP, "worker");
    ClaimedDelivery(s);
    hide Take, Custody, Live, HoldsRequest, InFlight;
    var o := Claimed(cfg, s, w, bus', claimed.value);
    ClaimBooks(cfg, s, w, bus', claimed.value);
    SameAcked(s.bus, o.bus);
    hide Claimed, AllBalanced, Conserved, Balanced, Settled;
    BooksAfter(s, w, o);
  }

  lemma OtherKeepsBooks(cfg: Config, s: System, a: Action)
    requires Enabled(cfg, s, a) && Custody(s) && AllBalanced(s) && Conserved(s)
    requires !a.Advances? && !a.Fails? && !a.Claims?
    ensures AllBalanced(Apply(cfg, s, a)) && Conserved(Apply(cfg, s, a))
  {
    assert OthersOk(s.bus, s.others);
    hide Custody, Apply, OthersOk, Enabled, Balanced, TotalSettled;
    OtherStepGrows(cfg, s, a);
    OtherAcked(cfg, s, a);
    SameAcked(s.bus, Apply(cfg, s, a).bus);
  }

  lemma BooksStep(cfg: Config, s: System, a: Action)
    requires Enabled(cfg, s, a) && Custody(s) && AllBalanced(s) && Conserved(s)
    ensures AllBalanced(Apply(cfg, s, a)) && Conserved(Apply(cfg, s, a))
  {
    hide Custody, AllBalanced, Conserved, ClaimStep, AdvanceStep, FailStep, CanAdvance, OtherTakeStep, Publish, Retry;
    hide Subscribe;
    match a {
      case Advances(w, verdict) => AdvanceKeepsBooks(cfg, s, w, verdict);
      case Fails(w, error) => FailKeepsBooks(cfg, s, w, error);
      case Claims(w) => ClaimKeepsBooks(cfg, s, w);
      case _ => OtherKeepsBooks(cfg, s, a);
    }
  }

  lemma OtherAcked(cfg: Config, s: System, a: Action)
    requires Enabled(cfg, s, a) && OthersOk(s.bus, s.others) && !a.Advances? && !a.Fails? && !a.Claims?
    ensures forall k: AckKey :: (k.topic, k.group) == REQUESTS ==>
        (k in Apply(cfg, s, a).bus.acknowledged <==> k in s.bus.acknowledged)
  {
  }

  // ---------- Bounded delivery ----------

  /** How often a request first published with attempt `a` may be delivered. */
  function DeliveryLimit(cfg: Config, a: nat): int {
    if cfg.maxDeliveryAttempts - a > 1 then cfg.maxDeliveryAttempts - a else 1
  }

  function TimesDelivered(s: System, partition: nat, offset: nat): nat {
    if (partition, offset) in s.deliveries then s.deliveries[(partition, offset)] else 0
  }

  /** The attempt a delivery's request was published with. */
  function FirstAttempt(m: ConsumedEvent): int {
    m.event.attempt - m.deliveryCount + 1
  }

  predicate WithinLimit(cfg: Config, m: ConsumedEvent) {
    FirstAttempt(m) >= 0 && m.deliveryCount <= DeliveryLimit(cfg, FirstAttempt(m))
  }

  ghost predicate QueueCounts(cfg: Config, s: System) {
    REQUESTS in s.bus.queues ==>
      forall m :: m in s.bus.queues[REQUESTS] ==>
        WithinLimit(cfg, m) && m.deliveryCount == TimesDelivered(s, m.partition, m.offset) + 1
  }

  ghost predicate HeldCounts(cfg: Config, s: System) {
    forall w :: 0 <= w < |s.pcs| && Held(s.pcs[w]).Some? ==>
      var m := Held(s.pcs[w]).value;
      && WithinLimit(cfg, m) && m.deliveryCount == TimesDelivered(s, m.partition, m.offset)
      && (s.pcs[w].Retrying? ==> m.event.attempt + 1 < cfg.maxDeliveryAttempts)
  }

  ghost predicate EntryCounts(cfg: Config, s: System) {
    && (forall e :: e in Log(s.bus, OptimizationRequests) ==>
          TimesDelivered(s, e.partition, e.offset) <= DeliveryLimit(cfg, e.event.attempt))
    && (forall id :: id in s.deliveries ==>
          && REQUESTS in s.bus.queues
          && exists e :: e in Log(s.bus, OptimizationRequests) && (e.partition, e.offset) == id)
  }

  ghost predicate Metered(cfg: Config, s: System) {
    QueueCounts(cfg, s) && HeldCounts(cfg, s) && EntryCounts(cfg, s)
  }

  // ---------- Steps keep the meter ----------

  /** The request topic and its queue are as before. */
  predicate SameRequests(bus: BusState, bus': BusState) {
    && Log(bus', OptimizationRequests) == Log(bus, OptimizationRequests)
    && (REQUESTS in bus'.queues <==> REQUESTS in bus.queues)
    && (REQUESTS in bus.queues ==> bus'.queues[REQUESTS] == bus.queues[REQUESTS])
  }

  lemma MeteredOnBus(cfg: Config, s: System, s': System)
    requires Metered(cfg, s) && SameRequests(s.bus, s'.bus) && s'.pcs == s.pcs && s'.deliveries == s.deliveries
    ensures Metered(cfg, s')
  {
    hide WithinLimit, DeliveryLimit, Held;
  }

  lemma MeteredMove(cfg: Config, s: System, w: nat, o: Outcome)
    requires Metered(cfg, s) && w < |s.pcs| == |s.stats| && SameRequests(s.bus, o.bus)
    requires Held(o.pc) == Held(s.pcs[w]) || Held(o.pc).None?
    requires o.pc.Retrying? ==> o.pc.message.event.attempt + 1 < cfg.maxDeliveryAttempts
    ensures Metered(cfg, Install(s, w, o))
  {
  }

  lemma PostMetered(cfg: Config, s: System, topic: Topic, event: EventEnvelope, key: string)
    requires Custody(s) && Metered(cfg, s)
    ensures Metered(cfg, s.(bus := Post(s.bus, topic, event, key)))
  {
    var e := NewEntry(s.bus, topic, event, key);
    AppendKeepsLogs(s.bus, topic, event, key);
    assert e.topic == topic;
    hide Custody, NewEntry;
    if topic == OptimizationRequests {
      hide Metered;
      AppendMetered(cfg, s, e);
    } else {
      hide Metered;
      MeteredOnBus(cfg, s, s.(bus := Post(s.bus, topic, event, key)));
    }
  }

  /** A new request has not been delivered before. */
  lemma AppendMetered(cfg: Config, s: System, e: PublishedEvent)
    requires Metered(cfg, s) && e.topic == OptimizationRequests
    requires forall x :: x in Log(s.bus, OptimizationRequests) ==> (x.partition, x.offset) != (e.partition, e.offset)
    ensures Metered(cfg, s.(bus := Append(s.bus, e)))
  {
    var s' := s.(bus := Append(s.bus, e));
    var c := FirstCopy(e, "", "");
    FirstWithinLimit(cfg, e, "");
    assert TimesDelivered(s, e.partition, e.offset) == 0;
    hide WithinLimit;
    assert HeldCounts(cfg, s');
    hide HeldCounts;
    assert EntryCounts(cfg, s') by {
      forall id | id in s'.deliveries
        ensures REQUESTS in s'.bus.queues
        ensures exists x :: x in Log(s'.bus, OptimizationRequests) && (x.partition, x.offset) == id
      {
        var x :| x in Log(s.bus, OptimizationRequests) && (x.partition, x.offset) == id;
        assert x in Log(s'.bus, OptimizationRequests);
      }
    }
    hide EntryCounts, Append, DeliveryLimit;
    assert QueueCounts(cfg, s') by {
      if REQUESTS in s.bus.queues {
        AppendQueue(s.bus, e);
      }
    }
  }

  lemma AppendQueue(bus: BusState, e: PublishedEvent)
    requires REQUESTS in bus.queues && e.topic == OptimizationRequests
    ensures REQUESTS in Append(bus, e).queues
    ensures Append(bus, e).queues[REQUESTS] == bus.queues[REQUESTS] + [FirstCopy(e, "", "")]
  {
  }

  lemma FirstWithinLimit(cfg: Config, e: PublishedEvent, group: string)
    ensures WithinLimit(cfg, FirstCopy(e, group, ""))
  {
  }

  lemma SubscribeMetered(cfg: Config, s: System, topic: Topic, group: string)
    requires Metered(cfg, s) && Subscribe(s.bus, topic, group).Ok?
    ensures Metered(cfg, s.(bus := Subscribe(s.bus, topic, group).value))
  {
    var s' := s.(bus := Subscribe(s.bus, topic, group).value);
    hide WithinLimit;
    if (topic, group) == REQUESTS && REQUESTS !in s.bus.queues {
      var log, q := Log(s.bus, topic), s'.bus.queues[REQUESTS];
      ReplayFacts(log, group);
      assert s.deliveries == map[];
      forall m | m in q ensures WithinLimit(cfg, m)
          && m.deliveryCount == TimesDelivered(s', m.partition, m.offset) + 1 {
        var i :| 0 <= i < |q| && q[i] == m;
        FirstWithinLimit(cfg, log[i], group);
      }
    } else {
      MeteredOnBus(cfg, s, s');
    }
  }

  /** The claimed delivery is the head of the queue; no other queued or held delivery has
      its place. */
  lemma ClaimIsAlone(s: System)
    requires Custody(s) && QueueReady(s.bus, REQUESTS)
    ensures var q := s.bus.queues[REQUESTS]; var m := q[0];
      && Take(s.bus, OptimizationRequests, GROUP, "worker")
           == (s.bus.(queues := s.bus.queues[REQUESTS := q[1..]]),
               Some(m.(consumerGroup := GROUP, consumerId := "worker")))
      && HoldsRequest(s.bus, m.(consumerGroup := GROUP, consumerId := "worker"))
      && (forall x :: x in q[1..] ==> x in q && (x.partition, x.offset) != (m.partition, m.offset))
      && (forall v :: 0 <= v < |s.pcs| && Held(s.pcs[v]).Some? ==>
            var x := Held(s.pcs[v]).value; (x.partition, x.offset) != (m.partition, m.offset))
  {
  }

  lemma ClaimMetered(cfg: Config, s: System, w: nat)
    requires Enabled(cfg, s, Claims(w)) && Custody(s) && Metered(cfg, s)
    ensures Metered(cfg, ClaimStep(cfg, s, w))
  {
    hide Custody, Validate, Take;
    ClaimIsAlone(s);
    var q := s.bus.queues[REQUESTS];
    var m := q[0].(consumerGroup := GROUP, consumerId := "worker");
    assert q[0] in q;
    assert WithinLimit(cfg, m) && m.deliveryCount == TimesDelivered(s, m.partition, m.offset) + 1;
    ClaimedEntries(cfg, s, m);
    hide WithinLimit, Metered, DeliveryLimit;
    MeteredAfterClaim(cfg, s, w, Claimed(cfg, s, w, s.bus.(queues := s.bus.queues[REQUESTS := q[1..]]), m), m);
  }

  lemma MeteredAfterClaim(cfg: Config, s: System, w: nat, o: Outcome, m: ConsumedEvent)
    requires Metered(cfg, s) && REQUESTS in s.bus.queues && s.bus.queues[REQUESTS] != [] && w < |s.pcs| == |s.stats|
    requires var q := s.bus.queues[REQUESTS];
      && (forall x :: x in q[1..] ==> x in q && (x.partition, x.offset) != (m.partition, m.offset))
      && o.bus == s.bus.(queues := s.bus.queues[REQUESTS := q[1..]])
    requires forall v :: 0 <= v < |s.pcs| && Held(s.pcs[v]).Some? ==>
      var x := Held(s.pcs[v]).value; (x.partition, x.offset) != (m.partition, m.offset)
    requires WithinLimit(cfg, m) && m.deliveryCount == TimesDelivered(s, m.partition, m.offset) + 1
    requires forall e :: e in Log(s.bus, OptimizationRequests) && (e.partition, e.offset) == (m.partition, m.offset) ==>
      m.deliveryCount <= DeliveryLimit(cfg, e.event.attempt)
    requires exists e :: e in Log(s.bus, OptimizationRequests) && (e.partition, e.offset) == (m.partition, m.offset)
    requires Held(o.pc) == Some(m) && !o.pc.Retrying?
    ensures Metered(cfg, Install(s, w, o).(deliveries := Delivered(s.deliveries, m)))
  {
    var s' := Install(s, w, o).(deliveries := Delivered(s.deliveries, m));
    hide WithinLimit, DeliveryLimit;
    MeterEntries(cfg, s, s', m);
    hide EntryCounts, Held;
    assert HeldCounts(cfg, s');
    hide HeldCounts;
    assert QueueCounts(cfg, s');
  }

  lemma ClaimedEntries(cfg: Config, s: System, m: ConsumedEvent)
    requires Custody(s) && HoldsRequest(s.bus, m) && WithinLimit(cfg, m)
        && m.deliveryCount == TimesDelivered(s, m.partition, m.offset) + 1
    ensures forall e :: e in Log(s.bus, OptimizationRequests) && (e.partition, e.offset) == (m.partition, m.offset) ==>
      m.deliveryCount <= DeliveryLimit(cfg, e.event.attempt)
    ensures exists e :: e in Log(s.bus, OptimizationRequests) && (e.partition, e.offset) == (m.partition, m.offset)
  {
    LogIds(s.bus, OptimizationRequests);
  }

  lemma MeterEntries(cfg: Config, s: System, s': System, m: ConsumedEvent)
    requires EntryCounts(cfg, s) && REQUESTS in s'.bus.queues && s'.bus.logs == s.bus.logs
    requires s'.deliveries == Delivered(s.deliveries, m)
        && m.deliveryCount == TimesDelivered(s, m.partition, m.offset) + 1
    requires forall e :: e in Log(s.bus, OptimizationRequests) && (e.partition, e.offset) == (m.partition, m.offset) ==>
      m.deliveryCount <= DeliveryLimit(cfg, e.event.attempt)
    requires exists e :: e in Log(s.bus, OptimizationRequests) && (e.partition, e.offset) == (m.partition, m.offset)
    ensures EntryCounts(cfg, s')
  {
    hide DeliveryLimit;
  }

  /** A retry asks for one more delivery, still within the limit. */
  lemma RetriedWithinLimit(cfg: Config, m: ConsumedEvent)
    requires WithinLimit(cfg, m) && m.event.attempt + 1 < cfg.maxDeliveryAttempts
    ensures WithinLimit(cfg, Retried(m))
  {
  }

  lemma RetryMetered(cfg: Config, s: System, w: nat, o: Outcome)
    requires Custody(s) && Metered(cfg, s) && w < |s.pcs| == |s.stats| && s.pcs[w].Retrying? && Held(o.pc).None?
    requires Retry(s.bus, s.pcs[w].message, s.pcs[w].reason) == Ok(o.bus)
    ensures Metered(cfg, Install(s, w, o))
  {
    var m := Held(s.pcs[w]).value;
    assert HoldsRequest(s.bus, m);
    RetriedWithinLimit(cfg, m);
    assert m.deliveryCount == TimesDelivered(s, m.partition, m.offset);
    hide Custody, HasEntry, WithinLimit, Metered;
    MeteredAfterRetry(cfg, s, w, o, Retried(m));
  }

  lemma MeteredAfterRetry(cfg: Config, s: System, w: nat, o: Outcome, r: ConsumedEvent)
    requires Metered(cfg, s) && w < |s.pcs| == |s.stats| && Held(o.pc).None?
    requires REQUESTS in s.bus.queues
    requires o.bus == s.bus.(queues := s.bus.queues[REQUESTS := s.bus.queues[REQUESTS] + [r]])
    requires WithinLimit(cfg, r) && r.deliveryCount == TimesDelivered(s, r.partition, r.offset) + 1
    ensures Metered(cfg, Install(s, w, o))
  {
  }

  lemma AdvanceMetered(cfg: Config, s: System, w: nat, verdict: bool)
    requires Enabled(cfg, s, Advances(w, verdict)) && Custody(s) && Metered(cfg, s)
    ensures Metered(cfg, AdvanceStep(cfg, s, w, verdict))
  {
    var o, pc := Advance(cfg, s, w, verdict), s.pcs[w];
    AdvanceBus(cfg, s, w, verdict);
    AdvanceHolds(cfg, s, w, verdict);
    NeverIntoRetry(cfg, s, w, verdict);
    hide Custody, Metered, Advance, CanAdvance, NewEntry;
    if pc.Retrying? {
      RetryMetered(cfg, s, w, o);
    } else {
      assert SameRequests(s.bus, o.bus);
      MeteredMove(cfg, s, w, o);
    }
  }

  lemma NeverIntoRetry(cfg: Config, s: System, w: nat, verdict: bool)
    requires Enabled(cfg, s, Advances(w, verdict))
    ensures !Advance(cfg, s, w, verdict).pc.Retrying?
  {
    hide Post, Retry, Acknowledge, Unlocked, LockKeyOf, Publish, ResultEvent, DeadLetterEvent, Store;
  }

  lemma FailMetered(cfg: Config, s: System, w: nat, error: string)
    requires Enabled(cfg, s, Fails(w, error)) && Metered(cfg, s)
    ensures Metered(cfg, FailStep(cfg, s, w, error))
  {
    hide Metered, Unlocked, Install;
    MeteredMove(cfg, s, w, Failed(cfg, s, w, error));
  }

  lemma OtherMetered(cfg: Config, s: System, a: Action)
    requires Enabled(cfg, s, a) && Custody(s) && Metered(cfg, s) && (a.OtherTakes? || a.OtherAcks? || a.OtherRetries?)
    ensures Metered(cfg, Apply(cfg, s, a))
  {
    hide Metered, Apply, Enabled, Custody;
    OtherStepGrows(cfg, s, a);
    OtherRequests(cfg, s, a);
    MeteredOnBus(cfg, s, Apply(cfg, s, a));
  }

  lemma PublishMetered(cfg: Config, s: System, topic: Topic, event: EventEnvelope, key: string)
    requires Enabled(cfg, s, Publishes(topic, event, key)) && Custody(s) && Metered(cfg, s)
    ensures Metered(cfg, Apply(cfg, s, Publishes(topic, event, key)))
  {
    hide Metered, Custody, NewEntry, Append;
    PostMetered(cfg, s, topic, event, key);
  }

  lemma MeteredStep(cfg: Config, s: System, a: Action)
    requires Enabled(cfg, s, a) && Custody(s) && Metered(cfg, s)
    ensures Metered(cfg, Apply(cfg, s, a))
  {
    hide Metered, Custody, ClaimStep, AdvanceStep, FailStep, CanAdvance, OtherTakeStep, Publish, Retry, Subscribe;
    match a {
      case Publishes(topic, event, key) => PublishMetered(cfg, s, topic, event, key);
      case Subscribes(topic, group) => SubscribeMetered(cfg, s, topic, group);
      case Claims(w) => ClaimMetered(cfg, s, w);
      case Advances(w, verdict) => AdvanceMetered(cfg, s, w, verdict);
      case Fails(w, error) => FailMetered(cfg, s, w, error);
      case _ => OtherMetered(cfg, s, a);
    }
  }

  lemma OtherRequests(cfg: Config, s: System, a: Action)
    requires Enabled(cfg, s, a) && Custody(s) && (a.OtherTakes? || a.OtherAcks? || a.OtherRetries?)
    ensures SameRequests(s.bus, Apply(cfg, s, a).bus)
  {
    assert a.OtherAcks? || a.OtherRetries? ==> (a.m.topic, a.m.consumerGroup) != REQUESTS by {
      assert OthersOk(s.bus, s.others);
      hide Custody, HasEntry;
    }
    hide Custody, SameRequests;
    match a {
      case OtherTakes(topic, group, consumer) => TakeElsewhere(s.bus, topic, group, consumer);
      case OtherRetries(m, reason) => RetryElsewhere(s.bus, m, reason);
      case OtherAcks(m) => AckElsewhere(s.bus, m);
    }
  }

  lemma TakeElsewhere(bus: BusState, topic: Topic, group: string, consumer: string)
    requires (topic, group) != REQUESTS && QueueReady(bus, (topic, group))
    ensures SameRequests(bus, Take(bus, topic, group, consumer).0)
  {
  }

  lemma RetryElsewhere(bus: BusState, m: ConsumedEvent, reason: string)
    requires (m.topic, m.consumerGroup) != REQUESTS && Retry(bus, m, reason).Ok?
    ensures SameRequests(bus, Retry(bus, m, reason).value)
  {
  }

  lemma AckElsewhere(bus: BusState, m: ConsumedEvent)
    ensures SameRequests(bus, Acknowledge(bus, m))
  {
  }

  // ---------- Quiescence ----------

  /** Nothing queued for the workers and nothing in their hands. */
  predicate Quiescent(s: System) {
    && REQUESTS in s.bus.queues && s.bus.queues[REQUESTS] == []
    && forall w :: 0 <= w < |s.pcs| ==> s.pcs[w].Idle?
  }

  function Total(stats: seq<WorkerStats>): nat {
    if stats == [] then 0 else stats[0].completed + stats[0].failed + stats[0].duplicates + Total(stats[1..])
  }

  lemma {:induction false} IdleTotal(stats: seq<WorkerStats>, pcs: seq<Pc>)
    requires |stats| == |pcs| && forall w :: 0 <= w < |pcs| ==> pcs[w].Idle?
    ensures TotalSettled(stats, pcs) == Total(stats)
  {
    if stats == [] {
    } else {
      assert pcs[0].Idle?;
      IdleTotal(stats[1..], pcs[1..]);
    }
  }

  function LogKeys(log: seq<PublishedEvent>): set<AckKey> {
    set e | e in log :: EntryKey(e, GROUP)
  }

  lemma LogKeysCount(log: seq<PublishedEvent>)
    requires forall i, j :: 0 <= i < j < |log| ==> EntryKey(log[i], GROUP) != EntryKey(log[j], GROUP)
    ensures |LogKeys(log)| == |log|
  {
    var keys := seq(|log|, i requires 0 <= i < |log| => EntryKey(log[i], GROUP));
    CountDistinct(keys);
    forall e | e in log ensures EntryKey(e, GROUP) in Elements(keys) {
      var i :| 0 <= i < |log| && log[i] == e;
      assert keys[i] == EntryKey(e, GROUP);
    }
    assert LogKeys(log) == Elements(keys);
  }

  /** When every worker is idle and the queue is drained, every request ever published is
      counted exactly once as completed, failed or duplicate. */
  lemma Conservation(s: System)
    requires Custody(s) && Conserved(s) && Quiescent(s)
    ensures |Log(s.bus, OptimizationRequests)| == Total(s.stats)
  {
    var log := Log(s.bus, OptimizationRequests);
    IdleTotal(s.stats, s.pcs);
    LogIds(s.bus, OptimizationRequests);
    LogKeysCount(log);
    assert QueueLive(s.bus, InFlight(s), REQUESTS);
    forall e | e in log ensures EntryKey(e, GROUP) in AckedRequests(s.bus) {
      assert EntryKey(e, GROUP) !in OtherKeys(s.others);
    }
    forall k | k in AckedRequests(s.bus) ensures k in LogKeys(log) {
      assert KnownKey(s.bus, k);
    }
    assert AckedRequests(s.bus) == LogKeys(log);
  }
}

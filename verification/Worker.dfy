/** Optimization workers interleaving over one bus: each worker's `process` cut into the
    atomic steps between its awaits, with failure possible inside the try block. */
module Worker {
  import opened Ordering
  import opened Contracts
  import opened Bus
  import opened Locks

  const GROUP := "kuber-optimization-workers"
  const REQUESTS: GroupKey := (OptimizationRequests, GROUP)

  datatype Task = Task(taskId: string, workloadId: string, namespace: string, contextRef: string)

  datatype WorkerStats = WorkerStats(claimed: nat, completed: nat, failed: nat, retried: nat, duplicates: nat)

  /** Where a worker is in `process`; `message` is the delivery it has yet to resolve. */
  datatype Pc =
    | Idle
    | CheckingDuplicate(message: ConsumedEvent, task: Task)
    | PublishingDuplicate(message: ConsumedEvent, found: Payload)
    | AckingDuplicate(message: ConsumedEvent)
    | Crashed(message: ConsumedEvent)
    | Locking(message: ConsumedEvent, task: Task)
    | Running(message: ConsumedEvent, task: Task)
    | Storing(message: ConsumedEvent, task: Task, result: Payload)
    | Publishing(message: ConsumedEvent, task: Task, result: Payload)
    | Acking(message: ConsumedEvent, task: Task, result: Payload)
    | Releasing(done: ConsumedEvent, task: Task)
    | Retrying(message: ConsumedEvent, reason: string)
    | DeadLettering(message: ConsumedEvent, reason: string)
    | AckingDeadLetter(message: ConsumedEvent)

  /** Each worker has a cluster name and a deduplication store, its own or a shared one;
      `contexts` maps a context reference to the service it was indexed for. */
  datatype Config = Config(
    clusters: seq<string>, storeOf: seq<nat>, maxDeliveryAttempts: int, contexts: map<string, string>)

  /** `others` are deliveries held by consumers of other groups; `deliveries` counts how
      often each request has been handed to a worker. */
  datatype System = System(
    bus: BusState, pcs: seq<Pc>, stats: seq<WorkerStats>,
    stores: map<nat, map<string, Payload>>, locks: map<string, nat>,
    others: set<ConsumedEvent>, deliveries: map<(nat, nat), nat>)

  ghost predicate WellFormed(cfg: Config, s: System) {
    |cfg.clusters| == |cfg.storeOf| == |s.pcs| == |s.stats|
  }

  function Initial(partitions: nat, workers: nat): System {
    System(BusState(partitions, map[], map[], {}, false), seq(workers, _ => Idle),
           seq(workers, _ => WorkerStats(0, 0, 0, 0, 0)), map[], map[], {}, map[])
  }

  // ---------- Validation ----------

  predicate Given(part: Option<string>) {
    part.Some? && part.value != ""
  }

  /** `_validate`: None stands for its KeyError and ValueError cases. */
  function Validate(cfg: Config, e: EventEnvelope): Option<Task> {
    match e.payload
    case RequestPayload(taskId, workloadId, namespace, contextRef) =>
      if e.eventType.WorkloadOptimizationRequested?
         && Given(taskId) && Given(workloadId) && Given(namespace) && Given(contextRef)
         && contextRef.value in cfg.contexts && cfg.contexts[contextRef.value] == workloadId.value
      then Some(Task(taskId.value, workloadId.value, namespace.value, contextRef.value))
      else None
    case _ => None
  }

  function LockKeyOf(cfg: Config, w: nat, task: Task): Result<string, ()>
    requires w < |cfg.clusters|
  {
    WorkloadLockKey(cfg.clusters[w], task.namespace, task.workloadId)
  }

  function Store(s: System, id: nat): map<string, Payload> {
    if id in s.stores then s.stores[id] else map[]
  }

  // ---------- Steps ----------

  datatype Action =
    | Publishes(topic: Topic, event: EventEnvelope, key: string)
    | Subscribes(topic: Topic, group: string)
    | Claims(w: nat)
    | Advances(w: nat, verdict: bool)
    | Fails(w: nat, error: string)
    | OtherTakes(topic: Topic, group: string, consumer: string)
    | OtherAcks(m: ConsumedEvent)
    | OtherRetries(m: ConsumedEvent, reason: string)

  /** What one worker's step leaves: its own position and counters, and the shared bus,
      stores and locks. */
  datatype Outcome = Outcome(
    pc: Pc, bus: BusState, stats: WorkerStats, stores: map<nat, map<string, Payload>>, locks: map<string, nat>)

  function Goto(s: System, w: nat, pc: Pc): Outcome
    requires w < |s.pcs| == |s.stats|
  {
    Outcome(pc, s.bus, s.stats[w], s.stores, s.locks)
  }

  function Install(s: System, w: nat, o: Outcome): System
    requires w < |s.pcs| == |s.stats|
  {
    s.(pcs := s.pcs[w := o.pc], bus := o.bus, stats := s.stats[w := o.stats], stores := o.stores, locks := o.locks)
  }

  function Delivered(d: map<(nat, nat), nat>, m: ConsumedEvent): map<(nat, nat), nat> {
    var id := (m.partition, m.offset);
    d[id := (if id in d then d[id] else 0) + 1]
  }

  predicate QueueReady(bus: BusState, g: GroupKey) {
    g in bus.queues && bus.queues[g] != []
  }

  /** The next delivery reaches a worker, which counts and validates it before it first
      awaits anything. */
  function Claimed(cfg: Config, s: System, w: nat, bus': BusState, m: ConsumedEvent): Outcome
    requires w < |s.pcs| == |s.stats|
  {
    var stats := s.stats[w].(claimed := s.stats[w].claimed + 1);
    match Validate(cfg, m.event)
    case Some(task) => Outcome(CheckingDuplicate(m, task), bus', stats, s.stores, s.locks)
    case None => Outcome(DeadLettering(m, "invalid task"), bus', stats.(failed := stats.failed + 1), s.stores, s.locks)
  }

  function ClaimStep(cfg: Config, s: System, w: nat): System
    requires w < |s.pcs| == |s.stats| && QueueReady(s.bus, REQUESTS)
  {
    var (bus', claimed) := Take(s.bus, OptimizationRequests, GROUP, "worker");
    match claimed
    case None => s.(bus := bus')
    case Some(m) => Install(s, w, Claimed(cfg, s, w, bus', m)).(deliveries := Delivered(s.deliveries, m))
  }

  function ResultEvent(m: ConsumedEvent, payload: Payload): EventEnvelope {
    EventEnvelope(WorkloadOptimizationCompleted, m.event.runId, m.event.correlationId, 0, payload)
  }

  function Post(bus: BusState, topic: Topic, event: EventEnvelope, key: string): BusState
    requires bus.partitions >= 1
  {
    Append(bus, NewEntry(bus, topic, event, key))
  }

  predicate HoldsLock(pc: Pc) {
    pc.Running? || pc.Storing? || pc.Publishing? || pc.Acking? || pc.Releasing?
  }

  /** Leaving the `async with` block gives the workload lock back. */
  function Unlocked(cfg: Config, s: System, w: nat): map<string, nat>
    requires w < |s.pcs| && w < |cfg.clusters|
  {
    if HoldsLock(s.pcs[w])
        && LockKeyOf(cfg, w, s.pcs[w].task).Ok? then s.locks - {LockKeyOf(cfg, w, s.pcs[w].task).value}
    else s.locks
  }

  /** A worker can take its next step: the lock it wants is free, the bus accepts what it
      publishes, the group it retries into exists. */
  predicate CanAdvance(cfg: Config, s: System, w: nat)
    requires w < |s.pcs| && w < |cfg.clusters| && s.bus.partitions >= 1
  {
    match s.pcs[w]
    case Idle => false
    case Crashed(_) => false
    case Locking(_, task) => LockKeyOf(cfg, w, task).Ok? && LockKeyOf(cfg, w, task).value !in s.locks
    case PublishingDuplicate(m, found) => Bus.Publish(s.bus, OptimizationResults, ResultEvent(m, found), m.key).Ok?
    case Publishing(m, _, result) => Bus.Publish(s.bus, OptimizationResults, ResultEvent(m, result), m.key).Ok?
    case DeadLettering(m, reason) => Bus.Publish(s.bus, Dlq, DeadLetterEvent(m, reason), m.key).Ok?
    case Retrying(m, reason) => Retry(s.bus, m, reason).Ok?
    case _ => true
  }

  /** One atomic step of `process`; `verdict` is what the workload graph decides. */
  function Advance(cfg: Config, s: System, w: nat, verdict: bool): Outcome
    requires w < |s.pcs| && |cfg.clusters| == |cfg.storeOf| == |s.pcs| == |s.stats| && s.bus.partitions >= 1
    requires CanAdvance(cfg, s, w)
  {
    var stats := s.stats[w];
    match s.pcs[w]
    case Idle => Goto(s, w, Idle)
    case Crashed(m) => Goto(s, w, Crashed(m))
    case CheckingDuplicate(m, task) =>
      var store := Store(s, cfg.storeOf[w]);
      if task.taskId in store then
        Goto(s, w, PublishingDuplicate(m, store[task.taskId])).(stats := stats.(duplicates := stats.duplicates + 1))
      else if LockKeyOf(cfg, w, task).Err? then Goto(s, w, Crashed(m))
      else Goto(s, w, Locking(m, task))
    case PublishingDuplicate(m, found) =>
      Goto(s, w, AckingDuplicate(m)).(bus := Post(s.bus, OptimizationResults, ResultEvent(m, found), m.key))
    case AckingDuplicate(m) => Goto(s, w, Idle).(bus := Acknowledge(s.bus, m))
    case Locking(m, task) => Goto(s, w, Running(m, task)).(locks := s.locks[LockKeyOf(cfg, w, task).value := w])
    case Running(m, task) => Goto(s, w, Storing(m, task, ResultPayload(task.taskId, task.workloadId, verdict)))
    case Storing(m, task, result) =>
      Goto(s, w, Publishing(m, task, result))
        .(stores := s.stores[cfg.storeOf[w] := Store(s, cfg.storeOf[w])[task.taskId := result]])
    case Publishing(m, task, result) =>
      Goto(s, w, Acking(m, task, result)).(bus := Post(s.bus, OptimizationResults, ResultEvent(m, result), m.key))
    case Acking(m, task, _) => Goto(s, w, Releasing(m, task)).(bus := Acknowledge(s.bus, m))
    case Releasing(_, _) =>
      Goto(s, w, Idle).(stats := stats.(completed := stats.completed + 1), locks := Unlocked(cfg, s, w))
    case Retrying(m, reason) => Goto(s, w, Idle).(bus := Retry(s.bus, m, reason).value)
    case DeadLettering(m, reason) =>
      Goto(s, w, AckingDeadLetter(m)).(bus := Post(s.bus, Dlq, DeadLetterEvent(m, reason), m.key))
    case AckingDeadLetter(m) => Goto(s, w, Idle).(bus := Acknowledge(s.bus, m))
  }

  function AdvanceStep(cfg: Config, s: System, w: nat, verdict: bool): System
    requires w < |s.pcs| && |cfg.clusters| == |cfg.storeOf| == |s.pcs| == |s.stats| && s.bus.partitions >= 1
    requires CanAdvance(cfg, s, w)
  {
    Install(s, w, Advance(cfg, s, w, verdict))
  }

  /** The try block: acquiring the lock, running, storing, publishing, acknowledging. */
  predicate InTryBlock(pc: Pc) {
    pc.Locking? || pc.Running? || pc.Storing? || pc.Publishing? || pc.Acking?
  }

  /** An exception: the lock is released, then the delivery is to be retried or given up. */
  function Failed(cfg: Config, s: System, w: nat, error: string): Outcome
    requires w < |s.pcs| == |s.stats| == |cfg.clusters| && InTryBlock(s.pcs[w])
  {
    var m := s.pcs[w].message;
    var stats := s.stats[w];
    var o := if m.event.attempt + 1 < cfg.maxDeliveryAttempts
      then Goto(s, w, Retrying(m, error)).(stats := stats.(retried := stats.retried + 1))
      else Goto(s, w, DeadLettering(m, error)).(stats := stats.(failed := stats.failed + 1));
    o.(locks := Unlocked(cfg, s, w))
  }

  function FailStep(cfg: Config, s: System, w: nat, error: string): System
    requires w < |s.pcs| == |s.stats| == |cfg.clusters| && InTryBlock(s.pcs[w])
  {
    Install(s, w, Failed(cfg, s, w, error))
  }

  ghost predicate Enabled(cfg: Config, s: System, a: Action) {
    WellFormed(cfg, s) && s.bus.partitions >= 1 &&
    match a
    case Publishes(topic, event, key) => Bus.Publish(s.bus, topic, event, key).Ok?
    case Subscribes(topic, group) => Subscribe(s.bus, topic, group).Ok?
    case Claims(w) => w < |s.pcs| && s.pcs[w].Idle? && QueueReady(s.bus, REQUESTS)
    case Advances(w, _) => w < |s.pcs| && CanAdvance(cfg, s, w)
    case Fails(w, error) => w < |s.pcs| && InTryBlock(s.pcs[w]) && error != ""
    case OtherTakes(topic, group, _) => (topic, group) != REQUESTS && QueueReady(s.bus, (topic, group))
    case OtherAcks(m) => m in s.others
    case OtherRetries(m, reason) => m in s.others && Retry(s.bus, m, reason).Ok?
  }

  function OtherTakeStep(s: System, topic: Topic, group: string, consumer: string): System
    requires QueueReady(s.bus, (topic, group))
  {
    var (bus', claimed) := Take(s.bus, topic, group, consumer);
    s.(bus := bus', others := s.others + if claimed.Some? then {claimed.value} else {})
  }

  ghost function Apply(cfg: Config, s: System, a: Action): System
    requires Enabled(cfg, s, a)
  {
    match a
    case Publishes(topic, event, key) => s.(bus := Bus.Publish(s.bus, topic, event, key).value)
    case Subscribes(topic, group) => s.(bus := Subscribe(s.bus, topic, group).value)
    case Claims(w) => ClaimStep(cfg, s, w)
    case Advances(w, verdict) => AdvanceStep(cfg, s, w, verdict)
    case Fails(w, error) => FailStep(cfg, s, w, error)
    case OtherTakes(topic, group, consumer) => OtherTakeStep(s, topic, group, consumer)
    case OtherAcks(m) => s.(bus := Acknowledge(s.bus, m), others := s.others - {m})
    case OtherRetries(m, reason) => s.(bus := Retry(s.bus, m, reason).value, others := s.others - {m})
  }

  ghost predicate Next(cfg: Config, s: System, a: Action, s': System) {
    Enabled(cfg, s, a) && s' == Apply(cfg, s, a)
  }

  /** A run: some interleaving of actions from an empty open bus. */
  ghost predicate Run(cfg: Config, partitions: nat, actions: seq<Action>, states: seq<System>) {
    && partitions >= 1 && |cfg.clusters| == |cfg.storeOf|
    && |states| == |actions| + 1
    && states[0] == Initial(partitions, |cfg.clusters|)
    && forall i :: 0 <= i < |actions| ==> Next(cfg, states[i], actions[i], states[i + 1])
  }

  // ---------- What a step does to the bus ----------

  predicate Posts(pc: Pc) {
    pc.PublishingDuplicate? || pc.Publishing? || pc.DeadLettering?
  }

  function PostTopic(pc: Pc): Topic {
    if pc.DeadLettering? then Dlq else OptimizationResults
  }

  function PostEvent(pc: Pc): EventEnvelope
    requires Posts(pc)
  {
    match pc
    case PublishingDuplicate(m, found) => ResultEvent(m, found)
    case Publishing(m, _, result) => ResultEvent(m, result)
    case DeadLettering(m, reason) => DeadLetterEvent(m, reason)
  }

  predicate Acks(pc: Pc) {
    pc.AckingDuplicate? || pc.Acking? || pc.AckingDeadLetter?
  }

  lemma AdvanceBus(cfg: Config, s: System, w: nat, verdict: bool)
    requires WellFormed(cfg, s) && s.bus.partitions >= 1 && w < |s.pcs| && CanAdvance(cfg, s, w)
    ensures var pc := s.pcs[w]; var bus' := Advance(cfg, s, w, verdict).bus;
      && (Posts(pc) ==> bus' == Post(s.bus, PostTopic(pc), PostEvent(pc), pc.message.key))
      && (Acks(pc) ==> bus' == Acknowledge(s.bus, pc.message))
      && (pc.Retrying? ==> Retry(s.bus, pc.message, pc.reason) == Ok(bus'))
      && (!Posts(pc) && !Acks(pc) && !pc.Retrying? ==> bus' == s.bus)
  {
    hide Post, Retry, Acknowledge, Unlocked, LockKeyOf, Publish, ResultEvent, DeadLetterEvent, Store;
  }

  // ---------- Deliveries in flight ----------

  function Held(pc: Pc): Option<ConsumedEvent> {
    if pc.Idle? || pc.Releasing? then None else Some(pc.message)
  }

  function WorkerKeys(pcs: seq<Pc>): set<AckKey> {
    set w | 0 <= w < |pcs| && Held(pcs[w]).Some? :: AckKeyOf(Held(pcs[w]).value, GROUP)
  }

  function OtherKeys(others: set<ConsumedEvent>): set<AckKey> {
    set m | m in others :: AckKeyOf(m, m.consumerGroup)
  }

  function InFlight(s: System): set<AckKey> {
    WorkerKeys(s.pcs) + OtherKeys(s.others)
  }

  /** A worker's delivery is a copy of a request entry, held by no other worker. */
  ghost predicate HoldsRequest(bus: BusState, m: ConsumedEvent) {
    m.topic == OptimizationRequests && m.consumerGroup == GROUP && HasEntry(Log(bus, OptimizationRequests), m)
  }

  ghost predicate HoldersDistinct(pcs: seq<Pc>) {
    forall v, w :: 0 <= v < w < |pcs| && Held(pcs[v]).Some? && Held(pcs[w]).Some? ==>
      AckKeyOf(Held(pcs[v]).value, GROUP) != AckKeyOf(Held(pcs[w]).value, GROUP)
  }

  ghost predicate OthersOk(bus: BusState, others: set<ConsumedEvent>) {
    && (forall m :: m in others ==> (m.topic, m.consumerGroup) != REQUESTS && HasEntry(Log(bus, m.topic), m))
    && (forall m, n :: m in others && n in others && AckKeyOf(m, m.consumerGroup) == AckKeyOf(n, n.consumerGroup) ==>
        m == n)
  }

  ghost predicate Custody(s: System) {
    && Live(s.bus, InFlight(s))
    && (forall w :: 0 <= w < |s.pcs| && Held(s.pcs[w]).Some? ==> HoldsRequest(s.bus, Held(s.pcs[w]).value))
    && HoldersDistinct(s.pcs)
    && OthersOk(s.bus, s.others)
  }

  lemma KeysKept(pcs: seq<Pc>, w: nat, pc: Pc)
    requires w < |pcs| && Held(pc) == Held(pcs[w])
    ensures WorkerKeys(pcs[w := pc]) == WorkerKeys(pcs)
    ensures HoldersDistinct(pcs) ==> HoldersDistinct(pcs[w := pc])
  {
    var pcs' := pcs[w := pc];
    assert forall v :: 0 <= v < |pcs| ==> Held(pcs'[v]) == Held(pcs[v]);
  }

  lemma KeysDropped(pcs: seq<Pc>, w: nat, pc: Pc)
    requires w < |pcs| && Held(pcs[w]).Some? && Held(pc).None? && HoldersDistinct(pcs)
    ensures WorkerKeys(pcs[w := pc]) == WorkerKeys(pcs) - {AckKeyOf(Held(pcs[w]).value, GROUP)}
    ensures HoldersDistinct(pcs[w := pc])
  {
    var k := AckKeyOf(Held(pcs[w]).value, GROUP);
    var pcs' := pcs[w := pc];
    forall x | x in WorkerKeys(pcs) - {k} ensures x in WorkerKeys(pcs') {
      var v :| 0 <= v < |pcs| && Held(pcs[v]).Some? && AckKeyOf(Held(pcs[v]).value, GROUP) == x;
      assert pcs'[v] == pcs[v];
    }
    forall x | x in WorkerKeys(pcs') ensures x in WorkerKeys(pcs) - {k} {
      var v :| 0 <= v < |pcs'| && Held(pcs'[v]).Some? && AckKeyOf(Held(pcs'[v]).value, GROUP) == x;
      assert v != w && pcs'[v] == pcs[v];
    }
  }

  lemma KeysAdded(pcs: seq<Pc>, w: nat, pc: Pc)
    requires w < |pcs| && Held(pcs[w]).None? && Held(pc).Some? && HoldersDistinct(pcs)
    requires AckKeyOf(Held(pc).value, GROUP) !in WorkerKeys(pcs)
    ensures WorkerKeys(pcs[w := pc]) == WorkerKeys(pcs) + {AckKeyOf(Held(pc).value, GROUP)}
    ensures HoldersDistinct(pcs[w := pc])
  {
    var k := AckKeyOf(Held(pc).value, GROUP);
    var pcs' := pcs[w := pc];
    assert forall v :: 0 <= v < |pcs| && v != w ==> pcs'[v] == pcs[v];
    forall x | x in WorkerKeys(pcs) + {k} ensures x in WorkerKeys(pcs') {
      if x == k {
        assert Held(pcs'[w]).Some?;
      } else {
        var v :| 0 <= v < |pcs| && Held(pcs[v]).Some? && AckKeyOf(Held(pcs[v]).value, GROUP) == x;
        assert pcs'[v] == pcs[v];
      }
    }
    forall v | 0 <= v < |pcs| && v != w
        && Held(pcs[v]).Some? ensures AckKeyOf(Held(pcs[v]).value, GROUP) in WorkerKeys(pcs) {
    }
  }

  lemma EntriesSurvive(bus: BusState, e: PublishedEvent, topic: Topic, m: ConsumedEvent)
    requires HasEntry(Log(bus, topic), m)
    ensures HasEntry(Log(Append(bus, e), topic), m)
  {
  }

  lemma PostCustody(s: System, topic: Topic, event: EventEnvelope, key: string)
    requires Custody(s)
    ensures Custody(s.(bus := Post(s.bus, topic, event, key)))
  {
    var e := NewEntry(s.bus, topic, event, key);
    PublishKeepsLive(s.bus, InFlight(s), topic, event, key);
    hide Live, HasEntry, NewEntry;
    forall w | 0 <= w < |s.pcs| && Held(s.pcs[w]).Some? ensures HoldsRequest(Append(s.bus, e), Held(s.pcs[w]).value) {
      EntriesSurvive(s.bus, e, OptimizationRequests, Held(s.pcs[w]).value);
    }
    forall m | m in s.others ensures HasEntry(Log(Append(s.bus, e), m.topic), m) {
      EntriesSurvive(s.bus, e, m.topic, m);
    }
  }

  /** A worker's key is never also held by another group. */
  lemma KeysApart(s: System, w: nat)
    requires Custody(s) && w < |s.pcs| && Held(s.pcs[w]).Some?
    ensures AckKeyOf(Held(s.pcs[w]).value, GROUP) in InFlight(s)
    ensures AckKeyOf(Held(s.pcs[w]).value, GROUP) !in OtherKeys(s.others)
  {
  }

  /** Custody does not look at locks, stores or counters. */
  lemma MoveCustody(s: System, w: nat, o: Outcome)
    requires Custody(s) && w < |s.pcs| == |s.stats| && Held(o.pc) == Held(s.pcs[w]) && o.bus == s.bus
    ensures Custody(Install(s, w, o))
  {
    KeysKept(s.pcs, w, o.pc);
    hide Live, HasEntry;
    assert InFlight(Install(s, w, o)) == InFlight(s);
  }

  lemma ResolveLive(s: System, w: nat, bus': BusState)
    requires Custody(s) && w < |s.pcs| && Held(s.pcs[w]).Some?
    requires var m := Held(s.pcs[w]).value;
      bus' == Acknowledge(s.bus, m) || (exists reason :: reason != "" && Retry(s.bus, m, reason) == Ok(bus'))
    ensures Live(bus', InFlight(s) - {AckKeyOf(Held(s.pcs[w]).value, GROUP)}) && bus'.logs == s.bus.logs
  {
    var m := Held(s.pcs[w]).value;
    assert HoldsRequest(s.bus, m);
    KeysApart(s, w);
    hide Live, InFlight, HasEntry;
    if bus' == Acknowledge(s.bus, m) {
      AckKeepsLive(s.bus, InFlight(s), m);
    } else {
      var reason :| reason != "" && Retry(s.bus, m, reason) == Ok(bus');
      RetryKeepsLive(s.bus, InFlight(s), m, reason);
    }
  }

  /** Resolving a delivery, by acknowledging it or putting it back, ends its custody. */
  lemma ResolveCustody(s: System, w: nat, o: Outcome)
    requires Custody(s) && w < |s.pcs| == |s.stats| && Held(s.pcs[w]).Some? && Held(o.pc).None?
    requires var m := Held(s.pcs[w]).value;
      o.bus == Acknowledge(s.bus, m) || (exists reason :: reason != "" && Retry(s.bus, m, reason) == Ok(o.bus))
    ensures Custody(Install(s, w, o))
  {
    ResolveLive(s, w, o.bus);
    KeysApart(s, w);
    KeysDropped(s.pcs, w, o.pc);
    hide Live, HasEntry, Acknowledge, Retry;
    assert InFlight(Install(s, w, o)) == InFlight(s) - {AckKeyOf(Held(s.pcs[w]).value, GROUP)};
  }

  lemma ClaimCustody(cfg: Config, s: System, w: nat)
    requires WellFormed(cfg, s) && Custody(s) && w < |s.pcs| && s.pcs[w].Idle? && QueueReady(s.bus, REQUESTS)
    ensures Custody(ClaimStep(cfg, s, w))
  {
    var (bus', claimed) := Take(s.bus, OptimizationRequests, GROUP, "worker");
    ClaimedDelivery(s);
    hide Take, Custody;
    AcquireCustody(s, w, Claimed(cfg, s, w, bus', claimed.value), ClaimStep(cfg, s, w));
  }

  /** What a claim hands over. */
  lemma ClaimedDelivery(s: System)
    requires Custody(s) && QueueReady(s.bus, REQUESTS)
    ensures var (bus', m) := Take(s.bus, OptimizationRequests, GROUP, "worker");
      && m.Some? && HoldsRequest(s.bus, m.value)
      && AckKeyOf(m.value, GROUP) !in InFlight(s)
      && Live(bus', InFlight(s) + {AckKeyOf(m.value, GROUP)})
      && bus' == s.bus.(queues := bus'.queues)
  {
    hide Live, HasEntry;
    TakeKeepsLive(s.bus, InFlight(s), OptimizationRequests, GROUP, "worker");
  }

  lemma AcquireCustody(s: System, w: nat, o: Outcome, s': System)
    requires Custody(s) && w < |s.pcs| == |s.stats| && Held(s.pcs[w]).None? && Held(o.pc).Some?
    requires HoldsRequest(s.bus, Held(o.pc).value) && AckKeyOf(Held(o.pc).value, GROUP) !in InFlight(s)
    requires Live(o.bus, InFlight(s) + {AckKeyOf(Held(o.pc).value, GROUP)}) && o.bus.logs == s.bus.logs
    requires s' == Install(s, w, o).(deliveries := s'.deliveries)
    ensures Custody(s')
  {
    hide Live, HasEntry;
    KeysAdded(s.pcs, w, o.pc);
    assert InFlight(s') == InFlight(s) + {AckKeyOf(Held(o.pc).value, GROUP)};
  }

  lemma PostAndMove(s: System, w: nat, o: Outcome, topic: Topic, event: EventEnvelope, key: string)
    requires Custody(s) && w < |s.pcs| == |s.stats| && Held(o.pc) == Held(s.pcs[w])
    requires o.bus == Post(s.bus, topic, event, key)
    ensures Custody(Install(s, w, o))
  {
    PostCustody(s, topic, event, key);
    hide Custody;
    MoveCustody(s.(bus := o.bus), w, o);
    assert Install(s.(bus := o.bus), w, o) == Install(s, w, o);
  }

  lemma AdvanceCustody(cfg: Config, s: System, w: nat, verdict: bool)
    requires Enabled(cfg, s, Advances(w, verdict)) && Custody(s)
    ensures Custody(AdvanceStep(cfg, s, w, verdict))
  {
    AdvanceBus(cfg, s, w, verdict);
    AdvanceHolds(cfg, s, w, verdict);
    hide Custody, Install, Advance, CanAdvance, Post;
    var o, pc := Advance(cfg, s, w, verdict), s.pcs[w];
    if Posts(pc) {
      PostAndMove(s, w, o, PostTopic(pc), PostEvent(pc), pc.message.key);
    } else if Acks(pc) || pc.Retrying? {
      ResolveCustody(s, w, o);
    } else {
      MoveCustody(s, w, o);
    }
  }

  /** A worker lets go of its delivery exactly when it acknowledges it or puts it back. */
  lemma AdvanceHolds(cfg: Config, s: System, w: nat, verdict: bool)
    requires WellFormed(cfg, s) && s.bus.partitions >= 1 && w < |s.pcs| && CanAdvance(cfg, s, w)
    ensures var pc := s.pcs[w];
      Held(Advance(cfg, s, w, verdict).pc) == if Acks(pc) || pc.Retrying? then None else Held(pc)
  {
    hide Post, Retry, Acknowledge, Unlocked, LockKeyOf, Publish, ResultEvent, DeadLetterEvent, Store;
  }

  lemma FailCustody(cfg: Config, s: System, w: nat, error: string)
    requires Enabled(cfg, s, Fails(w, error)) && Custody(s)
    ensures Custody(FailStep(cfg, s, w, error))
  {
    hide Custody, Install, Unlocked;
    MoveCustody(s, w, Failed(cfg, s, w, error));
  }

  lemma OtherTakeCustody(s: System, topic: Topic, group: string, consumer: string)
    requires Custody(s) && (topic, group) != REQUESTS && QueueReady(s.bus, (topic, group))
    ensures Custody(OtherTakeStep(s, topic, group, consumer))
  {
    hide Live, HasEntry, LogsOk;
    assert Live(s.bus, InFlight(s));
    TakeKeepsLive(s.bus, InFlight(s), topic, group, consumer);
    var (bus', claimed) := Take(s.bus, topic, group, consumer);
    assert bus'.logs == s.bus.logs;
    hide Take, Custody, InFlight;
    OtherAcquires(s, claimed.value, bus');
  }

  lemma OtherAcquires(s: System, m: ConsumedEvent, bus': BusState)
    requires Custody(s) && (m.topic, m.consumerGroup) != REQUESTS && HasEntry(Log(s.bus, m.topic), m)
    requires AckKeyOf(m, m.consumerGroup) !in InFlight(s)
    requires Live(bus', InFlight(s) + {AckKeyOf(m, m.consumerGroup)}) && bus'.logs == s.bus.logs
    ensures Custody(s.(bus := bus', others := s.others + {m}))
  {
    var s' := s.(bus := bus', others := s.others + {m});
    OtherKeysAdded(s.others, m);
    hide Live, HasEntry;
    assert InFlight(s') == InFlight(s) + {AckKeyOf(m, m.consumerGroup)};
    assert OthersOk(bus', s'.others);
    hide OthersOk, InFlight;
  }

  lemma OtherKeysAdded(others: set<ConsumedEvent>, m: ConsumedEvent)
    ensures OtherKeys(others + {m}) == OtherKeys(others) + {AckKeyOf(m, m.consumerGroup)}
    ensures forall n :: n in others ==> AckKeyOf(n, n.consumerGroup) in OtherKeys(others)
  {
  }

  lemma OtherKeysDropped(bus: BusState, others: set<ConsumedEvent>, m: ConsumedEvent)
    requires OthersOk(bus, others) && m in others
    ensures OtherKeys(others - {m}) == OtherKeys(others) - {AckKeyOf(m, m.consumerGroup)}
    ensures AckKeyOf(m, m.consumerGroup) in OtherKeys(others)
  {
  }

  /** Another group's delivery is in no worker's hands. */
  lemma NotWithWorkers(s: System, m: ConsumedEvent)
    requires Custody(s) && m in s.others
    ensures AckKeyOf(m, m.consumerGroup) !in WorkerKeys(s.pcs)
  {
  }

  lemma OtherResolveLive(s: System, m: ConsumedEvent, bus': BusState)
    requires Custody(s) && m in s.others
    requires bus' == Acknowledge(s.bus, m) || (exists reason :: reason != "" && Retry(s.bus, m, reason) == Ok(bus'))
    ensures Live(bus', InFlight(s) - {AckKeyOf(m, m.consumerGroup)}) && bus'.logs == s.bus.logs
  {
    OtherKeysDropped(s.bus, s.others, m);
    hide Live, HasEntry;
    if bus' == Acknowledge(s.bus, m) {
      AckKeepsLive(s.bus, InFlight(s), m);
    } else {
      var reason :| reason != "" && Retry(s.bus, m, reason) == Ok(bus');
      RetryKeepsLive(s.bus, InFlight(s), m, reason);
    }
  }

  lemma OtherResolveCustody(s: System, m: ConsumedEvent, bus': BusState)
    requires Custody(s) && m in s.others
    requires bus' == Acknowledge(s.bus, m) || (exists reason :: reason != "" && Retry(s.bus, m, reason) == Ok(bus'))
    ensures Custody(s.(bus := bus', others := s.others - {m}))
  {
    var s' := s.(bus := bus', others := s.others - {m});
    hide Live, HasEntry, Acknowledge, Retry;
    OtherResolveLive(s, m, bus');
    OtherKeysDropped(s.bus, s.others, m);
    NotWithWorkers(s, m);
    assert InFlight(s') == InFlight(s) - {AckKeyOf(m, m.consumerGroup)};
  }

  lemma SubscribeCustody(s: System, topic: Topic, group: string)
    requires Custody(s) && Subscribe(s.bus, topic, group).Ok?
    ensures Custody(s.(bus := Subscribe(s.bus, topic, group).value))
  {
    SubscribeKeepsLive(s.bus, InFlight(s), topic, group);
    hide Live, HasEntry;
    assert Subscribe(s.bus, topic, group).value.logs == s.bus.logs;
  }

  /** What no step changes: the number of workers and the bus's shape. */
  predicate SameFrame(s: System, r: System) {
    |r.pcs| == |s.pcs| && |r.stats| == |s.stats| && r.bus.partitions == s.bus.partitions && r.bus.closed == s.bus.closed
  }

  lemma StepFrame(cfg: Config, s: System, a: Action)
    requires Enabled(cfg, s, a)
    ensures WellFormed(cfg, Apply(cfg, s, a)) && SameFrame(s, Apply(cfg, s, a))
  {
    hide NewEntry, Replay, Unlocked, Validate, LockKeyOf;
    if a.Advances? {
      AdvanceBusShape(cfg, s, a.w, a.verdict);
    }
    hide Advance, CanAdvance;
  }

  lemma AdvanceBusShape(cfg: Config, s: System, w: nat, verdict: bool)
    requires Enabled(cfg, s, Advances(w, verdict))
    ensures var o := Advance(cfg, s, w, verdict); o.bus.partitions == s.bus.partitions && o.bus.closed == s.bus.closed
  {
    AdvanceBus(cfg, s, w, verdict);
    hide Advance, CanAdvance, NewEntry;
  }

  /** Every step of every worker and of every other consumer keeps each delivery in exactly
      one pair of hands. */
  lemma CustodyStep(cfg: Config, s: System, a: Action)
    requires Enabled(cfg, s, a) && Custody(s)
    ensures Custody(Apply(cfg, s, a))
  {
    hide Custody, ClaimStep, AdvanceStep, FailStep, OtherTakeStep, CanAdvance;
    match a {
      case Publishes(topic, event, key) => PostCustody(s, topic, event, key);
      case Subscribes(topic, group) => SubscribeCustody(s, topic, group);
      case Claims(w) => ClaimCustody(cfg, s, w);
      case Advances(w, verdict) => AdvanceCustody(cfg, s, w, verdict);
      case Fails(w, error) => FailCustody(cfg, s, w, error);
      case OtherTakes(topic, group, consumer) => OtherTakeCustody(s, topic, group, consumer);
      case OtherAcks(m) => OtherResolveCustody(s, m, Acknowledge(s.bus, m));
      case OtherRetries(m, reason) => OtherResolveCustody(s, m, Retry(s.bus, m, reason).value);
    }
  }

  lemma InitialCustody(cfg: Config, partitions: nat)
    requires partitions >= 1 && |cfg.clusters| == |cfg.storeOf|
    ensures var s := Initial(partitions, |cfg.clusters|);
      WellFormed(cfg, s) && Custody(s) && InFlight(s) == {}
  {
  }
}

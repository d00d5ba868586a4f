/** What the coordinator's verdict means. In every run its results are results of its own
    services; in a run where no worker fails between appending a result and acknowledging,
    each service reports once, and counting results is as good as checking them off. */
module CoordinatorSafety {
  import opened Ordering
  import opened Contracts
  import opened Bus
  import opened Locks
  import opened Worker
  import opened WorkerSafety
  import opened WorkerRuns
  import opened Coordinator

  function Ids(plan: Plan): set<string> {
    ServiceIds(plan, |plan.services|)
  }

  /** The services whose request has been published. */
  function Sent(plan: Plan, c: CoordinatorState): (ids: set<string>)
    ensures ids <= Ids(plan)
  {
    if c.phase.Dispatching? && c.phase.next <= |plan.services| then ServiceIds(plan, c.phase.next) else Ids(plan)
  }

  // ---------- Whose requests and results ----------

  /** A result for the task of one of the services `ids`, naming that service. */
  predicate OwnResult(plan: Plan, ids: set<string>, p: Payload) {
    p.ResultPayload? && p.workload in ids && p.task == TaskId(plan.run, p.workload)
  }

  predicate OwnRequest(plan: Plan, ids: set<string>, e: EventEnvelope) {
    && e.payload.RequestPayload? && e.payload.workloadId.Some? && e.payload.workloadId.value in ids
    && e.payload.taskId == Some(TaskId(plan.run, e.payload.workloadId.value))
  }

  /** A request of this run is one the coordinator sent; any other leaves its tasks alone. */
  predicate RequestOk(plan: Plan, ids: set<string>, e: EventEnvelope) {
    if e.runId == plan.run then OwnRequest(plan, ids, e)
    else e.payload.RequestPayload? ==> forall id :: id in Ids(plan) ==> e.payload.taskId != Some(TaskId(plan.run, id))
  }

  ghost predicate RequestsOk(plan: Plan, ids: set<string>, bus: BusState) {
    forall e :: e in Log(bus, OptimizationRequests) ==> RequestOk(plan, ids, e.event)
  }

  ghost predicate ResultsOk(plan: Plan, ids: set<string>, bus: BusState) {
    forall r :: r in Log(bus, OptimizationResults) && r.event.runId == plan.run ==>
        OwnResult(plan, ids, r.event.payload)
  }

  /** What is stored for a task of this run is a result naming the task's service. */
  ghost predicate StoredOk(plan: Plan, stores: map<nat, map<string, Payload>>) {
    forall d, id :: d in stores && id in Ids(plan) && TaskId(plan.run, id) in stores[d] ==>
      OwnResult(plan, Ids(plan), stores[d][TaskId(plan.run, id)])
  }

  predicate FoundOk(plan: Plan, pc: Pc) {
    pc.PublishingDuplicate? && pc.message.event.runId == plan.run ==> OwnResult(plan, Ids(plan), pc.found)
  }

  ghost predicate WorkersOk(plan: Plan, pcs: seq<Pc>) {
    forall w :: 0 <= w < |pcs| ==> FoundOk(plan, pcs[w])
  }

  /** An event the coordinator kept is that of a result entry of its run. */
  ghost predicate ComesFrom(plan: Plan, bus: BusState, e: EventEnvelope, r: PublishedEvent) {
    r in Log(bus, OptimizationResults) && r.event.runId == plan.run && LaterAttempt(e, r.event)
  }

  ghost predicate Published(plan: Plan, bus: BusState, e: EventEnvelope) {
    exists r :: ComesFrom(plan, bus, e, r)
  }

  ghost predicate KeptOk(plan: Plan, bus: BusState, c: CoordinatorState) {
    forall k :: 0 <= k < |c.results| ==> Published(plan, bus, c.results[k])
  }

  ghost predicate HoldingOk(plan: Plan, x: World) {
    var c := x.coordinator;
    && (c.phase.Holding? ==>
          c.phase.message in x.system.others
          && (c.phase.message.topic, c.phase.message.consumerGroup) == ResultsGroup(plan))
    && (c.phase.Dispatching? ==> c.phase.next <= |plan.services| && c.results == [])
    && |c.results| <= |plan.services|
    && (c.phase.Judged? ==> |c.results| == |plan.services| && (c.phase.passed ==> WorkloadsPassed(plan, c.results)))
  }

  /** The workers and the bus, as far as this run is concerned; `ids` are the services
      already requested. */
  ghost predicate SharedOk(cfg: Config, plan: Plan, ids: set<string>, s: System) {
    && Inv(cfg, s) && ids <= Ids(plan)
    && RequestsOk(plan, ids, s.bus) && ResultsOk(plan, ids, s.bus)
    && StoredOk(plan, s.stores) && WorkersOk(plan, s.pcs)
  }

  ghost predicate Own(cfg: Config, plan: Plan, x: World) {
    && SharedOk(cfg, plan, Sent(plan, x.coordinator), x.system)
    && KeptOk(plan, x.system.bus, x.coordinator) && HoldingOk(plan, x)
  }

  lemma SamePrefix(run: string, a: string, b: string)
    requires TaskId(run, a) == TaskId(run, b)
    ensures a == b
  {
    assert TaskId(run, a)[|run| + 1..] == a && TaskId(run, b)[|run| + 1..] == b;
  }

  // ---------- What a worker's delivery says ----------

  /** A delivery in hand is judged like the log entry it copies. */
  lemma HeldRequestOk(plan: Plan, ids: set<string>, s: System, w: nat)
    requires Custody(s) && RequestsOk(plan, ids, s.bus) && w < |s.pcs| && Held(s.pcs[w]).Some?
    ensures RequestOk(plan, ids, Held(s.pcs[w]).value.event)
  {
    assert HoldsRequest(s.bus, Held(s.pcs[w]).value);
    var e :| e in Log(s.bus, OptimizationRequests) && CopyOf(Held(s.pcs[w]).value, e);
    assert RequestOk(plan, ids, e.event);
  }

  /** The result a worker is about to store or publish for this run is one of its own. */
  lemma ComputedResultOwn(cfg: Config, plan: Plan, ids: set<string>, m: ConsumedEvent, task: Task, result: Payload)
    requires RequestOk(plan, ids, m.event) && ids <= Ids(plan)
    requires Validate(cfg, m.event) == Some(task) && IsResultOf(result, task)
    ensures m.event.runId == plan.run ==> OwnResult(plan, ids, result)
    ensures forall id :: id in Ids(plan) && task.taskId == TaskId(plan.run, id) ==> OwnResult(plan, ids, result)
  {
  }

  /** What the store offers for a task of this run is a result of its own. */
  lemma FoundResultOwn(plan: Plan, s: System, d: nat, m: ConsumedEvent, ids: set<string>)
    requires StoredOk(plan, s.stores) && RequestOk(plan, ids, m.event) && ids <= Ids(plan) && m.event.runId == plan.run
    requires m.event.payload.RequestPayload? && m.event.payload.taskId.Some?
        && m.event.payload.taskId.value in Store(s, d)
    ensures OwnResult(plan, Ids(plan), Store(s, d)[m.event.payload.taskId.value])
  {
  }

  // ---------- Steps of the workers ----------

  lemma AdvanceStores(cfg: Config, plan: Plan, ids: set<string>, s: System, w: nat, verdict: bool)
    requires Enabled(cfg, s, Advances(w, verdict)) && Custody(s) && Progress(cfg, s)
    requires RequestsOk(plan, ids, s.bus) && ids <= Ids(plan) && StoredOk(plan, s.stores)
    ensures StoredOk(plan, Advance(cfg, s, w, verdict).stores)
  {
    var pc := s.pcs[w];
    if pc.Storing? {
      HeldRequestOk(plan, ids, s, w);
      assert PcOk(cfg, s.bus, pc);
      hide Custody, Progress, RequestsOk, CanAdvance, HasResult, HasDeadLetter, RequestOk, Validate;
      ComputedResultOwn(cfg, plan, ids, pc.message, pc.task, pc.result);
      StoringStores(cfg, s, w, verdict);
    } else {
      OnlyStoringStores(cfg, s, w, verdict);
      hide Advance, CanAdvance, Custody, Progress;
    }
  }

  lemma AdvanceFound(cfg: Config, plan: Plan, ids: set<string>, s: System, w: nat, verdict: bool)
    requires Enabled(cfg, s, Advances(w, verdict)) && Custody(s) && Progress(cfg, s)
    requires RequestsOk(plan, ids, s.bus) && ids <= Ids(plan) && StoredOk(plan, s.stores)
    ensures FoundOk(plan, Advance(cfg, s, w, verdict).pc)
  {
    var pc := s.pcs[w];
    if pc.CheckingDuplicate? {
      HeldRequestOk(plan, ids, s, w);
      assert PcOk(cfg, s.bus, pc);
      hide Custody, Progress, RequestsOk, CanAdvance, HasResult, HasDeadLetter, RequestOk, LockKeyOf, OwnResult,
          StoredOk;
      if pc.task.taskId in Store(s, cfg.storeOf[w]) && pc.message.event.runId == plan.run {
        FoundResultOwn(plan, s, cfg.storeOf[w], pc.message, ids);
      }
      hide Store;
    } else {
      OnlyCheckingFinds(cfg, s, w, verdict);
      hide Advance, CanAdvance, Custody, Progress;
    }
  }

  /** What a worker appends for this run is a result of a service already requested. */
  lemma PostedOwn(cfg: Config, plan: Plan, ids: set<string>, s: System, w: nat)
    requires WellFormed(cfg, s) && Custody(s) && Progress(cfg, s) && RequestsOk(plan, ids, s.bus) && ids <= Ids(plan)
    requires WorkersOk(plan, s.pcs) && w < |s.pcs| && Posts(s.pcs[w])
    ensures PostTopic(s.pcs[w]).OptimizationResults? && PostEvent(s.pcs[w]).runId == plan.run ==>
      OwnResult(plan, ids, PostEvent(s.pcs[w]).payload)
      && s.pcs[w].message.event.payload.RequestPayload?
      && s.pcs[w].message.event.payload.taskId == Some(PostEvent(s.pcs[w]).payload.task)
  {
    var pc := s.pcs[w];
    HeldRequestOk(plan, ids, s, w);
    assert PcOk(cfg, s.bus, pc) && FoundOk(plan, pc);
    hide Custody, Progress, RequestsOk, HasResult, HasDeadLetter, WorkersOk;
    if pc.Publishing? {
      ComputedResultOwn(cfg, plan, ids, pc.message, pc.task, pc.result);
    } else if pc.PublishingDuplicate? && pc.message.event.runId == plan.run {
      SamePrefix(plan.run, pc.found.workload, pc.message.event.payload.workloadId.value);
    }
  }

  lemma AppendedResultsOk(plan: Plan, ids: set<string>, bus: BusState, topic: Topic, event: EventEnvelope, key: string)
    requires bus.partitions >= 1 && ResultsOk(plan, ids, bus)
    requires topic.OptimizationResults? && event.runId == plan.run ==> OwnResult(plan, ids, event.payload)
    ensures ResultsOk(plan, ids, Post(bus, topic, event, key))
  {
    var e := NewEntry(bus, topic, event, key);
    assert e.topic == topic && e.event == event;
    hide NewEntry, OwnResult;
  }

  lemma AppendedRequestsOk(plan: Plan, ids: set<string>, bus: BusState, topic: Topic, event: EventEnvelope, key: string)
    requires bus.partitions >= 1 && RequestsOk(plan, ids, bus)
    requires topic.OptimizationRequests? ==> RequestOk(plan, ids, event)
    ensures RequestsOk(plan, ids, Post(bus, topic, event, key))
  {
    var e := NewEntry(bus, topic, event, key);
    assert e.topic == topic && e.event == event;
    hide NewEntry, RequestOk;
  }

  lemma AdvanceLogs(cfg: Config, plan: Plan, ids: set<string>, s: System, w: nat, verdict: bool)
    requires SharedOk(cfg, plan, ids, s) && Enabled(cfg, s, Advances(w, verdict))
    ensures var bus' := Advance(cfg, s, w, verdict).bus; RequestsOk(plan, ids, bus') && ResultsOk(plan, ids, bus')
  {
    var bus', pc := Advance(cfg, s, w, verdict).bus, s.pcs[w];
    InvParts(cfg, s);
    hide Inv, Custody, Progress, CanAdvance, Advance, RequestsOk, ResultsOk, StoredOk, WorkersOk, RequestOk, OwnResult;
    AdvanceBus(cfg, s, w, verdict);
    if Posts(pc) {
      PostedOwn(cfg, plan, ids, s, w);
      hide PostEvent, Post;
      AppendedResultsOk(plan, ids, s.bus, PostTopic(pc), PostEvent(pc), pc.message.key);
      AppendedRequestsOk(plan, ids, s.bus, PostTopic(pc), PostEvent(pc), pc.message.key);
    } else {
      assert bus'.logs == s.bus.logs;
      SameLogsShared(plan, ids, s.bus, bus');
    }
  }

  lemma AdvanceWorkers(cfg: Config, plan: Plan, ids: set<string>, s: System, w: nat, verdict: bool)
    requires SharedOk(cfg, plan, ids, s) && Enabled(cfg, s, Advances(w, verdict))
    ensures StoredOk(plan, AdvanceStep(cfg, s, w, verdict).stores)
        && WorkersOk(plan, AdvanceStep(cfg, s, w, verdict).pcs)
  {
    InvParts(cfg, s);
    hide Inv, Custody, Progress, Advance, CanAdvance, RequestsOk, ResultsOk, StoredOk, FoundOk;
    AdvanceStores(cfg, plan, ids, s, w, verdict);
    AdvanceFound(cfg, plan, ids, s, w, verdict);
  }

  lemma AdvanceShared(cfg: Config, plan: Plan, ids: set<string>, s: System, w: nat, verdict: bool)
    requires SharedOk(cfg, plan, ids, s) && Enabled(cfg, s, Advances(w, verdict))
    ensures SharedOk(cfg, plan, ids, AdvanceStep(cfg, s, w, verdict))
  {
    AdvanceLogs(cfg, plan, ids, s, w, verdict);
    AdvanceWorkers(cfg, plan, ids, s, w, verdict);
    hide Inv, Advance, CanAdvance, RequestsOk, ResultsOk, StoredOk, WorkersOk;
    StepInv(cfg, s, Advances(w, verdict));
  }

  lemma SameLogsShared(plan: Plan, ids: set<string>, bus: BusState, bus': BusState)
    requires bus'.logs == bus.logs
    ensures RequestsOk(plan, ids, bus) ==> RequestsOk(plan, ids, bus')
    ensures ResultsOk(plan, ids, bus) ==> ResultsOk(plan, ids, bus')
  {
  }

  /** What may be published onto the request and result topics besides the workers' events. */
  predicate PublishOk(plan: Plan, ids: set<string>, a: Action) {
    a.Publishes? ==>
      && (a.topic.OptimizationRequests? ==> RequestOk(plan, ids, a.event))
      && (a.topic.OptimizationResults? ==> a.event.runId != plan.run)
  }

  lemma ForeignPublishOk(plan: Plan, ids: set<string>, a: Action)
    requires Foreign(plan, a)
    ensures PublishOk(plan, ids, a)
  {
  }

  lemma ActionShared(cfg: Config, plan: Plan, ids: set<string>, s: System, a: Action)
    requires SharedOk(cfg, plan, ids, s) && Enabled(cfg, s, a) && PublishOk(plan, ids, a)
    ensures SharedOk(cfg, plan, ids, Apply(cfg, s, a))
  {
    StepInv(cfg, s, a);
    InvParts(cfg, s);
    assert OthersOk(s.bus, s.others);
    hide Inv, Custody, RequestsOk, ResultsOk, StoredOk, RequestOk;
    match a {
      case Advances(w, verdict) =>
        hide AdvanceStep, CanAdvance;
        AdvanceShared(cfg, plan, ids, s, w, verdict);
      case Publishes(topic, event, key) =>
        hide Post, OthersOk;
        AppendedResultsOk(plan, ids, s.bus, topic, event, key);
        AppendedRequestsOk(plan, ids, s.bus, topic, event, key);
        assert Apply(cfg, s, a) == s.(bus := Post(s.bus, topic, event, key)) by { PublishIsPost(cfg, s, topic, event,
            key); }
        hide Apply, PublishOk;
      case _ =>
        QuietStep(cfg, s, a);
        SameLogsShared(plan, ids, s.bus, Apply(cfg, s, a).bus);
        QuietWorkers(cfg, plan, s, a);
        hide OthersOk, Apply, WorkersOk;
    }
  }

  /** Claims, failures and other consumers leave the stores alone and find nothing. */
  lemma QuietWorkers(cfg: Config, plan: Plan, s: System, a: Action)
    requires Enabled(cfg, s, a) && !a.Advances? && WorkersOk(plan, s.pcs)
    ensures Apply(cfg, s, a).stores == s.stores && WorkersOk(plan, Apply(cfg, s, a).pcs)
  {
  }

  lemma MoreRequested(cfg: Config, plan: Plan, ids: set<string>, ids': set<string>, s: System)
    requires SharedOk(cfg, plan, ids, s) && ids <= ids' <= Ids(plan)
    ensures SharedOk(cfg, plan, ids', s)
  {
  }

  // ---------- Steps of the coordinator ----------

  lemma RequestIsOwn(plan: Plan, i: nat)
    requires i < |plan.services| && Indexed(plan)
    ensures RequestOk(plan, ServiceIds(plan, i + 1), RequestEvent(plan, i))
    ensures ServiceIds(plan, i) <= ServiceIds(plan, i + 1) <= Ids(plan)
  {
  }

  lemma MoveShared(cfg: Config, plan: Plan, x: World, move: Move, x': World)
    requires Indexed(plan) && Own(cfg, plan, x) && Step(cfg, plan, x, move, x')
    ensures SharedOk(cfg, plan, Sent(plan, x'.coordinator), x'.system)
  {
    var ids, c := Sent(plan, x.coordinator), x.coordinator;
    hide SharedOk, KeptOk, Enabled, Apply, Take, Foreign, RequestOk;
    match move {
      case Dispatches =>
        var i := c.phase.next;
        RequestIsOwn(plan, i);
        MoreRequested(cfg, plan, ids, ServiceIds(plan, i + 1), x.system);
        ActionShared(cfg, plan, ServiceIds(plan, i + 1), x.system, BusAction(plan, c, move).value);
      case Background(a) =>
        ForeignPublishOk(plan, ids, a);
        ActionShared(cfg, plan, ids, x.system, a);
      case StartsWaiting =>
        if plan.services != [] {
          ActionShared(cfg, plan, ids, x.system, Subscribes(ResultsGroup(plan).0, ResultsGroup(plan).1));
        }
      case Receives =>
        ActionShared(cfg, plan, ids, x.system,
            OtherTakes(ResultsGroup(plan).0, ResultsGroup(plan).1, "system-coordinator"));
      case Acknowledges => ActionShared(cfg, plan, ids, x.system, OtherAcks(c.phase.message));
      case Expires =>
      case Judges(_) =>
    }
  }

  lemma KeptThroughGrowth(plan: Plan, bus: BusState, bus': BusState, c: CoordinatorState)
    requires KeptOk(plan, bus, c) && Grows(bus, bus')
    ensures KeptOk(plan, bus', c)
  {
    forall k | 0 <= k < |c.results| ensures Published(plan, bus', c.results[k]) {
      assert Published(plan, bus, c.results[k]);
      var r :| ComesFrom(plan, bus, c.results[k], r);
      assert ComesFrom(plan, bus', c.results[k], r);
    }
  }

  /** What taking from a queue gives: an unacknowledged copy of a log entry. */
  lemma TakenEntry(cfg: Config, s: System, g: GroupKey, consumer: string)
    requires Inv(cfg, s) && QueueReady(s.bus, g)
    ensures var (bus', m) := Take(s.bus, g.0, g.1, consumer);
      && m.Some? && (m.value.topic, m.value.consumerGroup) == g
      && HasEntry(Log(s.bus, g.0), m.value)
      && AckKeyOf(m.value, g.1) !in s.bus.acknowledged
      && bus' == s.bus.(queues := bus'.queues)
  {
    TakeKeepsLive(s.bus, InFlight(s), g.0, g.1, consumer);
    hide Inv, Live, HasEntry;
  }

  /** What the coordinator receives: an unacknowledged copy of a result entry, now held. */
  lemma ReceivedMessage(cfg: Config, plan: Plan, x: World, x': World)
    requires Indexed(plan) && Inv(cfg, x.system) && Step(cfg, plan, x, Receives, x')
    ensures x'.coordinator.phase.Holding?
    ensures var m := x'.coordinator.phase.message;
      && x'.coordinator.results
          == (if m.event.runId == plan.run then x.coordinator.results + [m.event] else x.coordinator.results)
      && (m.topic, m.consumerGroup) == ResultsGroup(plan)
      && HasEntry(Log(x.system.bus, OptimizationResults), m)
      && AckKeyOf(m, m.consumerGroup) !in x.system.bus.acknowledged
      && x'.system == x.system.(bus := x'.system.bus, others := x.system.others + {m})
      && x'.system.bus == x.system.bus.(queues := x'.system.bus.queues)
  {
    TakenEntry(cfg, x.system, ResultsGroup(plan), "system-coordinator");
    hide Inv, Take, HasEntry;
  }

  lemma MoveKept(cfg: Config, plan: Plan, x: World, move: Move, x': World)
    requires Indexed(plan) && Own(cfg, plan, x) && Step(cfg, plan, x, move, x')
    ensures KeptOk(plan, x'.system.bus, x'.coordinator)
  {
    hide Inv, HoldingOk;
    if move.Receives? {
      ReceivedKept(cfg, plan, x, x');
    } else {
      MoveGrows(cfg, plan, x, move, x');
      hide SharedOk, KeptOk, Enabled, Apply, Foreign, Grows, Take;
      KeptThroughGrowth(plan, x.system.bus, x'.system.bus, x.coordinator);
      SameResultsKept(plan, x'.system.bus, x.coordinator, x'.coordinator);
    }
  }

  lemma MoveGrows(cfg: Config, plan: Plan, x: World, move: Move, x': World)
    requires Indexed(plan) && Step(cfg, plan, x, move, x')
    ensures Grows(x.system.bus, x'.system.bus)
  {
    var a := BusAction(plan, x.coordinator, move);
    if a.Some? {
      ActionGrows(cfg, x.system, a.value);
      hide Grows, Apply, Enabled;
    }
  }

  lemma OwnParts(cfg: Config, plan: Plan, x: World)
    requires Own(cfg, plan, x)
    ensures Inv(cfg, x.system) && KeptOk(plan, x.system.bus, x.coordinator)
  {
    hide Inv, KeptOk;
  }

  lemma ReceivedKept(cfg: Config, plan: Plan, x: World, x': World)
    requires Indexed(plan) && Own(cfg, plan, x) && Step(cfg, plan, x, Receives, x')
    ensures KeptOk(plan, x'.system.bus, x'.coordinator)
  {
    hide Own, Inv, Step;
    OwnParts(cfg, plan, x);
    ReceivedMessage(cfg, plan, x, x');
    var m := x'.coordinator.phase.message;
    var r :| r in Log(x.system.bus, OptimizationResults) && CopyOf(m, r);
    assert m.event.runId == plan.run ==> ComesFrom(plan, x'.system.bus, m.event, r);
    assert Grows(x.system.bus, x'.system.bus);
    hide ComesFrom, Grows, CopyOf;
    KeptThroughGrowth(plan, x.system.bus, x'.system.bus, x.coordinator);
  }

  lemma SameResultsKept(plan: Plan, bus: BusState, c: CoordinatorState, c': CoordinatorState)
    requires KeptOk(plan, bus, c) && c'.results == c.results
    ensures KeptOk(plan, bus, c')
  {
  }

  /** Nobody else resolves what the coordinator holds. */
  lemma ForeignKeepsHeld(cfg: Config, plan: Plan, s: System, a: Action, m: ConsumedEvent)
    requires Enabled(cfg, s, a) && Foreign(plan, a) && m in s.others && (m.topic, m.consumerGroup) == ResultsGroup(plan)
    ensures m in Apply(cfg, s, a).others
  {
    hide Take, Validate, Advance, CanAdvance, Failed;
  }

  lemma MoveHolding(cfg: Config, plan: Plan, x: World, move: Move, x': World)
    requires Indexed(plan) && Own(cfg, plan, x) && Step(cfg, plan, x, move, x')
    ensures HoldingOk(plan, x')
  {
    hide KeptOk;
    if move.Receives? {
      ReceivedMessage(cfg, plan, x, x');
      hide SharedOk, Apply, Enabled, Take;
    } else if move.Background? && x.coordinator.phase.Holding? {
      ForeignKeepsHeld(cfg, plan, x.system, move.action, x.coordinator.phase.message);
      hide SharedOk, Apply, Enabled, Foreign;
    } else {
      hide SharedOk, Apply, Enabled, Foreign, Accepted;
    }
  }

  lemma MoveOwn(cfg: Config, plan: Plan, x: World, move: Move, x': World)
    requires Indexed(plan) && Own(cfg, plan, x) && Step(cfg, plan, x, move, x')
    ensures Own(cfg, plan, x')
  {
    MoveShared(cfg, plan, x, move, x');
    MoveKept(cfg, plan, x, move, x');
    MoveHolding(cfg, plan, x, move, x');
    hide SharedOk, KeptOk, HoldingOk, Step;
  }

  lemma InitialOwn(cfg: Config, partitions: nat, plan: Plan)
    requires partitions >= 1 && |cfg.clusters| == |cfg.storeOf|
    ensures Own(cfg, plan, World(Initial(partitions, |cfg.clusters|), CoordinatorState(Dispatching(0), [])))
  {
    InitialInv(cfg, partitions);
    hide Inv;
  }

  lemma {:induction false} RunOwn(cfg: Config, partitions: nat, plan: Plan, moves: seq<Move>, worlds: seq<World>,
      i: nat)
    requires SystemRun(cfg, partitions, plan, moves, worlds) && i < |worlds|
    ensures Own(cfg, plan, worlds[i])
  {
    if i == 0 {
      InitialOwn(cfg, partitions, plan);
    } else {
      RunOwn(cfg, partitions, plan, moves, worlds, i - 1);
      assert Step(cfg, plan, worlds[i - 1], moves[i - 1], worlds[i - 1 + 1]);
      hide Own, Step;
      MoveOwn(cfg, plan, worlds[i - 1], moves[i - 1], worlds[i]);
    }
  }
}

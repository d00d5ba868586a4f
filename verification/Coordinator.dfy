/** The namespace coordinator: it dispatches one request per discovered service, waits for
    that many results of its own run, and judges the system. It shares the bus with the
    workers and with anybody else. */
module Coordinator {
  import opened Ordering
  import opened Contracts
  import opened Bus
  import opened Locks
  import opened Worker

  /** A discovered Deployment. Its service id is its app.kubernetes.io/name label or else its
      own name, so two Deployments may share one. */
  datatype Service = Service(id: string, namespace: string, deployment: string)

  /** One system run: its identifier, what discovery found, and the context reference that
      indexing gave each service. */
  datatype Plan = Plan(run: string, cluster: string, services: seq<Service>, contextRefs: map<string, string>)

  datatype Phase =
    | Dispatching(next: nat)
    | Waiting
    | Holding(message: ConsumedEvent)
    | Judged(passed: bool)
    | TimedOut

  datatype CoordinatorState = CoordinatorState(phase: Phase, results: seq<EventEnvelope>)

  datatype World = World(system: System, coordinator: CoordinatorState)

  function ServiceIds(plan: Plan, n: nat): set<string>
    requires n <= |plan.services|
  {
    set i | 0 <= i < n :: plan.services[i].id
  }

  predicate DistinctServices(plan: Plan) {
    forall i, j :: 0 <= i < j < |plan.services| ==> plan.services[i].id != plan.services[j].id
  }

  /** Indexing produced a context for every service. */
  predicate Indexed(plan: Plan) {
    forall i :: 0 <= i < |plan.services| ==> plan.services[i].id in plan.contextRefs
  }

  function ResultsGroup(plan: Plan): GroupKey {
    (OptimizationResults, "kuber-system-" + plan.run)
  }

  function RequestEvent(plan: Plan, i: nat): EventEnvelope
    requires i < |plan.services| && Indexed(plan)
  {
    var service := plan.services[i];
    EventEnvelope(WorkloadOptimizationRequested, plan.run, plan.run, 0,
                  RequestPayload(Some(TaskId(plan.run, service.id)), Some(service.id), Some(service.namespace),
                                 Some(plan.contextRefs[service.id])))
  }

  function RequestKey(plan: Plan, i: nat): string
    requires i < |plan.services|
  {
    plan.cluster + ":" + plan.services[i].namespace + ":" + plan.services[i].id
  }

  predicate Accepted(e: EventEnvelope) {
    e.payload.ResultPayload? && e.payload.accepted
  }

  predicate WorkloadsPassed(plan: Plan, results: seq<EventEnvelope>) {
    |results| == |plan.services| && forall k :: 0 <= k < |results| ==> Accepted(results[k])
  }

  // ---------- Steps ----------

  /** `endToEnd` is the answer of the system verifier, true when there is none. */
  datatype Move =
    | Background(action: Action)
    | Dispatches
    | StartsWaiting
    | Receives
    | Acknowledges
    | Expires
    | Judges(endToEnd: bool)

  /** What the coordinator's move does to the bus, as one action among the workers'. */
  function BusAction(plan: Plan, c: CoordinatorState, move: Move): Option<Action>
    requires Indexed(plan)
  {
    match move
    case Background(a) => Some(a)
    case Dispatches =>
      if c.phase.Dispatching? && c.phase.next < |plan.services|
      then Some(Publishes(OptimizationRequests, RequestEvent(plan, c.phase.next), RequestKey(plan, c.phase.next)))
      else None
    case StartsWaiting =>
      if plan.services == [] then None else Some(Subscribes(ResultsGroup(plan).0, ResultsGroup(plan).1))
    case Receives => Some(OtherTakes(ResultsGroup(plan).0, ResultsGroup(plan).1, "system-coordinator"))
    case Acknowledges => if c.phase.Holding? then Some(OtherAcks(c.phase.message)) else None
    case Expires => None
    case Judges(_) => None
  }

  /** Everybody else: nobody reuses the run identifier or its task identifiers, or consumes
      in the coordinator's own group. */
  predicate Foreign(plan: Plan, a: Action) {
    match a
    case Publishes(topic, event, _) =>
      && (topic.OptimizationRequests? || topic.OptimizationResults? ==> event.runId != plan.run)
      && (topic.OptimizationRequests? && event.payload.RequestPayload? ==>
            forall i :: 0 <= i < |plan.services| ==>
                event.payload.taskId != Some(TaskId(plan.run, plan.services[i].id)))
    case OtherTakes(topic, group, _) => (topic, group) != ResultsGroup(plan)
    case OtherAcks(m) => (m.topic, m.consumerGroup) != ResultsGroup(plan)
    case OtherRetries(m, _) => (m.topic, m.consumerGroup) != ResultsGroup(plan)
    case _ => true
  }

  ghost predicate CanMove(cfg: Config, plan: Plan, x: World, move: Move)
    requires Indexed(plan)
  {
    var c, s := x.coordinator, x.system;
    && (BusAction(plan, c, move).Some? ==> Enabled(cfg, s, BusAction(plan, c, move).value))
    && match move
       case Background(a) => Foreign(plan, a)
       case Dispatches => c.phase.Dispatching? && c.phase.next < |plan.services|
       case StartsWaiting => c.phase == Dispatching(|plan.services|)
       case Receives => c.phase.Waiting? && |c.results| < |plan.services|
       case Acknowledges => c.phase.Holding?
       case Expires => c.phase.Holding? || (c.phase.Waiting? && |c.results| < |plan.services|)
       case Judges(_) => c.phase.Waiting? && |c.results| >= |plan.services|
  }

  /** The coordinator's own state after a move. */
  function Moved(plan: Plan, x: World, move: Move): CoordinatorState
    requires Indexed(plan) && (move.Receives? ==> QueueReady(x.system.bus, ResultsGroup(plan)))
  {
    var c := x.coordinator;
    match move
    case Background(_) => c
    case Dispatches => if c.phase.Dispatching? then c.(phase := Dispatching(c.phase.next + 1)) else c
    case StartsWaiting => c.(phase := Waiting)
    case Receives =>
      (match Take(x.system.bus, ResultsGroup(plan).0, ResultsGroup(plan).1, "system-coordinator").1
       case None => c
       case Some(m) =>
         CoordinatorState(Holding(m), if m.event.runId == plan.run then c.results + [m.event] else c.results))
    case Acknowledges => c.(phase := Waiting)
    case Expires => c.(phase := TimedOut)
    case Judges(endToEnd) => c.(phase := Judged(WorkloadsPassed(plan, c.results) && endToEnd))
  }

  ghost predicate Step(cfg: Config, plan: Plan, x: World, move: Move, x': World)
    requires Indexed(plan)
  {
    && CanMove(cfg, plan, x, move)
    && x'.coordinator == Moved(plan, x, move)
    && x'.system == match BusAction(plan, x.coordinator, move)
                    case Some(a) => Apply(cfg, x.system, a)
                    case None => x.system
  }

  /** A system run on a bus shared with any number of workers and strangers. */
  ghost predicate SystemRun(cfg: Config, partitions: nat, plan: Plan, moves: seq<Move>, worlds: seq<World>) {
    && partitions >= 1 && |cfg.clusters| == |cfg.storeOf| && Indexed(plan)
    && |worlds| == |moves| + 1
    && worlds[0] == World(Initial(partitions, |cfg.clusters|), CoordinatorState(Dispatching(0), []))
    && forall i :: 0 <= i < |moves| ==> Step(cfg, plan, worlds[i], moves[i], worlds[i + 1])
  }

  /** A worker of the run fails after appending its result and before acknowledging. */
  predicate FailingAck(run: string, s: System, a: Action) {
    a.Fails? && a.w < |s.pcs| && s.pcs[a.w].Acking? && s.pcs[a.w].message.event.runId == run
  }

  predicate FailsToAck(plan: Plan, s: System, move: Move) {
    move.Background? && FailingAck(plan.run, s, move.action)
  }

  predicate Reliable(plan: Plan, moves: seq<Move>, worlds: seq<World>)
    requires |worlds| == |moves| + 1
  {
    forall i :: 0 <= i < |moves| ==> !FailsToAck(plan, worlds[i].system, moves[i])
  }
}

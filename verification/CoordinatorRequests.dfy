/** What the coordinator asks for: one request per service, in discovery order, each with
    that service's own identifiers, and what the workers make of them. */
module CoordinatorRequests {
  import opened Ordering
  import opened Contracts
  import opened Bus
  import opened Locks
  import opened Worker
  import opened WorkerSafety
  import opened WorkerRuns
  import opened Coordinator
  import opened CoordinatorSafety
  import opened CoordinatorCount

  /** The entry is the first-attempt request for service `i`, on the service's own key. */
  predicate AsksFor(plan: Plan, i: int, e: PublishedEvent)
    requires Indexed(plan) && 0 <= i < |plan.services|
  {
    var service := plan.services[i];
    && e.topic == OptimizationRequests
    && e.key == plan.cluster + ":" + service.namespace + ":" + service.id
    && e.event.eventType == WorkloadOptimizationRequested
    && e.event.runId == plan.run && e.event.correlationId == plan.run && e.event.attempt == 0
    && e.event.payload == RequestPayload(Some(plan.run + ":" + service.id), Some(service.id), Some(service.namespace),
                                         Some(plan.contextRefs[service.id]))
  }

  function OfRun(run: string): PublishedEvent -> bool {
    (e: PublishedEvent) => e.event.runId == run
  }

  function RunRequests(plan: Plan, bus: BusState): seq<PublishedEvent> {
    Kept(OfRun(plan.run), Log(bus, OptimizationRequests))
  }

  /** How many services have been asked for. */
  function Asked(plan: Plan, c: CoordinatorState): nat {
    if c.phase.Dispatching? then c.phase.next else |plan.services|
  }

  ghost predicate AskedInOrder(plan: Plan, bus: BusState, n: nat)
    requires Indexed(plan)
  {
    var requests := RunRequests(plan, bus);
    n <= |plan.services| && |requests| == n && forall i :: 0 <= i < n ==> AsksFor(plan, i, requests[i])
  }

  lemma AskedSame(plan: Plan, bus: BusState, bus': BusState, n: nat)
    requires Indexed(plan) && AskedInOrder(plan, bus, n)
    requires Log(bus', OptimizationRequests) == Log(bus, OptimizationRequests)
    ensures AskedInOrder(plan, bus', n)
  {
  }

  lemma AskedAppended(plan: Plan, bus: BusState, e: PublishedEvent, n: nat)
    requires Indexed(plan) && AskedInOrder(plan, bus, n)
    requires e.event.runId == plan.run && e.topic == OptimizationRequests ==> n < |plan.services| && AsksFor(plan, n, e)
    ensures AskedInOrder(plan, Append(bus, e),
      if e.event.runId == plan.run && e.topic == OptimizationRequests then n + 1 else n)
  {
    hide AsksFor;
    KeptConcat(OfRun(plan.run), Log(bus, OptimizationRequests), [e]);
    assert Kept(OfRun(plan.run), [e]) == if e.event.runId == plan.run then [e] else [] by {
      assert [e][1..] == [];
    }
    assert RunRequests(plan, bus) + [] == RunRequests(plan, bus);
  }

  /** Workers append nothing to the request topic, strangers nothing of this run. */
  lemma BackgroundAsksNothing(cfg: Config, plan: Plan, s: System, a: Action, n: nat)
    requires Indexed(plan) && Enabled(cfg, s, a) && OthersOk(s.bus, s.others) && Foreign(plan, a)
    requires AskedInOrder(plan, s.bus, n)
    ensures AskedInOrder(plan, Apply(cfg, s, a).bus, n)
  {
    hide AskedInOrder, Apply, OthersOk, Publish, CanAdvance, Subscribe, Retry;
    match a {
      case Publishes(topic, event, key) =>
        var e := PublishedEntry(cfg, s, topic, event, key);
        AskedAppended(plan, s.bus, e, n);
      case Advances(w, verdict) =>
        if Posts(s.pcs[w]) {
          var e := AdvanceAppends(cfg, s, w, verdict);
          AskedAppended(plan, s.bus, e, n);
        } else {
          AdvancesQuietly(cfg, s, w, verdict);
          AskedSame(plan, s.bus, Apply(cfg, s, a).bus, n);
        }
      case _ =>
        QuietStep(cfg, s, a);
        AskedSame(plan, s.bus, Apply(cfg, s, a).bus, n);
    }
  }

  lemma DispatchAsks(cfg: Config, plan: Plan, s: System, i: nat)
    requires Indexed(plan) && i < |plan.services| && AskedInOrder(plan, s.bus, i)
    requires Enabled(cfg, s, Publishes(OptimizationRequests, RequestEvent(plan, i), RequestKey(plan, i)))
    ensures AskedInOrder(plan,
      Apply(cfg, s, Publishes(OptimizationRequests, RequestEvent(plan, i), RequestKey(plan, i))).bus, i + 1)
  {
    var event, key := RequestEvent(plan, i), RequestKey(plan, i);
    PublishIsPost(cfg, s, OptimizationRequests, event, key);
    var e := NewEntry(s.bus, OptimizationRequests, event, key);
    assert AsksFor(plan, i, e) by { hide PartitionFor, CountIn; }
    hide Apply, Enabled, AskedInOrder, AsksFor, NewEntry, RequestEvent, RequestKey;
    AskedAppended(plan, s.bus, e, i);
  }

  /** What each move adds to the bus and to what has been asked for. */
  lemma MoveActs(cfg: Config, plan: Plan, x: World, move: Move, x': World)
    requires Indexed(plan) && HoldingOk(plan, x) && Step(cfg, plan, x, move, x')
    ensures Asked(plan, x'.coordinator) == Asked(plan, x.coordinator) + if move.Dispatches? then 1 else 0
    ensures var a := BusAction(plan, x.coordinator, move);
      && (move.Background? ==> a == Some(move.action) && Foreign(plan, move.action))
      && (move.Dispatches? ==> x.coordinator.phase.Dispatching? && x.coordinator.phase.next < |plan.services|)
      && (a.Some? && !move.Background? && !move.Dispatches? ==>
            a.value.Subscribes? || a.value.OtherTakes? || a.value.OtherAcks?)
      && (a.None? ==> x'.system == x.system)
      && (a.Some? ==> Enabled(cfg, x.system, a.value) && x'.system == Apply(cfg, x.system, a.value))
  {
    hide Enabled, Apply, Take, Foreign, RequestEvent, RequestKey, WorkloadsPassed, ResultsGroup;
  }

  lemma MoveAsks(cfg: Config, plan: Plan, x: World, move: Move, x': World)
    requires Indexed(plan) && Own(cfg, plan, x) && Step(cfg, plan, x, move, x')
    requires AskedInOrder(plan, x.system.bus, Asked(plan, x.coordinator))
    ensures AskedInOrder(plan, x'.system.bus, Asked(plan, x'.coordinator))
  {
    var c, n := x.coordinator, Asked(plan, x.coordinator);
    hide AskedInOrder, Step, OthersOk, Apply, Enabled, SharedOk, HoldingOk, Custody, KeptOk, Foreign;
    SharedCustody(cfg, plan, Sent(plan, c), x.system);
    MoveActs(cfg, plan, x, move, x');
    var a := BusAction(plan, c, move);
    if move.Background? {
      BackgroundAsksNothing(cfg, plan, x.system, move.action, n);
    } else if move.Dispatches? {
      DispatchAsks(cfg, plan, x.system, c.phase.next);
    } else {
      hide BusAction;
      if a.Some? {
        OwnActionAsksNothing(cfg, plan, x.system, a.value, n);
      }
    }
  }

  /** Nor does the coordinator by subscribing and consuming. */
  lemma OwnActionAsksNothing(cfg: Config, plan: Plan, s: System, a: Action, n: nat)
    requires Indexed(plan) && Enabled(cfg, s, a) && OthersOk(s.bus, s.others)
    requires (a.Subscribes? || a.OtherTakes? || a.OtherAcks?) && AskedInOrder(plan, s.bus, n)
    ensures AskedInOrder(plan, Apply(cfg, s, a).bus, n)
  {
    hide AskedInOrder, Apply, OthersOk, Enabled;
    QuietStep(cfg, s, a);
    AskedSame(plan, s.bus, Apply(cfg, s, a).bus, n);
  }

  /** At every point of every run, whatever the service ids: the requests of the run in the
      log are one for each service dispatched so far, in discovery order, each asking for
      that service and no other. */
  lemma {:induction false} RequestsAskInOrder(cfg: Config, partitions: nat, plan: Plan, moves: seq<Move>,
      worlds: seq<World>, n: nat)
    requires SystemRun(cfg, partitions, plan, moves, worlds) && n < |worlds|
    ensures var c := worlds[n].coordinator; var requests := RunRequests(plan, worlds[n].system.bus);
      && |requests| == (if c.phase.Dispatching? then c.phase.next else |plan.services|) <= |plan.services|
      && forall i :: 0 <= i < |requests| ==> AsksFor(plan, i, requests[i])
  {
    hide Own, Step, AsksFor;
    if n == 0 {
      assert RunRequests(plan, worlds[0].system.bus) == [];
    } else {
      SystemNext(cfg, partitions, plan, moves, worlds, n - 1);
      RequestsAskInOrder(cfg, partitions, plan, moves, worlds, n - 1);
      hide SystemRun;
      MoveAsks(cfg, plan, worlds[n - 1], moves[n - 1], worlds[n]);
    }
  }

  // ---------- What the workers make of them ----------

  /** The worker's check, field by field. */
  lemma ValidatesExactly(cfg: Config, e: EventEnvelope, task: Task)
    ensures Validate(cfg, e) == Some(task) <==>
      && e.eventType == WorkloadOptimizationRequested
      && e.payload == RequestPayload(Some(task.taskId), Some(task.workloadId), Some(task.namespace),
                                     Some(task.contextRef))
      && task.taskId != "" && task.workloadId != "" && task.namespace != "" && task.contextRef != ""
      && task.contextRef in cfg.contexts && cfg.contexts[task.contextRef] == task.workloadId
  {
  }

  /** What the workers require of a service: a name, a namespace, and a context reference the
      workers know to be this service's. */
  predicate Serviceable(cfg: Config, plan: Plan, i: int)
    requires Indexed(plan) && 0 <= i < |plan.services|
  {
    var service := plan.services[i]; var context := plan.contextRefs[service.id];
    service.id != "" && service.namespace != "" && context != ""
    && context in cfg.contexts && cfg.contexts[context] == service.id
  }

  function TaskFor(plan: Plan, i: int): Task
    requires Indexed(plan) && 0 <= i < |plan.services|
  {
    var service := plan.services[i];
    Task(plan.run + ":" + service.id, service.id, service.namespace, plan.contextRefs[service.id])
  }

  /** A copy of the request for service `i` validates exactly if the service is serviceable,
      and then to that service's own task. */
  lemma CopyValidates(cfg: Config, plan: Plan, i: int, e: PublishedEvent, m: ConsumedEvent)
    requires Indexed(plan) && 0 <= i < |plan.services| && AsksFor(plan, i, e) && CopyOf(m, e)
    ensures Validate(cfg, m.event) == if Serviceable(cfg, plan, i) then Some(TaskFor(plan, i)) else None
  {
    if Serviceable(cfg, plan, i) {
      ValidatesExactly(cfg, m.event, TaskFor(plan, i));
    }
  }

  /** What a claim hands over, and where the worker's check sends it. */
  lemma ClaimValidates(cfg: Config, s: System, w: nat)
    requires Enabled(cfg, s, Claims(w)) && Custody(s)
    ensures var s' := ClaimStep(cfg, s, w);
      w < |s'.pcs| && Held(s'.pcs[w]).Some? &&
      var m := Held(s'.pcs[w]).value;
      && HasEntry(Log(s.bus, OptimizationRequests), m)
      && s'.pcs[w] == match Validate(cfg, m.event)
                      case Some(task) => CheckingDuplicate(m, task)
                      case None => DeadLettering(m, "invalid task")
  {
    hide Custody, Validate, Take, HasEntry, Live, InFlight, Delivered;
    ClaimedDelivery(s);
  }

  /** Whoever claims a delivery of the run holds a copy of the request for some service, and
      goes on to work on that service's own task, unless it is not serviceable: then, and only
      then, it is given up as invalid. */
  lemma ClaimedRequestIsServed(cfg: Config, partitions: nat, plan: Plan, moves: seq<Move>, worlds: seq<World>, n: nat,
      w: nat)
    requires SystemRun(cfg, partitions, plan, moves, worlds) && n < |moves| && moves[n] == Background(Claims(w))
    ensures w < |worlds[n + 1].system.pcs| && Held(worlds[n + 1].system.pcs[w]).Some?
    ensures var pc := worlds[n + 1].system.pcs[w]; var m := Held(pc).value;
      var requests := RunRequests(plan, worlds[n].system.bus);
      m.event.runId == plan.run ==>
        exists i :: 0 <= i < |requests| && i < |plan.services| && CopyOf(m, requests[i])
          && pc == if Serviceable(cfg, plan, i) then CheckingDuplicate(m, TaskFor(plan, i))
                   else DeadLettering(m, "invalid task")
  {
    var x := worlds[n];
    SystemNext(cfg, partitions, plan, moves, worlds, n);
    SharedCustody(cfg, plan, Sent(plan, x.coordinator), x.system);
    RequestsAskInOrder(cfg, partitions, plan, moves, worlds, n);
    hide Own, SystemRun, Custody, OthersOk, AsksFor, Serviceable, TaskFor, ClaimStep;
    ClaimValidates(cfg, x.system, w);
    var m := Held(ClaimStep(cfg, x.system, w).pcs[w]).value;
    if m.event.runId == plan.run {
      var e :| e in Log(x.system.bus, OptimizationRequests) && CopyOf(m, e);
      KeptMembers(OfRun(plan.run), Log(x.system.bus, OptimizationRequests), e);
      var i :| 0 <= i < |RunRequests(plan, x.system.bus)| && RunRequests(plan, x.system.bus)[i] == e;
      CopyValidates(cfg, plan, i, e, m);
    }
  }
}

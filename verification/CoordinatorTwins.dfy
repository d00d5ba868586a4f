/** A run without any failure in which counting is fooled by discovery: two Deployments carry
    the same app.kubernetes.io/name label, so they share a service id, a task and a lock.
    The second request is answered from the deduplication store, the coordinator counts two
    results of two, and passes although only one Deployment was ever worked on. */
module CoordinatorTwins {
  import opened Ordering
  import opened Contracts
  import opened Bus
  import opened Locks
  import opened Worker
  import opened Coordinator
  import opened CoordinatorCount
  import opened CoordinatorVerdict
  import opened CoordinatorMiscount

  const TWINS := Plan("r", "k", [Service("a", "n", "first"), Service("a", "n", "second")], map["a" := "ca"])

  function Request(offset: nat): PublishedEvent { RequestA().(offset := offset) }
  function Asked(offset: nat): ConsumedEvent { FirstCopy(Request(offset), "", "") }
  function Handed(offset: nat): ConsumedEvent { FirstCopy(Request(offset), GROUP, "worker") }
  function RequestAck(offset: nat): AckKey { AckKey(OptimizationRequests, GROUP, 0, offset) }

  // ---------- The bus as the run goes on ----------

  function Working(results: seq<PublishedEvent>, queue: seq<ConsumedEvent>, acknowledged: set<AckKey>): BusState {
    BusState(1, map[OptimizationRequests := [Request(0), Request(1)]]
                + if results == [] then map[] else map[OptimizationResults := results],
             map[REQUESTS := queue], acknowledged, false)
  }
  function Answered(waiting: seq<ConsumedEvent>, acknowledged: set<AckKey>): BusState {
    Working([ResultA(0), ResultA(1)], [], {RequestAck(0), RequestAck(1)} + acknowledged)
      .(queues := map[REQUESTS := [], ResultsGroup(TWINS) := waiting])
  }

  function Now(bus: BusState, pc: Pc, stats: WorkerStats, stored: bool, locked: bool, times: nat, phase: Phase): World {
    World(System(bus, [pc], [stats], if stored then map[0 := map[TASK.taskId := RESULT]] else map[],
                 if locked then map[KEY := 0] else map[], {},
                 if times == 0 then map[] else if times == 1 then map[(0, 0) := 1] else map[(0, 0) := 1, (0, 1) := 1]),
          CoordinatorState(phase, []))
  }

  const FRESH := WorkerStats(0, 0, 0, 0, 0)
  const DONE := WorkerStats(1, 1, 0, 0, 0)
  const SETTLED := WorkerStats(2, 1, 0, 0, 1)

  function Collects(waiting: seq<ConsumedEvent>, acknowledged: set<AckKey>, others: set<ConsumedEvent>, phase: Phase,
      results: nat): World
    requires results <= 2
  {
    var x := Now(Answered(waiting, acknowledged), Idle, SETTLED, true, false, 2, phase);
    x.(system := x.system.(others := others),
       coordinator := CoordinatorState(phase, [ResultA(0).event, ResultA(1).event][..results]))
  }

  function X0(): World { Now(BusState(1, map[], map[], {}, false), Idle, FRESH, false, false, 0, Dispatching(0)) }
  function X1(): World { Now(Open(), Idle, FRESH, false, false, 0, Dispatching(0)) }
  function X2(): World { Now(Requested(), Idle, FRESH, false, false, 0, Dispatching(1)) }
  function X3(): World { Now(Working([], [Asked(0), Asked(1)], {}), Idle, FRESH, false, false, 0, Dispatching(2)) }
  function X4(): World {
    Now(Working([], [Asked(1)], {}), CheckingDuplicate(Handed(0), TASK), CLAIMED, false, false, 1, Dispatching(2))
  }
  function X5(): World {
    Now(Working([], [Asked(1)], {}), Locking(Handed(0), TASK), CLAIMED, false, false, 1, Dispatching(2))
  }
  function X6(): World {
    Now(Working([], [Asked(1)], {}), Running(Handed(0), TASK), CLAIMED, false, true, 1, Dispatching(2))
  }
  function X7(): World {
    Now(Working([], [Asked(1)], {}), Storing(Handed(0), TASK, RESULT), CLAIMED, false, true, 1, Dispatching(2))
  }
  function X8(): World {
    Now(Working([], [Asked(1)], {}), Publishing(Handed(0), TASK, RESULT), CLAIMED, true, true, 1, Dispatching(2))
  }
  function X9(): World {
    Now(Working([ResultA(0)], [Asked(1)], {}), Acking(Handed(0), TASK, RESULT), CLAIMED, true, true, 1, Dispatching(2))
  }
  function X10(): World {
    Now(Working([ResultA(0)], [Asked(1)], {RequestAck(0)}), Releasing(Handed(0), TASK), CLAIMED, true, true, 1,
        Dispatching(2))
  }
  function X11(): World {
    Now(Working([ResultA(0)], [Asked(1)], {RequestAck(0)}), Idle, DONE, true, false, 1, Dispatching(2))
  }
  function X12(): World {
    Now(Working([ResultA(0)], [], {RequestAck(0)}), CheckingDuplicate(Handed(1), TASK), DONE.(claimed := 2), true,
        false, 2, Dispatching(2))
  }
  function X13(): World {
    Now(Working([ResultA(0)], [], {RequestAck(0)}), PublishingDuplicate(Handed(1), RESULT), SETTLED, true, false, 2,
        Dispatching(2))
  }
  function X14(): World {
    Now(Working([ResultA(0), ResultA(1)], [], {RequestAck(0)}), AckingDuplicate(Handed(1)), SETTLED, true, false, 2,
        Dispatching(2))
  }
  function X15(): World {
    Now(Working([ResultA(0), ResultA(1)], [], {RequestAck(0), RequestAck(1)}), Idle, SETTLED, true, false, 2,
        Dispatching(2))
  }
  function X16(): World { Collects([Unclaimed(0), Unclaimed(1)], {}, {}, Waiting, 0) }
  function X17(): World { Collects([Unclaimed(1)], {}, {Received(0)}, Holding(Received(0)), 1) }
  function X18(): World { Collects([Unclaimed(1)], {AckOf(0)}, {}, Waiting, 1) }
  function X19(): World { Collects([], {AckOf(0)}, {Received(1)}, Holding(Received(1)), 2) }
  function X20(): World { Collects([], {AckOf(0), AckOf(1)}, {}, Waiting, 2) }
  function X21(): World { Collects([], {AckOf(0), AckOf(1)}, {}, Judged(true), 2) }

  lemma SameKeys()
    ensures RequestKey(TWINS, 0) == KEY == RequestKey(TWINS, 1)
  {
  }

  lemma Move0()
    ensures Step(CFG, TWINS, X0(), Background(Subscribes(OptimizationRequests, GROUP)), X1())
  {
    Places(KEY);
    TextFacts();
    hide TaskId, RequestKey, PartitionFor, WorkloadLockKey;
  }

  lemma Posts1()
    ensures Publish(Open(), OptimizationRequests, RequestEvent(TWINS, 0), KEY) == Ok(Requested())
    ensures Post(Open(), OptimizationRequests, RequestEvent(TWINS, 0), KEY) == Requested()
  {
    Places(KEY);
    TextFacts();
    hide TaskId, RequestKey, PartitionFor, WorkloadLockKey;
    assert NewEntry(Open(), OptimizationRequests, RequestEvent(TWINS, 0), KEY) == Request(0);
    AppendIs(Open(), Request(0), Requested());
  }

  lemma Move1()
    ensures Step(CFG, TWINS, X1(), Dispatches, X2())
  {
    Posts1();
    TextFacts();
    SameKeys();
    hide Publish, Post, NewEntry, Append, TaskId, RequestKey, WorkloadLockKey;
  }

  lemma Posts2()
    ensures Publish(Requested(), OptimizationRequests, RequestEvent(TWINS, 1),
        KEY) == Ok(Working([], [Asked(0), Asked(1)], {}))
    ensures Post(Requested(), OptimizationRequests, RequestEvent(TWINS, 1), KEY) == Working([], [Asked(0), Asked(1)],
        {})
  {
    Places(KEY);
    TextFacts();
    hide TaskId, RequestKey, PartitionFor, WorkloadLockKey;
    assert [RequestA()][..0] == [] && CountIn([RequestA()], 0) == 1;
    assert NewEntry(Requested(), OptimizationRequests, RequestEvent(TWINS, 1), KEY) == Request(1);
    AppendIs(Requested(), Request(1), Working([], [Asked(0), Asked(1)], {}));
  }

  lemma Move2()
    ensures Step(CFG, TWINS, X2(), Dispatches, X3())
  {
    Posts2();
    TextFacts();
    SameKeys();
    hide Publish, Post, NewEntry, Append, TaskId, RequestKey, WorkloadLockKey;
  }

  lemma Move3()
    ensures Step(CFG, TWINS, X3(), Background(Claims(0)), X4())
  {
    Places(KEY);
    TextFacts();
    hide TaskId, RequestKey, PartitionFor, WorkloadLockKey;
  }

  lemma Move4()
    ensures Step(CFG, TWINS, X4(), Background(Advances(0, true)), X5())
  {
    Places(KEY);
    TextFacts();
    hide TaskId, RequestKey, PartitionFor, WorkloadLockKey;
  }

  lemma Move5()
    ensures Step(CFG, TWINS, X5(), Background(Advances(0, true)), X6())
  {
    Places(KEY);
    TextFacts();
    hide TaskId, RequestKey, PartitionFor, WorkloadLockKey;
  }

  lemma Move6()
    ensures Step(CFG, TWINS, X6(), Background(Advances(0, true)), X7())
  {
    Places(KEY);
    TextFacts();
    hide TaskId, RequestKey, PartitionFor, WorkloadLockKey;
  }

  lemma Move7()
    ensures Step(CFG, TWINS, X7(), Background(Advances(0, true)), X8())
  {
    Places(KEY);
    TextFacts();
    hide TaskId, RequestKey, PartitionFor, WorkloadLockKey;
  }

  lemma Posts8()
    ensures Publish(Working([], [Asked(1)], {}), OptimizationResults, ResultEvent(Handed(0), RESULT),
        KEY) == Ok(Working([ResultA(0)], [Asked(1)], {}))
    ensures Post(Working([], [Asked(1)], {}), OptimizationResults, ResultEvent(Handed(0), RESULT),
        KEY) == Working([ResultA(0)], [Asked(1)], {})
  {
    Places(KEY);
    TextFacts();
    hide TaskId, RequestKey, PartitionFor, WorkloadLockKey;
    assert NewEntry(Working([], [Asked(1)], {}), OptimizationResults, ResultEvent(Handed(0), RESULT),
        KEY) == ResultA(0);
    AppendIs(Working([], [Asked(1)], {}), ResultA(0), Working([ResultA(0)], [Asked(1)], {}));
  }

  lemma Move8()
    ensures Step(CFG, TWINS, X8(), Background(Advances(0, true)), X9())
  {
    Posts8();
    TextFacts();
    SameKeys();
    hide Publish, Post, NewEntry, Append, TaskId, RequestKey, WorkloadLockKey;
  }

  lemma Move9()
    ensures Step(CFG, TWINS, X9(), Background(Advances(0, true)), X10())
  {
    Places(KEY);
    TextFacts();
    hide TaskId, RequestKey, PartitionFor, WorkloadLockKey;
  }

  lemma Move10()
    ensures Step(CFG, TWINS, X10(), Background(Advances(0, true)), X11())
  {
    Places(KEY);
    TextFacts();
    hide TaskId, RequestKey, PartitionFor, WorkloadLockKey;
  }

  lemma Move11()
    ensures Step(CFG, TWINS, X11(), Background(Claims(0)), X12())
  {
    Places(KEY);
    TextFacts();
    hide TaskId, RequestKey, PartitionFor, WorkloadLockKey;
  }

  lemma Move12()
    ensures Step(CFG, TWINS, X12(), Background(Advances(0, true)), X13())
  {
    Places(KEY);
    TextFacts();
    hide TaskId, RequestKey, PartitionFor, WorkloadLockKey;
  }

  lemma Posts13()
    ensures Publish(Working([ResultA(0)], [], {RequestAck(0)}), OptimizationResults, ResultEvent(Handed(1), RESULT),
        KEY) == Ok(Working([ResultA(0), ResultA(1)], [], {RequestAck(0)}))
    ensures Post(Working([ResultA(0)], [], {RequestAck(0)}), OptimizationResults, ResultEvent(Handed(1), RESULT),
        KEY) == Working([ResultA(0), ResultA(1)], [], {RequestAck(0)})
  {
    Places(KEY);
    TextFacts();
    hide TaskId, RequestKey, PartitionFor, WorkloadLockKey;
    assert [ResultA(0)][..0] == [] && CountIn([ResultA(0)], 0) == 1;
    assert NewEntry(Working([ResultA(0)], [], {RequestAck(0)}), OptimizationResults, ResultEvent(Handed(1), RESULT),
        KEY) == ResultA(1);
    AppendIs(Working([ResultA(0)], [], {RequestAck(0)}), ResultA(1),
        Working([ResultA(0), ResultA(1)], [], {RequestAck(0)}));
  }

  lemma Move13()
    ensures Step(CFG, TWINS, X13(), Background(Advances(0, true)), X14())
  {
    Posts13();
    TextFacts();
    SameKeys();
    hide Publish, Post, NewEntry, Append, TaskId, RequestKey, WorkloadLockKey;
  }

  lemma Move14()
    ensures Step(CFG, TWINS, X14(), Background(Advances(0, true)), X15())
  {
    Places(KEY);
    TextFacts();
    hide TaskId, RequestKey, PartitionFor, WorkloadLockKey;
  }

  lemma Move15()
    ensures Step(CFG, TWINS, X15(), StartsWaiting, X16())
  {
    TextFacts();
    hide TaskId, RequestKey, PartitionFor, WorkloadLockKey;
    var log, group := [ResultA(0), ResultA(1)], ResultsGroup(TWINS).1;
    ReplayFacts(log, group);
    assert Replay(log, group) == [Unclaimed(0), Unclaimed(1)];
    var next := Subscribe(X15().system.bus, OptimizationResults, group).value;
    assert next.queues == X16().system.bus.queues;
  }

  lemma Move16()
    ensures Step(CFG, TWINS, X16(), Receives, X17())
  {
    Places(KEY);
    TextFacts();
    hide TaskId, RequestKey, PartitionFor, WorkloadLockKey;
  }

  lemma Move17()
    ensures Step(CFG, TWINS, X17(), Acknowledges, X18())
  {
    Places(KEY);
    TextFacts();
    hide TaskId, RequestKey, PartitionFor, WorkloadLockKey;
  }

  lemma Move18()
    ensures Step(CFG, TWINS, X18(), Receives, X19())
  {
    Places(KEY);
    TextFacts();
    hide TaskId, RequestKey, PartitionFor, WorkloadLockKey;
  }

  lemma Move19()
    ensures Step(CFG, TWINS, X19(), Acknowledges, X20())
  {
    Places(KEY);
    TextFacts();
    hide TaskId, RequestKey, PartitionFor, WorkloadLockKey;
  }

  lemma Move20()
    ensures Step(CFG, TWINS, X20(), Judges(true), X21())
  {
    Places(KEY);
    TextFacts();
    hide TaskId, RequestKey, PartitionFor, WorkloadLockKey;
  }

  function Worlds(): seq<World> {
    [X0(), X1(), X2(), X3(), X4(), X5(), X6(), X7(), X8(), X9(), X10(),
     X11(), X12(), X13(), X14(), X15(), X16(), X17(), X18(), X19(), X20(), X21()]
  }

  function Moves(): seq<Move> {
    var step := Background(Advances(0, true));
    [Background(Subscribes(OptimizationRequests, GROUP)), Dispatches, Dispatches, Background(Claims(0)),
     step, step, step, step, step, step, step, Background(Claims(0)), step, step, step,
     StartsWaiting, Receives, Acknowledges, Receives, Acknowledges, Judges(true)]
  }

  lemma MovesFollow(i: nat)
    requires i < 21
    ensures Step(CFG, TWINS, Worlds()[i], Moves()[i], Worlds()[i + 1])
  {
    Move0(); Move1(); Move2(); Move3(); Move4(); Move5(); Move6(); Move7(); Move8(); Move9(); Move10();
    Move11(); Move12(); Move13(); Move14(); Move15(); Move16(); Move17(); Move18(); Move19(); Move20();
    hide Step, X0, X1, X2, X3, X4, X5, X6, X7, X8, X9, X10, X11, X12, X13, X14, X15, X16, X17, X18, X19, X20, X21;
  }

  lemma Starts()
    ensures X0() == World(Initial(1, 1), CoordinatorState(Dispatching(0), []))
    ensures Indexed(TWINS)
  {
    var x := World(Initial(1, 1), CoordinatorState(Dispatching(0), []));
    assert x.system.pcs == [Idle] && x.system.stats == [FRESH];
  }

  lemma Ends()
    ensures X21().coordinator.phase == Judged(true) && |X21().coordinator.results| == |TWINS.services|
    ensures X21().system.stats == [SETTLED] && REQUESTS in X21().system.bus.queues
        && X21().system.bus.queues[REQUESTS] == []
    ensures !NotServedTwice(TWINS, X21().coordinator.results, 0)
  {
    var results := X21().coordinator.results;
    assert ResultFor(TWINS, 0, results[0]) && ResultFor(TWINS, 0, results[1]);
  }

  /** The whole run, with no failure at all: two different Deployments, one execution of the
      workload graph, and a positive verdict. */
  lemma SharedIdFoolsTheCoordinator()
    ensures SystemRun(CFG, 1, TWINS, Moves(), Worlds())
    ensures forall i :: 0 <= i < |Moves()| ==> !Moves()[i].Background? || !Moves()[i].action.Fails?
    ensures Reliable(TWINS, Moves(), Worlds())
    ensures TWINS.services[0].deployment != TWINS.services[1].deployment && !DistinctServices(TWINS)
    ensures var x := Worlds()[|Moves()|];
      && x.coordinator.phase == Judged(true) && !EachServiceOnce(TWINS, x.coordinator.results)
      && x.system.stats == [SETTLED] && REQUESTS in x.system.bus.queues && x.system.bus.queues[REQUESTS] == []
  {
    Starts();
    Ends();
    hide X0, X1, X2, X3, X4, X5, X6, X7, X8, X9, X10, X11, X12, X13, X14, X15, X16, X17, X18, X19, X20, X21;
    hide Step, Served, NotServedTwice, Initial, Indexed;
    var worlds, moves := Worlds(), Moves();
    forall i | 0 <= i < |moves| ensures Step(CFG, TWINS, worlds[i], moves[i], worlds[i + 1]) {
      MovesFollow(i);
    }
  }
}

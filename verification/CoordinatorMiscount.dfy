/** Why the verdict needs reliable acknowledgement. One worker and two services, "a" and
    "b": the acknowledgement of a's request fails after its result was appended, the retry
    finds the stored result and publishes it again, and the coordinator, counting two
    results, passes the system although nobody ever worked on "b". */
module CoordinatorMiscount {
  import opened Ordering
  import opened Contracts
  import opened Bus
  import opened Locks
  import opened Worker
  import opened Coordinator
  import opened CoordinatorCount
  import opened CoordinatorVerdict

  const CFG := Config(["k"], [0], 3, map["ca" := "a", "cb" := "b"])
  const PLAN := Plan("r", "k", [Service("a", "n", "a"), Service("b", "n", "b")], map["a" := "ca", "b" := "cb"])
  const KEY := "k" + ":" + "n" + ":" + "a"
  const TASK := Task(TaskId("r", "a"), "a", "n", "ca")
  const RESULT := ResultPayload(TaskId("r", "a"), "a", true)

  function RequestA(): PublishedEvent { PublishedEvent(OptimizationRequests, KEY, 0, 0, RequestEvent(PLAN, 0)) }
  function RequestB(): PublishedEvent {
    PublishedEvent(OptimizationRequests, RequestKey(PLAN, 1), 0, 1,
       RequestEvent(PLAN, 1))
  }
  function First(): ConsumedEvent { FirstCopy(RequestA(), GROUP, "worker") }
  function Second(): ConsumedEvent { Retried(First()) }
  function ResultA(offset: nat): PublishedEvent {
    PublishedEvent(OptimizationResults, KEY, 0, offset,
        EventEnvelope(WorkloadOptimizationCompleted, "r", "r", 0, RESULT))
  }
  function Received(offset: nat): ConsumedEvent {
    FirstCopy(ResultA(offset), ResultsGroup(PLAN).1, "system-coordinator")
  }
  function Unclaimed(offset: nat): ConsumedEvent { FirstCopy(ResultA(offset), ResultsGroup(PLAN).1, "") }

  // ---------- The bus as the run goes on ----------

  function Open(): BusState { BusState(1, map[], map[REQUESTS := []], {}, false) }
  function Requested(): BusState {
    BusState(1, map[OptimizationRequests := [RequestA()]], map[REQUESTS := [FirstCopy(RequestA(), "", "")]], {}, false)
  }
  function Taken(): BusState { Requested().(queues := map[REQUESTS := []]) }
  function Drained(results: seq<PublishedEvent>, queue: seq<ConsumedEvent>): BusState {
    BusState(1, map[OptimizationRequests := [RequestA()], OptimizationResults := results], map[REQUESTS := queue], {},
        false)
  }
  function Final(queues: map<GroupKey, seq<ConsumedEvent>>, acknowledged: set<AckKey>): BusState {
    BusState(1, map[OptimizationRequests := [RequestA(), RequestB()], OptimizationResults := [ResultA(0), ResultA(1)]],
             map[REQUESTS := [FirstCopy(RequestB(), "", "")]] + queues, acknowledged, false)
  }
  function Queue(waiting: seq<ConsumedEvent>): map<GroupKey, seq<ConsumedEvent>> { map[ResultsGroup(PLAN) := waiting] }
  function AckOf(offset: nat): AckKey { AckKey(OptimizationResults, ResultsGroup(PLAN).1, 0, offset) }

  function At(bus: BusState, pc: Pc, stats: WorkerStats, stored: bool, locked: bool, times: nat, phase: Phase): World {
    World(System(bus, [pc], [stats], if stored then map[0 := map[TASK.taskId := RESULT]] else map[],
                 if locked then map[KEY := 0] else map[], {}, if times == 0 then map[] else map[(0, 0) := times]),
          CoordinatorState(phase, []))
  }

  const CLAIMED := WorkerStats(1, 0, 0, 0, 0)
  const RETRIED := WorkerStats(1, 0, 0, 1, 0)
  const REPEATED := WorkerStats(2, 0, 0, 1, 1)

  function Collecting(queues: map<GroupKey, seq<ConsumedEvent>>, acknowledged: set<AckKey>, others: set<ConsumedEvent>,
      phase: Phase, results: nat): World
    requires results <= 2
  {
    var x := At(Final(queues, acknowledged), AckingDuplicate(Second()), REPEATED, true, false, 2, phase);
    x.(system := x.system.(others := others),
       coordinator := CoordinatorState(phase, [ResultA(0).event, ResultA(1).event][..results]))
  }

  function W0(): World {
    At(BusState(1, map[], map[], {}, false), Idle, WorkerStats(0, 0, 0, 0, 0), false, false,
       0, Dispatching(0))
  }
  function W1(): World { At(Open(), Idle, WorkerStats(0, 0, 0, 0, 0), false, false, 0, Dispatching(0)) }
  function W2(): World { At(Requested(), Idle, WorkerStats(0, 0, 0, 0, 0), false, false, 0, Dispatching(1)) }
  function W3(): World { At(Taken(), CheckingDuplicate(First(), TASK), CLAIMED, false, false, 1, Dispatching(1)) }
  function W4(): World { At(Taken(), Locking(First(), TASK), CLAIMED, false, false, 1, Dispatching(1)) }
  function W5(): World { At(Taken(), Running(First(), TASK), CLAIMED, false, true, 1, Dispatching(1)) }
  function W6(): World { At(Taken(), Storing(First(), TASK, RESULT), CLAIMED, false, true, 1, Dispatching(1)) }
  function W7(): World { At(Taken(), Publishing(First(), TASK, RESULT), CLAIMED, true, true, 1, Dispatching(1)) }
  function W8(): World {
    At(Drained([ResultA(0)], []), Acking(First(), TASK, RESULT), CLAIMED, true, true, 1,
       Dispatching(1))
  }
  function W9(): World {
    At(Drained([ResultA(0)], []), Retrying(First(), "lost"), RETRIED, true, false, 1, Dispatching(1))
  }
  function W10(): World { At(Drained([ResultA(0)], [Second()]), Idle, RETRIED, true, false, 1, Dispatching(1)) }
  function W11(): World {
    At(Drained([ResultA(0)], []), CheckingDuplicate(Second(), TASK), RETRIED.(claimed := 2),
       true, false, 2, Dispatching(1))
  }
  function W12(): World {
    At(Drained([ResultA(0)], []), PublishingDuplicate(Second(), RESULT), REPEATED, true,
       false, 2, Dispatching(1))
  }
  function W13(): World {
    At(Drained([ResultA(0), ResultA(1)], []), AckingDuplicate(Second()), REPEATED, true,
       false, 2, Dispatching(1))
  }
  function W14(): World { Collecting(map[], {}, {}, Dispatching(2), 0) }
  function W15(): World { Collecting(Queue([Unclaimed(0), Unclaimed(1)]), {}, {}, Waiting, 0) }
  function W16(): World { Collecting(Queue([Unclaimed(1)]), {}, {Received(0)}, Holding(Received(0)), 1) }
  function W17(): World { Collecting(Queue([Unclaimed(1)]), {AckOf(0)}, {}, Waiting, 1) }
  function W18(): World { Collecting(Queue([]), {AckOf(0)}, {Received(1)}, Holding(Received(1)), 2) }
  function W19(): World { Collecting(Queue([]), {AckOf(0), AckOf(1)}, {}, Waiting, 2) }
  function W20(): World { Collecting(Queue([]), {AckOf(0), AckOf(1)}, {}, Judged(true), 2) }

  lemma Places(key: string)
    ensures PartitionFor(key, 1) == 0
  {
  }

  /** Appending `e` leads to `next` when log and queues agree entry by entry. */
  lemma AppendIs(bus: BusState, e: PublishedEvent, next: BusState)
    requires next == BusState(bus.partitions, next.logs, next.queues, bus.acknowledged, bus.closed)
    requires next.logs.Keys == bus.logs.Keys + {e.topic} && next.queues.Keys == bus.queues.Keys
    requires next.logs[e.topic] == Log(bus, e.topic) + [e]
    requires forall t :: t in bus.logs && t != e.topic ==> next.logs[t] == bus.logs[t]
    requires forall g :: g in bus.queues ==>
      next.queues[g] == if g.0 == e.topic then bus.queues[g] + [FirstCopy(e, "", "")] else bus.queues[g]
    ensures Append(bus, e) == next
  {
    var after := Append(bus, e);
    assert after.logs == next.logs && after.queues == next.queues;
  }

  lemma TextFacts()
    ensures TaskId("r", "a") != "" && TaskId("r", "b") != "" && TaskId("r", "a") != TaskId("r", "b")
    ensures RequestKey(PLAN, 0) == KEY && KEY != "" && RequestKey(PLAN, 1) != ""
    ensures WorkloadLockKey("k", "n", "a") == Ok(KEY)
  {
    assert TaskId("r", "a")[2] == 'a' && TaskId("r", "b")[2] == 'b';
  }

  lemma Step0()
    ensures Step(CFG, PLAN, W0(), Background(Subscribes(OptimizationRequests, GROUP)), W1())
  {
  }

  lemma Bus1()
    ensures Publish(Open(), OptimizationRequests, RequestEvent(PLAN, 0), KEY) == Ok(Requested())
    ensures Post(Open(), OptimizationRequests, RequestEvent(PLAN, 0), KEY) == Requested()
  {
    Places(KEY);
    TextFacts();
    hide TaskId, RequestKey, PartitionFor, WorkloadLockKey;
    assert NewEntry(Open(), OptimizationRequests, RequestEvent(PLAN, 0), KEY) == RequestA();
    AppendIs(Open(), RequestA(), Requested());
  }

  lemma Step1()
    ensures Step(CFG, PLAN, W1(), Dispatches, W2())
  {
    Bus1();
    TextFacts();
    hide Publish, Post, NewEntry, Append, TaskId, RequestKey, WorkloadLockKey;
  }

  lemma Step2()
    ensures Step(CFG, PLAN, W2(), Background(Claims(0)), W3())
  {
    TextFacts();
    hide TaskId, RequestKey, WorkloadLockKey;
  }

  lemma Step3()
    ensures Step(CFG, PLAN, W3(), Background(Advances(0, true)), W4())
  {
  }

  lemma Step4()
    ensures Step(CFG, PLAN, W4(), Background(Advances(0, true)), W5())
  {
  }

  lemma Step5()
    ensures Step(CFG, PLAN, W5(), Background(Advances(0, true)), W6())
  {
  }

  lemma Step6()
    ensures Step(CFG, PLAN, W6(), Background(Advances(0, true)), W7())
  {
  }

  lemma Bus7()
    ensures Publish(Taken(), OptimizationResults, ResultEvent(First(), RESULT), KEY) == Ok(Drained([ResultA(0)], []))
    ensures Post(Taken(), OptimizationResults, ResultEvent(First(), RESULT), KEY) == Drained([ResultA(0)], [])
  {
    Places(KEY);
    TextFacts();
    hide TaskId, RequestKey, PartitionFor, WorkloadLockKey;
    assert NewEntry(Taken(), OptimizationResults, ResultEvent(First(), RESULT), KEY) == ResultA(0);
    AppendIs(Taken(), ResultA(0), Drained([ResultA(0)], []));
  }

  lemma Step7()
    ensures Step(CFG, PLAN, W7(), Background(Advances(0, true)), W8())
  {
    Bus7();
    TextFacts();
    hide Publish, Post, NewEntry, Append, TaskId, RequestKey, WorkloadLockKey;
  }

  lemma Step8()
    ensures Step(CFG, PLAN, W8(), Background(Fails(0, "lost")), W9())
  {
  }

  lemma Step9()
    ensures Step(CFG, PLAN, W9(), Background(Advances(0, true)), W10())
  {
    TextFacts();
    hide TaskId, RequestKey, PartitionFor, WorkloadLockKey;
    var next := Retry(Drained([ResultA(0)], []), First(), "lost").value;
    assert [] + [Second()] == [Second()];
    assert next.queues == Drained([ResultA(0)], [Second()]).queues;
  }

  lemma Step10()
    ensures Step(CFG, PLAN, W10(), Background(Claims(0)), W11())
  {
  }

  lemma Step11()
    ensures Step(CFG, PLAN, W11(), Background(Advances(0, true)), W12())
  {
  }

  lemma Bus12()
    ensures Publish(Drained([ResultA(0)], []), OptimizationResults, ResultEvent(Second(), RESULT),
        KEY) == Ok(Drained([ResultA(0), ResultA(1)], []))
    ensures Post(Drained([ResultA(0)], []), OptimizationResults, ResultEvent(Second(), RESULT),
        KEY) == Drained([ResultA(0), ResultA(1)], [])
  {
    Places(KEY);
    TextFacts();
    hide TaskId, RequestKey, PartitionFor, WorkloadLockKey;
    assert [ResultA(0)][..0] == [] && CountIn([ResultA(0)], 0) == 1;
    assert NewEntry(Drained([ResultA(0)], []), OptimizationResults, ResultEvent(Second(), RESULT), KEY) == ResultA(1);
    AppendIs(Drained([ResultA(0)], []), ResultA(1), Drained([ResultA(0), ResultA(1)], []));
  }

  lemma Step12()
    ensures Step(CFG, PLAN, W12(), Background(Advances(0, true)), W13())
  {
    Bus12();
    TextFacts();
    hide Publish, Post, NewEntry, Append, TaskId, RequestKey, WorkloadLockKey;
  }

  lemma Bus13()
    ensures Publish(Drained([ResultA(0), ResultA(1)], []), OptimizationRequests, RequestEvent(PLAN, 1),
        RequestKey(PLAN, 1)) == Ok(Final(map[], {}))
    ensures Post(Drained([ResultA(0), ResultA(1)], []), OptimizationRequests, RequestEvent(PLAN, 1),
        RequestKey(PLAN, 1)) == Final(map[], {})
  {
    Places(RequestKey(PLAN, 1));
    TextFacts();
    hide TaskId, RequestKey, PartitionFor, WorkloadLockKey;
    assert [RequestA()][..0] == [] && CountIn([RequestA()], 0) == 1;
    assert NewEntry(Drained([ResultA(0), ResultA(1)], []), OptimizationRequests, RequestEvent(PLAN, 1),
        RequestKey(PLAN, 1)) == RequestB();
    AppendIs(Drained([ResultA(0), ResultA(1)], []), RequestB(), Final(map[], {}));
  }

  lemma Step13()
    ensures Step(CFG, PLAN, W13(), Dispatches, W14())
  {
    Bus13();
    TextFacts();
    hide Publish, Post, NewEntry, Append, TaskId, RequestKey, WorkloadLockKey;
  }

  lemma Step14()
    ensures Step(CFG, PLAN, W14(), StartsWaiting, W15())
  {
    TextFacts();
    hide TaskId, RequestKey, PartitionFor, WorkloadLockKey;
    var log, group := [ResultA(0), ResultA(1)], ResultsGroup(PLAN).1;
    ReplayFacts(log, group);
    assert Replay(log, group) == [Unclaimed(0), Unclaimed(1)];
    var next := Subscribe(Final(map[], {}), OptimizationResults, group).value;
    assert next.queues == Final(Queue([Unclaimed(0), Unclaimed(1)]), {}).queues;
  }

  lemma Step15()
    ensures Step(CFG, PLAN, W15(), Receives, W16())
  {
    Places(KEY);
    TextFacts();
    hide TaskId, RequestKey, PartitionFor, WorkloadLockKey;
  }

  lemma Step16()
    ensures Step(CFG, PLAN, W16(), Acknowledges, W17())
  {
  }

  lemma Step17()
    ensures Step(CFG, PLAN, W17(), Receives, W18())
  {
    assert [Unclaimed(1)][1..] == [] && W17().coordinator.results + [ResultA(1).event] == W18().coordinator.results;
    assert W17().system.others + {Received(1)} == {Received(1)};
    hide TaskId, RequestKey, PartitionFor, WorkloadLockKey;
  }

  lemma Step18()
    ensures Step(CFG, PLAN, W18(), Acknowledges, W19())
  {
  }

  lemma Step19()
    ensures Step(CFG, PLAN, W19(), Judges(true), W20())
  {
  }

  function Worlds(): seq<World> {
    [W0(), W1(), W2(), W3(), W4(), W5(), W6(), W7(), W8(), W9(), W10(),
     W11(), W12(), W13(), W14(), W15(), W16(), W17(), W18(), W19(), W20()]
  }

  function Moves(): seq<Move> {
    var step := Background(Advances(0, true));
    [Background(Subscribes(OptimizationRequests, GROUP)), Dispatches, Background(Claims(0)),
     step, step, step, step, step, Background(Fails(0, "lost")), step, Background(Claims(0)), step, step,
     Dispatches, StartsWaiting, Receives, Acknowledges, Receives, Acknowledges, Judges(true)]
  }

  lemma StepsFollow(i: nat)
    requires i < 20
    ensures Step(CFG, PLAN, Worlds()[i], Moves()[i], Worlds()[i + 1])
  {
    Step0(); Step1(); Step2(); Step3(); Step4(); Step5(); Step6(); Step7(); Step8(); Step9();
    Step10(); Step11(); Step12(); Step13(); Step14(); Step15(); Step16(); Step17(); Step18(); Step19();
    hide Step, W0, W1, W2, W3, W4, W5, W6, W7, W8, W9, W10, W11, W12, W13, W14, W15, W16, W17, W18, W19, W20;
  }

  lemma Starts()
    ensures W0() == World(Initial(1, 1), CoordinatorState(Dispatching(0), []))
    ensures Indexed(PLAN) && DistinctServices(PLAN)
  {
  }

  lemma Ends()
    ensures FailsToAck(PLAN, W8().system, Background(Fails(0, "lost")))
    ensures W20().coordinator.phase == Judged(true) && |W20().coordinator.results| == |PLAN.services|
    ensures !Served(PLAN, W20().coordinator.results, 1)
    ensures W20().system.bus.queues[REQUESTS] == [FirstCopy(RequestB(), "", "")]
  {
  }

  /** The whole run: one failed acknowledgement, and the coordinator passes a system whose
      second service was never worked on. */
  lemma FailedAckFoolsTheCoordinator()
    ensures SystemRun(CFG, 1, PLAN, Moves(), Worlds()) && !Reliable(PLAN, Moves(), Worlds())
    ensures var x := Worlds()[|Moves()|];
      && x.coordinator.phase == Judged(true)
      && |x.coordinator.results| == |PLAN.services|
      && !Served(PLAN, x.coordinator.results, 1) && !EachServiceOnce(PLAN, x.coordinator.results)
      && REQUESTS in x.system.bus.queues && x.system.bus.queues[REQUESTS] == [FirstCopy(RequestB(), "", "")]
  {
    Starts();
    Ends();
    hide W0, W1, W2, W3, W4, W5, W6, W7, W8, W9, W10, W11, W12, W13, W14, W15, W16, W17, W18, W19;
    hide Step, Served, NotServedTwice, FailsToAck, Initial, RequestB, Indexed, DistinctServices;
    var worlds, moves := Worlds(), Moves();
    forall i | 0 <= i < |moves| ensures Step(CFG, PLAN, worlds[i], moves[i], worlds[i + 1]) {
      StepsFollow(i);
    }
    assert FailsToAck(PLAN, worlds[8].system, moves[8]);
  }
}

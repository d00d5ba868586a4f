/** A run without any failed acknowledgement in which a service is accepted and the system
    nevertheless fails: the accepting run's result could not be stored, the request was
    retried, and the next run of the workload graph rejected the service. */
module CoordinatorReversal {
  import opened Ordering
  import opened Contracts
  import opened Bus
  import opened Locks
  import opened Worker
  import opened WorkerProvenance
  import opened Coordinator
  import opened CoordinatorDecisions
  import opened CoordinatorLastWord
  import opened CoordinatorMiscount

  const ONE := Plan("r", "k", [Service("a", "n", "a")], map["a" := "ca"])
  const REJECTED := ResultPayload(TaskId("r", "a"), "a", false)

  function Rejection(): PublishedEvent {
    PublishedEvent(OptimizationResults, KEY, 0, 0, EventEnvelope(WorkloadOptimizationCompleted, "r", "r", 0, REJECTED))
  }
  function Collected(): ConsumedEvent { FirstCopy(Rejection(), ResultsGroup(ONE).1, "system-coordinator") }
  function Offered(): ConsumedEvent { FirstCopy(Rejection(), ResultsGroup(ONE).1, "") }
  function RequestAck(): AckKey { AckKey(OptimizationRequests, GROUP, 0, 0) }
  function ResultAck(): AckKey { AckKey(OptimizationResults, ResultsGroup(ONE).1, 0, 0) }

  // ---------- The run ----------

  function Reported(acknowledged: set<AckKey>, queues: map<GroupKey, seq<ConsumedEvent>>): BusState {
    BusState(1, map[OptimizationRequests := [RequestA()], OptimizationResults := [Rejection()]],
             map[REQUESTS := []] + queues, acknowledged, false)
  }

  function Seen(bus: BusState, pc: Pc, stats: WorkerStats, stored: bool, locked: bool, times: nat,
      phase: Phase): World {
    World(System(bus, [pc], [stats], if stored then map[0 := map[TASK.taskId := REJECTED]] else map[],
                 if locked then map[KEY := 0] else map[], {}, if times == 0 then map[] else map[(0, 0) := times]),
          CoordinatorState(phase, []))
  }

  function Judging(acknowledged: set<AckKey>, waiting: seq<ConsumedEvent>, others: set<ConsumedEvent>, phase: Phase,
      results: seq<EventEnvelope>): World {
    var bus := Reported({RequestAck()} + acknowledged, map[ResultsGroup(ONE) := waiting]);
    var x := Seen(bus, Idle, SETTLED, true, false, 2, phase);
    World(x.system.(others := others), CoordinatorState(phase, results))
  }

  const NEW := WorkerStats(0, 0, 0, 0, 0)
  const AGAIN := WorkerStats(2, 0, 0, 1, 0)
  const SETTLED := WorkerStats(2, 1, 0, 1, 0)

  function Y0(): World { Seen(BusState(1, map[], map[], {}, false), Idle, NEW, false, false, 0, Dispatching(0)) }
  function Y1(): World { Seen(Open(), Idle, NEW, false, false, 0, Dispatching(0)) }
  function Y2(): World { Seen(Requested(), Idle, NEW, false, false, 0, Dispatching(1)) }
  function Y3(): World { Seen(Taken(), CheckingDuplicate(First(), TASK), CLAIMED, false, false, 1, Dispatching(1)) }
  function Y4(): World { Seen(Taken(), Locking(First(), TASK), CLAIMED, false, false, 1, Dispatching(1)) }
  function Y5(): World { Seen(Taken(), Running(First(), TASK), CLAIMED, false, true, 1, Dispatching(1)) }
  function Y6(): World { Seen(Taken(), Storing(First(), TASK, RESULT), CLAIMED, false, true, 1, Dispatching(1)) }
  function Y7(): World { Seen(Taken(), Retrying(First(), "down"), RETRIED, false, false, 1, Dispatching(1)) }
  function Y8(): World {
    Seen(Taken().(queues := map[REQUESTS := [Second()]]), Idle, RETRIED, false, false, 1, Dispatching(1))
  }
  function Y9(): World { Seen(Taken(), CheckingDuplicate(Second(), TASK), AGAIN, false, false, 2, Dispatching(1)) }
  function Y10(): World { Seen(Taken(), Locking(Second(), TASK), AGAIN, false, false, 2, Dispatching(1)) }
  function Y11(): World { Seen(Taken(), Running(Second(), TASK), AGAIN, false, true, 2, Dispatching(1)) }
  function Y12(): World { Seen(Taken(), Storing(Second(), TASK, REJECTED), AGAIN, false, true, 2, Dispatching(1)) }
  function Y13(): World { Seen(Taken(), Publishing(Second(), TASK, REJECTED), AGAIN, true, true, 2, Dispatching(1)) }
  function Y14(): World {
    Seen(Reported({}, map[]), Acking(Second(), TASK, REJECTED), AGAIN, true, true, 2, Dispatching(1))
  }
  function Y15(): World {
    Seen(Reported({RequestAck()}, map[]), Releasing(Second(), TASK), AGAIN, true, true, 2, Dispatching(1))
  }
  function Y16(): World { Seen(Reported({RequestAck()}, map[]), Idle, SETTLED, true, false, 2, Dispatching(1)) }
  function Y17(): World { Judging({}, [Offered()], {}, Waiting, []) }
  function Y18(): World { Judging({}, [], {Collected()}, Holding(Collected()), [Rejection().event]) }
  function Y19(): World { Judging({ResultAck()}, [], {}, Waiting, [Rejection().event]) }
  function Y20(): World { Judging({ResultAck()}, [], {}, Judged(false), [Rejection().event]) }

  lemma SameRequest()
    ensures RequestKey(ONE, 0) == KEY && RequestEvent(ONE, 0) == RequestEvent(PLAN, 0)
  {
  }

  lemma Turn0()
    ensures Step(CFG, ONE, Y0(), Background(Subscribes(OptimizationRequests, GROUP)), Y1())
  {
    hide TaskId, RequestKey, PartitionFor, WorkloadLockKey;
  }

  lemma Turn1()
    ensures Step(CFG, ONE, Y1(), Dispatches, Y2())
  {
    Bus1();
    SameRequest();
    hide Publish, Post, NewEntry, Append, TaskId, RequestKey, RequestEvent, WorkloadLockKey;
  }

  lemma Turn2()
    ensures Step(CFG, ONE, Y2(), Background(Claims(0)), Y3())
  {
    TextFacts();
    hide TaskId, RequestKey, PartitionFor, WorkloadLockKey;
  }

  lemma Turn3()
    ensures Step(CFG, ONE, Y3(), Background(Advances(0, true)), Y4())
  {
    TextFacts();
    hide TaskId, RequestKey, PartitionFor, WorkloadLockKey;
  }

  lemma Turn4()
    ensures Step(CFG, ONE, Y4(), Background(Advances(0, true)), Y5())
  {
    TextFacts();
    hide TaskId, RequestKey, PartitionFor, WorkloadLockKey;
  }

  lemma Turn5()
    ensures Step(CFG, ONE, Y5(), Background(Advances(0, true)), Y6())
  {
    TextFacts();
    hide TaskId, RequestKey, PartitionFor, WorkloadLockKey;
  }

  lemma Turn6()
    ensures Step(CFG, ONE, Y6(), Background(Fails(0, "down")), Y7())
  {
    TextFacts();
    hide TaskId, RequestKey, PartitionFor, WorkloadLockKey;
  }

  lemma Turn7()
    ensures Step(CFG, ONE, Y7(), Background(Advances(0, true)), Y8())
  {
    TextFacts();
    hide TaskId, RequestKey, PartitionFor, WorkloadLockKey;
    var next := Retry(Taken(), First(), "down").value;
    assert [] + [Second()] == [Second()];
    assert next.queues == map[REQUESTS := [Second()]];
  }

  lemma Turn8()
    ensures Step(CFG, ONE, Y8(), Background(Claims(0)), Y9())
  {
    TextFacts();
    hide TaskId, RequestKey, PartitionFor, WorkloadLockKey;
  }

  lemma Turn9()
    ensures Step(CFG, ONE, Y9(), Background(Advances(0, false)), Y10())
  {
    TextFacts();
    hide TaskId, RequestKey, PartitionFor, WorkloadLockKey;
  }

  lemma Turn10()
    ensures Step(CFG, ONE, Y10(), Background(Advances(0, false)), Y11())
  {
    TextFacts();
    hide TaskId, RequestKey, PartitionFor, WorkloadLockKey;
  }

  lemma Turn11()
    ensures Step(CFG, ONE, Y11(), Background(Advances(0, false)), Y12())
  {
    TextFacts();
    hide TaskId, RequestKey, PartitionFor, WorkloadLockKey;
  }

  lemma Turn12()
    ensures Step(CFG, ONE, Y12(), Background(Advances(0, false)), Y13())
  {
    TextFacts();
    hide TaskId, RequestKey, PartitionFor, WorkloadLockKey;
  }

  lemma Bus13()
    ensures Publish(Taken(), OptimizationResults, ResultEvent(Second(), REJECTED), KEY) == Ok(Reported({}, map[]))
    ensures Post(Taken(), OptimizationResults, ResultEvent(Second(), REJECTED), KEY) == Reported({}, map[])
  {
    Places(KEY);
    TextFacts();
    hide TaskId, RequestKey, PartitionFor, WorkloadLockKey;
    assert NewEntry(Taken(), OptimizationResults, ResultEvent(Second(), REJECTED), KEY) == Rejection();
    AppendIs(Taken(), Rejection(), Reported({}, map[]));
  }

  lemma Turn13()
    ensures Step(CFG, ONE, Y13(), Background(Advances(0, false)), Y14())
  {
    Bus13();
    TextFacts();
    hide Publish, Post, NewEntry, Append, TaskId, RequestKey, WorkloadLockKey;
  }

  lemma Turn14()
    ensures Step(CFG, ONE, Y14(), Background(Advances(0, false)), Y15())
  {
    TextFacts();
    hide TaskId, RequestKey, PartitionFor, WorkloadLockKey;
  }

  lemma Turn15()
    ensures Step(CFG, ONE, Y15(), Background(Advances(0, false)), Y16())
  {
    TextFacts();
    hide TaskId, RequestKey, PartitionFor, WorkloadLockKey;
  }

  lemma Turn16()
    ensures Step(CFG, ONE, Y16(), StartsWaiting, Y17())
  {
    hide TaskId, RequestKey, PartitionFor, WorkloadLockKey;
    var log, group := [Rejection()], ResultsGroup(ONE).1;
    assert log[1..] == [] && Replay(log, group) == [Offered()];
    var next := Subscribe(Y16().system.bus, OptimizationResults, group).value;
    assert next.queues == Y17().system.bus.queues;
  }

  lemma Turn17()
    ensures Step(CFG, ONE, Y17(), Receives, Y18())
  {
    hide TaskId, RequestKey, PartitionFor, WorkloadLockKey;
  }

  lemma Turn18()
    ensures Step(CFG, ONE, Y18(), Acknowledges, Y19())
  {
    hide TaskId, RequestKey, PartitionFor, WorkloadLockKey;
  }

  lemma Turn19()
    ensures Step(CFG, ONE, Y19(), Judges(true), Y20())
  {
    assert !Accepted(Y19().coordinator.results[0]);
    hide TaskId, RequestKey, PartitionFor, WorkloadLockKey;
  }

  function Worlds(): seq<World> {
    [Y0(), Y1(), Y2(), Y3(), Y4(), Y5(), Y6(), Y7(), Y8(), Y9(), Y10(),
     Y11(), Y12(), Y13(), Y14(), Y15(), Y16(), Y17(), Y18(), Y19(), Y20()]
  }

  function Moves(): seq<Move> {
    var yes, no := Background(Advances(0, true)), Background(Advances(0, false));
    [Background(Subscribes(OptimizationRequests, GROUP)), Dispatches, Background(Claims(0)), yes, yes, yes,
     Background(Fails(0, "down")), yes, Background(Claims(0)), no, no, no, no, no, no, no,
     StartsWaiting, Receives, Acknowledges, Judges(true)]
  }

  lemma TurnsFollow(i: nat)
    requires i < 20
    ensures Step(CFG, ONE, Worlds()[i], Moves()[i], Worlds()[i + 1])
  {
    Turn0(); Turn1(); Turn2(); Turn3(); Turn4(); Turn5(); Turn6(); Turn7(); Turn8(); Turn9(); Turn10();
    Turn11(); Turn12(); Turn13(); Turn14(); Turn15(); Turn16(); Turn17(); Turn18(); Turn19();
    hide Step, Y0, Y1, Y2, Y3, Y4, Y5, Y6, Y7, Y8, Y9, Y10, Y11, Y12, Y13, Y14, Y15, Y16, Y17, Y18, Y19, Y20;
  }

  lemma Starts()
    ensures Y0() == World(Initial(1, 1), CoordinatorState(Dispatching(0), []))
    ensures Indexed(ONE) && DistinctServices(ONE) && OneStore(CFG)
  {
    var x := World(Initial(1, 1), CoordinatorState(Dispatching(0), []));
    assert x.system.pcs == [Idle] && x.system.stats == [NEW];
  }

  /** The only failure is that of storing the first result. */
  lemma OnlyStoringFails(i: nat)
    requires i < 20
    ensures !FailsToAck(ONE, Worlds()[i].system, Moves()[i])
  {
    if Moves()[i].Background? && Moves()[i].action.Fails? {
      assert i == 6;
      assert Worlds()[6] == Y6();
    }
  }

  /** The whole run: the service was accepted once, no acknowledgement failed, the end-to-end
      check agrees, and the verdict is negative; so it does not suffice that some graph run
      accepted each service. */
  lemma AcceptedOnceIsNotEnough()
    ensures SystemRun(CFG, 1, ONE, Moves(), Worlds()) && Reliable(ONE, Moves(), Worlds()) && DistinctServices(ONE)
    ensures OneStore(CFG) && Moves()[19] == Judges(true)
    ensures EverDecided(ONE, Moves(), Worlds(), 20, 0, true)
    ensures Worlds()[20].coordinator.phase == Judged(false)
  {
    Starts();
    var worlds, moves := Worlds(), Moves();
    assert worlds[0] == Y0() && worlds[20] == Y20() && worlds[5] == Y5();
    assert DecidesOn(ONE, moves, worlds, 5, 0, true) by {
      assert TaskId("r", "a") == "r" + ":" + "a";
    }
    assert Y20().coordinator.phase == Judged(false);
    hide Y0, Y1, Y2, Y3, Y4, Y5, Y6, Y7, Y8, Y9, Y10, Y11, Y12, Y13, Y14, Y15, Y16, Y17, Y18, Y19, Y20;
    hide Step, Initial, Indexed, FailsToAck, DecidesOn;
    forall i | 0 <= i < |moves|
      ensures Step(CFG, ONE, worlds[i], moves[i], worlds[i + 1]) && !FailsToAck(ONE, worlds[i].system, moves[i])
    {
      TurnsFollow(i);
      OnlyStoringFails(i);
    }
  }
}

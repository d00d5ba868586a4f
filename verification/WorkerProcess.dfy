/** The worker as an object: `process` runs to its end on real fields, and what it leaves is
    what the protocol's steps of that worker, taken without interruption, leave. */
module WorkerProcess {
  import opened Ordering
  import opened Contracts
  import opened Bus
  import opened Locks
  import opened Worker
  import opened WorkerSafety
  import opened WorkerAccounting
  import opened WorkerRuns

  /** Where in the try block an exception may be raised. */
  datatype Stage = LockStage | ExecuteStage | StoreStage | PublishStage | AckStage

  datatype Fault = Fault(stage: Stage, error: string)

  function StageOf(pc: Pc): Option<Stage> {
    match pc
    case Locking(_, _) => Some(LockStage)
    case Running(_, _) => Some(ExecuteStage)
    case Storing(_, _, _) => Some(StoreStage)
    case Publishing(_, _, _) => Some(PublishStage)
    case Acking(_, _, _) => Some(AckStage)
    case _ => None
  }

  predicate Raises(fault: Option<Fault>, pc: Pc) {
    fault.Some? && StageOf(pc) == Some(fault.value.stage)
  }

  function Rank(pc: Pc): nat {
    match pc
    case CheckingDuplicate(_, _) => 10
    case Locking(_, _) => 9
    case Running(_, _) => 8
    case Storing(_, _, _) => 7
    case Publishing(_, _, _) => 6
    case Acking(_, _, _) => 5
    case PublishingDuplicate(_, _) => 3
    case DeadLettering(_, _) => 3
    case AckingDuplicate(_) => 2
    case AckingDeadLetter(_) => 2
    case Releasing(_, _) => 1
    case Retrying(_, _) => 1
    case _ => 0
  }

  lemma RankFalls(cfg: Config, s: System, w: nat, verdict: bool)
    requires WellFormed(cfg, s) && s.bus.partitions >= 1 && w < |s.pcs| && CanAdvance(cfg, s, w)
    ensures Rank(Advance(cfg, s, w, verdict).pc) < Rank(s.pcs[w])
  {
    hide Post, Retry, Acknowledge, Unlocked, LockKeyOf, Publish, ResultEvent, DeadLetterEvent, Store;
  }

  /** Worker `w` alone, until it has nothing to do or cannot go on. */
  ghost function Alone(cfg: Config, s: System, w: nat, verdict: bool, fault: Option<Fault>): System
    requires WellFormed(cfg, s) && s.bus.partitions >= 1 && w < |s.pcs|
    decreases Rank(s.pcs[w])
  {
    if Raises(fault, s.pcs[w]) then
      StepFrame(cfg, s, Fails(w, "raised"));
      Alone(cfg, FailStep(cfg, s, w, fault.value.error), w, verdict, None)
    else if CanAdvance(cfg, s, w) then
      RankFalls(cfg, s, w, verdict);
      StepFrame(cfg, s, Advances(w, verdict));
      Alone(cfg, AdvanceStep(cfg, s, w, verdict), w, verdict, fault)
    else s
  }

  predicate FaultOk(fault: Option<Fault>) {
    fault.Some? ==> fault.value.error != ""
  }

  lemma RaisesInTryBlock(fault: Option<Fault>, pc: Pc)
    requires Raises(fault, pc)
    ensures InTryBlock(pc)
  {
  }

  lemma FailKeepsInv(cfg: Config, s: System, w: nat, error: string)
    requires Inv(cfg, s) && w < |s.pcs| && InTryBlock(s.pcs[w]) && error != ""
    ensures Inv(cfg, FailStep(cfg, s, w, error))
  {
    hide Custody, Progress, AckedIsDone, LocksOk, AllBalanced, Conserved, Metered, FailStep;
    assert Enabled(cfg, s, Fails(w, error));
    hide Inv;
    StepInv(cfg, s, Fails(w, error));
  }

  lemma AdvanceKeepsInv(cfg: Config, s: System, w: nat, verdict: bool)
    requires Inv(cfg, s) && w < |s.pcs| && CanAdvance(cfg, s, w)
    ensures Inv(cfg, AdvanceStep(cfg, s, w, verdict))
  {
    hide Custody, Progress, AckedIsDone, LocksOk, AllBalanced, Conserved, Metered, AdvanceStep, CanAdvance;
    assert Enabled(cfg, s, Advances(w, verdict));
    hide Inv;
    StepInv(cfg, s, Advances(w, verdict));
  }

  /** An uninterrupted worker takes only protocol steps, so every invariant of the
      interleaved system survives it. */
  lemma {:induction false} AloneKeepsInv(cfg: Config, s: System, w: nat, verdict: bool, fault: Option<Fault>)
    requires Inv(cfg, s) && w < |s.pcs| && FaultOk(fault)
    ensures WellFormed(cfg, s) && s.bus.partitions >= 1
    ensures Inv(cfg, Alone(cfg, s, w, verdict, fault))
    decreases Rank(s.pcs[w])
  {
    InvParts(cfg, s);
    RankFallsAlone(cfg, s, w, verdict, fault);
    hide Inv, Custody, Progress, Advance, Failed, CanAdvance, Raises, Rank, FailStep, AdvanceStep, InTryBlock;
    if Raises(fault, s.pcs[w]) {
      RaisesInTryBlock(fault, s.pcs[w]);
      FailKeepsInv(cfg, s, w, fault.value.error);
      AloneKeepsInv(cfg, FailStep(cfg, s, w, fault.value.error), w, verdict, None);
    } else if CanAdvance(cfg, s, w) {
      AdvanceKeepsInv(cfg, s, w, verdict);
      AloneKeepsInv(cfg, AdvanceStep(cfg, s, w, verdict), w, verdict, fault);
    }
  }

  lemma RankFallsAlone(cfg: Config, s: System, w: nat, verdict: bool, fault: Option<Fault>)
    requires WellFormed(cfg, s) && s.bus.partitions >= 1 && w < |s.pcs|
    ensures CanAdvance(cfg, s, w) ==> Rank(AdvanceStep(cfg, s, w, verdict).pcs[w]) < Rank(s.pcs[w])
    ensures Raises(fault, s.pcs[w]) ==> Rank(FailStep(cfg, s, w, fault.value.error).pcs[w]) < Rank(s.pcs[w])
  {
    hide Advance, CanAdvance, Unlocked;
    if CanAdvance(cfg, s, w) {
      RankFalls(cfg, s, w, verdict);
    }
  }

  /** Nothing stands in the way of worker `w`: its group exists, its keys and reasons are
      not empty, nobody holds the lock it will want. */
  predicate Unhindered(cfg: Config, s: System, w: nat)
    requires w < |s.pcs| && w < |cfg.clusters|
  {
    var pc := s.pcs[w];
    && !s.bus.closed && REQUESTS in s.bus.queues
    && (!pc.Idle? && !pc.Releasing? ==>
        pc.message.key != "" && (pc.message.topic, pc.message.consumerGroup) == REQUESTS)
    && (pc.CheckingDuplicate? && LockKeyOf(cfg, w, pc.task).Ok? ==> LockKeyOf(cfg, w, pc.task).value !in s.locks)
    && (pc.Locking? ==> LockKeyOf(cfg, w, pc.task).Ok? && LockKeyOf(cfg, w, pc.task).value !in s.locks)
    && (pc.Retrying? ==> pc.reason != "")
  }

  lemma UnhinderedGoesOn(cfg: Config, s: System, w: nat, verdict: bool)
    requires WellFormed(cfg, s) && s.bus.partitions >= 1 && w < |s.pcs| && Unhindered(cfg, s, w)
    ensures CanAdvance(cfg, s, w) || s.pcs[w].Idle? || s.pcs[w].Crashed?
    ensures CanAdvance(cfg, s, w) ==> Unhindered(cfg, AdvanceStep(cfg, s, w, verdict), w)
  {
    UnhinderedCan(cfg, s, w);
    if CanAdvance(cfg, s, w) {
      AdvanceBus(cfg, s, w, verdict);
      AdvanceHolds(cfg, s, w, verdict);
      UnhinderedNext(cfg, s, w, verdict);
      hide Advance, CanAdvance, NewEntry, LockKeyOf, PostEvent;
    }
  }

  lemma UnhinderedCan(cfg: Config, s: System, w: nat)
    requires WellFormed(cfg, s) && s.bus.partitions >= 1 && w < |s.pcs| && Unhindered(cfg, s, w)
    ensures CanAdvance(cfg, s, w) || s.pcs[w].Idle? || s.pcs[w].Crashed?
  {
    hide ResultEvent, DeadLetterEvent, LockKeyOf, NewEntry, Append;
  }

  lemma UnhinderedNext(cfg: Config, s: System, w: nat, verdict: bool)
    requires WellFormed(cfg, s) && s.bus.partitions >= 1 && w < |s.pcs| && Unhindered(cfg, s, w)
        && CanAdvance(cfg, s, w)
    ensures var o := Advance(cfg, s, w, verdict);
      && !o.pc.CheckingDuplicate? && !o.pc.Retrying?
      && (o.pc.Locking? ==>
          o.locks == s.locks && LockKeyOf(cfg, w, o.pc.task).Ok? && LockKeyOf(cfg, w, o.pc.task).value !in s.locks)
  {
    hide Post, Retry, Acknowledge, Unlocked, LockKeyOf, Publish, ResultEvent, DeadLetterEvent, Store;
  }

  lemma FailureUnhindered(cfg: Config, s: System, w: nat, error: string)
    requires WellFormed(cfg, s) && w < |s.pcs| && Unhindered(cfg, s, w) && InTryBlock(s.pcs[w]) && error != ""
    ensures Unhindered(cfg, FailStep(cfg, s, w, error), w)
  {
    hide Unlocked, LockKeyOf;
  }

  /** An unhindered worker always finishes its delivery: it ends idle, unless the lock key
      cannot be built, the one exception nothing in `process` catches. */
  lemma {:induction false} AloneFinishes(cfg: Config, s: System, w: nat, verdict: bool, fault: Option<Fault>)
    requires WellFormed(cfg, s) && s.bus.partitions >= 1 && w < |s.pcs| && Unhindered(cfg, s, w) && FaultOk(fault)
    ensures Alone(cfg, s, w, verdict, fault).pcs != []
    ensures var r := Alone(cfg, s, w, verdict, fault); |r.pcs| == |s.pcs| && (r.pcs[w].Idle? || r.pcs[w].Crashed?)
    decreases Rank(s.pcs[w])
  {
    RankFallsAlone(cfg, s, w, verdict, fault);
    hide Unhindered, Advance, Failed, Raises, Rank, FailStep, AdvanceStep, InTryBlock, CanAdvance;
    if Raises(fault, s.pcs[w]) {
      RaisesInTryBlock(fault, s.pcs[w]);
      AloneFrame(cfg, s, Fails(w, fault.value.error));
      FailureUnhindered(cfg, s, w, fault.value.error);
      AloneFinishes(cfg, FailStep(cfg, s, w, fault.value.error), w, verdict, None);
    } else {
      UnhinderedGoesOn(cfg, s, w, verdict);
      if CanAdvance(cfg, s, w) {
        AloneFrame(cfg, s, Advances(w, verdict));
        AloneFinishes(cfg, AdvanceStep(cfg, s, w, verdict), w, verdict, fault);
      }
    }
  }

  lemma AloneFrame(cfg: Config, s: System, a: Action)
    requires (a.Fails? || a.Advances?) && Enabled(cfg, s, a)
    ensures var r := if a.Fails? then FailStep(cfg, s, a.w, a.error) else AdvanceStep(cfg, s, a.w, a.verdict);
      WellFormed(cfg, r) && SameFrame(s, r)
  {
    StepFrame(cfg, s, a);
    hide FailStep, AdvanceStep, CanAdvance;
  }

  // ---------- One worker, step by step ----------

  function Solo(bus: BusState, pc: Pc, stats: WorkerStats, results: map<string, Payload>,
      locks: map<string, nat>): System {
    System(bus, [pc], [stats], map[0 := results], locks, {}, map[])
  }

  predicate SoloConfig(cfg: Config, bus: BusState) {
    |cfg.clusters| == 1 && cfg.storeOf == [0] && bus.partitions >= 1 && !bus.closed
  }

  lemma Goes(cfg: Config, s: System, s': System, verdict: bool, fault: Option<Fault>)
    requires SoloConfig(cfg, s.bus) && |s.pcs| == |s.stats| == |s'.pcs| == |s'.stats| == 1 && s'.bus.partitions >= 1
    requires !Raises(fault, s.pcs[0]) && CanAdvance(cfg, s, 0) && s' == AdvanceStep(cfg, s, 0, verdict)
    ensures Alone(cfg, s, 0, verdict, fault) == Alone(cfg, s', 0, verdict, fault)
  {
    hide Advance, CanAdvance;
  }

  lemma SoloAckGoes(cfg: Config, bus: BusState, pc: Pc, stats: WorkerStats, results: map<string, Payload>,
      locks: map<string, nat>, verdict: bool, fault: Option<Fault>)
    requires SoloConfig(cfg, bus) && (pc.AckingDuplicate? || pc.AckingDeadLetter?)
    ensures Alone(cfg, Solo(bus, pc, stats, results, locks), 0, verdict, fault)
      == Solo(Acknowledge(bus, pc.message), Idle, stats, results, locks)
  {
  }

  function NextPc(pc: Pc): Pc
    requires pc.PublishingDuplicate? || pc.DeadLettering?
  {
    if pc.DeadLettering? then AckingDeadLetter(pc.message) else AckingDuplicate(pc.message)
  }

  lemma SoloPostGoes(cfg: Config, bus: BusState, pc: Pc, stats: WorkerStats, results: map<string, Payload>,
      locks: map<string, nat>, verdict: bool)
    requires SoloConfig(cfg, bus) && (pc.PublishingDuplicate? || pc.DeadLettering?) && pc.message.key != ""
    ensures var s := Solo(bus, pc, stats, results, locks);
      && CanAdvance(cfg, s, 0)
      && AdvanceStep(cfg, s, 0, verdict)
          == Solo(Post(bus, PostTopic(pc), PostEvent(pc), pc.message.key), NextPc(pc), stats, results, locks)
  {
    hide NewEntry, Append, ResultEvent, DeadLetterEvent;
  }

  /** Publish, then acknowledge: the duplicate result or the dead letter. */
  lemma SoloPost(cfg: Config, bus: BusState, pc: Pc, stats: WorkerStats, results: map<string, Payload>,
      locks: map<string, nat>, verdict: bool, fault: Option<Fault>)
    requires SoloConfig(cfg, bus) && (pc.PublishingDuplicate? || pc.DeadLettering?) && pc.message.key != ""
    ensures Alone(cfg, Solo(bus, pc, stats, results, locks), 0, verdict, fault)
      == Solo(Acknowledge(Post(bus, PostTopic(pc), PostEvent(pc), pc.message.key), pc.message), Idle, stats, results,
          locks)
  {
    var posted := Post(bus, PostTopic(pc), PostEvent(pc), pc.message.key);
    hide Alone, AdvanceStep, CanAdvance, PostEvent, PartitionFor;
    SoloPostGoes(cfg, bus, pc, stats, results, locks, verdict);
    Goes(cfg, Solo(bus, pc, stats, results, locks), Solo(posted, NextPc(pc), stats, results, locks), verdict, fault);
    SoloAckGoes(cfg, posted, NextPc(pc), stats, results, locks, verdict, fault);
  }

  lemma SoloRetry(cfg: Config, bus: BusState, pc: Pc, stats: WorkerStats, results: map<string, Payload>,
      locks: map<string, nat>, verdict: bool, fault: Option<Fault>)
    requires SoloConfig(cfg, bus) && pc.Retrying? && Retry(bus, pc.message, pc.reason).Ok?
    ensures Alone(cfg, Solo(bus, pc, stats, results, locks), 0, verdict, fault)
      == Solo(Retry(bus, pc.message, pc.reason).value, Idle, stats, results, locks)
  {
  }

  /** After an exception with the lock already given back. */
  function AfterFailure(cfg: Config, bus: BusState, m: ConsumedEvent, error: string, stats: WorkerStats,
      results: map<string, Payload>, locks: map<string, nat>): System {
    if m.event.attempt + 1 < cfg.maxDeliveryAttempts
    then Solo(bus, Retrying(m, error), stats.(retried := stats.retried + 1), results, locks)
    else Solo(bus, DeadLettering(m, error), stats.(failed := stats.failed + 1), results, locks)
  }

  lemma SoloRaise(cfg: Config, bus: BusState, pc: Pc, stats: WorkerStats, results: map<string, Payload>,
      locks: map<string, nat>, verdict: bool, fault: Fault)
    requires SoloConfig(cfg, bus) && StageOf(pc) == Some(fault.stage) && LockKeyOf(cfg, 0, pc.task).Ok?
    ensures Alone(cfg, Solo(bus, pc, stats, results, locks), 0, verdict, Some(fault))
      == Alone(cfg, AfterFailure(cfg, bus, pc.message, fault.error, stats, results,
                                 if HoldsLock(pc) then locks - {LockKeyOf(cfg, 0, pc.task).value} else locks), 0,
                                     verdict, None)
  {
    var s := Solo(bus, pc, stats, results, locks);
    hide LockKeyOf;
    assert FailStep(cfg, s, 0, fault.error)
        == AfterFailure(cfg, bus, pc.message, fault.error, stats, results,
                        if HoldsLock(pc) then locks - {LockKeyOf(cfg, 0, pc.task).value} else locks);
    hide FailStep, AfterFailure, CanAdvance, AdvanceStep;
  }

  /** From the duplicate check: repeat a stored result, crash on an unusable lock key, or go
      for the lock. */
  lemma SoloCheck(cfg: Config, bus: BusState, m: ConsumedEvent, task: Task, stats: WorkerStats,
      results: map<string, Payload>, locks: map<string, nat>, verdict: bool, fault: Option<Fault>)
    requires SoloConfig(cfg, bus)
    ensures Alone(cfg, Solo(bus, CheckingDuplicate(m, task), stats, results, locks), 0, verdict, fault)
      == if task.taskId in results
         then Alone(cfg, Solo(bus, PublishingDuplicate(m, results[task.taskId]),
             stats.(duplicates := stats.duplicates + 1), results, locks),
                    0, verdict, fault)
         else if LockKeyOf(cfg, 0, task).Err? then Solo(bus, Crashed(m), stats, results, locks)
         else Alone(cfg, Solo(bus, Locking(m, task), stats, results, locks), 0, verdict, fault)
  {
    var s := Solo(bus, CheckingDuplicate(m, task), stats, results, locks);
    assert Store(s, 0) == results;
    hide LockKeyOf, Store;
    var s' := if task.taskId in results
      then Solo(bus, PublishingDuplicate(m, results[task.taskId]), stats.(duplicates := stats.duplicates + 1), results,
          locks)
      else Solo(bus, if LockKeyOf(cfg, 0, task).Err? then Crashed(m) else Locking(m, task), stats, results, locks);
    Goes(cfg, s, s', verdict, fault);
  }

  /** From a free lock to the result, nothing raised. */
  lemma SoloLock(cfg: Config, bus: BusState, m: ConsumedEvent, task: Task, stats: WorkerStats,
      results: map<string, Payload>, locks: map<string, nat>, verdict: bool, fault: Option<Fault>)
    requires SoloConfig(cfg, bus) && LockKeyOf(cfg, 0, task).Ok? && LockKeyOf(cfg, 0, task).value !in locks
    requires !Raises(fault, Locking(m, task))
    ensures Alone(cfg, Solo(bus, Locking(m, task), stats, results, locks), 0, verdict, fault)
      == Alone(cfg, Solo(bus, Running(m, task), stats, results, locks[LockKeyOf(cfg, 0, task).value := 0]), 0, verdict,
          fault)
  {
    hide LockKeyOf, Alone;
    var held := locks[LockKeyOf(cfg, 0, task).value := 0];
    Goes(cfg, Solo(bus, Locking(m, task), stats, results, locks), Solo(bus, Running(m, task), stats, results, held),
         verdict, fault);
  }

  lemma SoloRun(cfg: Config, bus: BusState, m: ConsumedEvent, task: Task, stats: WorkerStats,
      results: map<string, Payload>, locks: map<string, nat>, verdict: bool, fault: Option<Fault>)
    requires SoloConfig(cfg, bus) && !Raises(fault, Running(m, task))
    ensures var result := ResultPayload(task.taskId, task.workloadId, verdict);
      Alone(cfg, Solo(bus, Running(m, task), stats, results, locks), 0, verdict, fault)
      == Alone(cfg, Solo(bus, Storing(m, task, result), stats, results, locks), 0, verdict, fault)
  {
    hide LockKeyOf, Alone;
    var result := ResultPayload(task.taskId, task.workloadId, verdict);
    Goes(cfg, Solo(bus, Running(m, task), stats, results, locks),
        Solo(bus, Storing(m, task, result), stats, results, locks),
         verdict, fault);
  }

  lemma SoloStore(cfg: Config, bus: BusState, m: ConsumedEvent, task: Task, result: Payload, stats: WorkerStats,
      results: map<string, Payload>, locks: map<string, nat>, verdict: bool, fault: Option<Fault>)
    requires SoloConfig(cfg, bus) && !Raises(fault, Storing(m, task, result))
    ensures Alone(cfg, Solo(bus, Storing(m, task, result), stats, results, locks), 0, verdict, fault)
      == Alone(cfg, Solo(bus, Publishing(m, task, result), stats, results[task.taskId := result], locks), 0, verdict,
          fault)
  {
    var s := Solo(bus, Storing(m, task, result), stats, results, locks);
    var s' := Solo(bus, Publishing(m, task, result), stats, results[task.taskId := result], locks);
    assert Store(s, 0) == results;
    assert map[0 := results][0 := results[task.taskId := result]] == s'.stores;
    Goes(cfg, s, s', verdict, fault);
  }

  lemma SoloPublish(cfg: Config, bus: BusState, m: ConsumedEvent, task: Task, result: Payload, stats: WorkerStats,
      results: map<string, Payload>, locks: map<string, nat>, verdict: bool, fault: Option<Fault>)
    requires SoloConfig(cfg, bus) && !Raises(fault, Publishing(m, task, result)) && m.key != ""
    ensures Alone(cfg, Solo(bus, Publishing(m, task, result), stats, results, locks), 0, verdict, fault)
      == Alone(cfg, Solo(Post(bus, OptimizationResults, ResultEvent(m, result), m.key), Acking(m, task, result), stats,
          results, locks),
               0, verdict, fault)
  {
    var s := Solo(bus, Publishing(m, task, result), stats, results, locks);
    var posted := Post(bus, OptimizationResults, ResultEvent(m, result), m.key);
    Goes(cfg, s, Solo(posted, Acking(m, task, result), stats, results, locks), verdict, fault);
  }

  /** Acknowledge, count, give the lock back. */
  lemma SoloFinish(cfg: Config, bus: BusState, m: ConsumedEvent, task: Task, result: Payload, stats: WorkerStats,
      results: map<string, Payload>, locks: map<string, nat>, verdict: bool, fault: Option<Fault>)
    requires SoloConfig(cfg, bus) && !Raises(fault, Acking(m, task, result)) && LockKeyOf(cfg, 0, task).Ok?
    ensures Alone(cfg, Solo(bus, Acking(m, task, result), stats, results, locks), 0, verdict, fault)
      == Solo(Acknowledge(bus, m), Idle, stats.(completed := stats.completed + 1), results,
          locks - {LockKeyOf(cfg, 0, task).value})
  {
    var s := Solo(bus, Acking(m, task, result), stats, results, locks);
    var s' := Solo(Acknowledge(bus, m), Releasing(m, task), stats, results, locks);
    hide LockKeyOf;
    Goes(cfg, s, s', verdict, fault);
    Goes(cfg, s', AdvanceStep(cfg, s', 0, verdict), verdict, fault);
  }

  /** A worker that has just been handed `m`. */
  function Handed(cfg: Config, s: System, m: ConsumedEvent): System
    requires |s.pcs| == |s.stats| == 1
  {
    Install(s, 0, Claimed(cfg, s, 0, s.bus, m))
  }

  lemma SoloHanded(cfg: Config, bus: BusState, m: ConsumedEvent, stats: WorkerStats, results: map<string, Payload>,
      locks: map<string, nat>)
    ensures Handed(cfg, Solo(bus, Idle, stats, results, locks), m)
      == match Validate(cfg, m.event)
         case Some(task) => Solo(bus, CheckingDuplicate(m, task), stats.(claimed := stats.claimed + 1), results, locks)
         case None =>
           Solo(bus, DeadLettering(m, "invalid task"),
               stats.(claimed := stats.claimed + 1, failed := stats.failed + 1), results, locks)
  {
    hide Validate;
  }

  lemma SoloWaits(cfg: Config, bus: BusState, m: ConsumedEvent, task: Task, stats: WorkerStats,
      results: map<string, Payload>, locks: map<string, nat>, verdict: bool, fault: Option<Fault>)
    requires SoloConfig(cfg, bus) && LockKeyOf(cfg, 0, task).Ok? && LockKeyOf(cfg, 0, task).value in locks
    requires !Raises(fault, Locking(m, task))
    ensures Alone(cfg, Solo(bus, Locking(m, task), stats, results, locks), 0, verdict, fault)
      == Solo(bus, Locking(m, task), stats, results, locks)
  {
    hide LockKeyOf;
  }

  /** How a call of `process` ends: it returns, its lock key is refused with an exception
      nothing catches, or it waits for a lock somebody holds. */
  datatype Ending = Returned | KeyRefused | AwaitsLock(task: Task)

  function PcAt(ending: Ending, m: ConsumedEvent): Pc {
    match ending
    case Returned => Idle
    case KeyRefused => Crashed(m)
    case AwaitsLock(task) => Locking(m, task)
  }

  // ---------- What `process` leaves, all told ----------

  /** The deliveries of a worker's group with `m` at the back once more. */
  function PutBack(bus: BusState, m: ConsumedEvent): BusState
    requires REQUESTS in bus.queues
  {
    bus.(queues := bus.queues[REQUESTS := bus.queues[REQUESTS]
      + [m.(event := m.event.(attempt := m.event.attempt + 1), deliveryCount := m.deliveryCount + 1)]])
  }

  /** An event published on the delivery's key, and the delivery acknowledged. */
  function Resolved(bus: BusState, m: ConsumedEvent, topic: Topic, event: EventEnvelope): BusState
    requires bus.partitions >= 1
  {
    var posted := Post(bus, topic, event, m.key);
    posted.(acknowledged := posted.acknowledged + {AckKey(m.topic, m.consumerGroup, m.partition, m.offset)})
  }

  function Completion(m: ConsumedEvent, result: Payload): EventEnvelope {
    EventEnvelope(WorkloadOptimizationCompleted, m.event.runId, m.event.correlationId, 0, result)
  }

  function Burial(m: ConsumedEvent, reason: string): EventEnvelope {
    EventEnvelope(DeadLettered, m.event.runId, m.event.correlationId, m.event.attempt,
                  DeadLetterPayload(m.topic, m.event, reason))
  }

  /** After an exception: put back while attempts remain, buried otherwise. */
  function Failure(cfg: Config, bus: BusState, m: ConsumedEvent, error: string, stats: WorkerStats,
      results: map<string, Payload>, locks: map<string, nat>): System
    requires bus.partitions >= 1 && REQUESTS in bus.queues
  {
    if m.event.attempt + 1 < cfg.maxDeliveryAttempts
    then Solo(PutBack(bus, m), Idle, stats.(retried := stats.retried + 1), results, locks)
    else Solo(Resolved(bus, m, Dlq, Burial(m, error)), Idle, stats.(failed := stats.failed + 1), results, locks)
  }

  /** A task gone through to the stage of the fault, or to the end: what was stored and
      published by then stays, and the lock is free again. */
  function Worked(cfg: Config, bus: BusState, m: ConsumedEvent, task: Task, stats: WorkerStats,
      results: map<string, Payload>, locks: map<string, nat>, verdict: bool, fault: Option<Fault>): System
    requires bus.partitions >= 1 && REQUESTS in bus.queues
  {
    var result := ResultPayload(task.taskId, task.workloadId, verdict);
    match fault
    case None =>
      Solo(Resolved(bus, m, OptimizationResults, Completion(m, result)), Idle,
           stats.(completed := stats.completed + 1), results[task.taskId := result], locks)
    case Some(Fault(stage, error)) =>
      var published := if stage.AckStage? then Post(bus, OptimizationResults, Completion(m, result), m.key) else bus;
      var stored := if stage.PublishStage? || stage.AckStage? then results[task.taskId := result] else results;
      Failure(cfg, published, m, error, stats, stored, locks)
  }

  /** One call of `process` as a whole. */
  function Processed(cfg: Config, bus: BusState, m: ConsumedEvent, stats: WorkerStats, results: map<string, Payload>,
      locks: map<string, nat>, verdict: bool, fault: Option<Fault>): System
    requires SoloConfig(cfg, bus) && REQUESTS in bus.queues
  {
    var counted := stats.(claimed := stats.claimed + 1);
    match Validate(cfg, m.event)
    case None =>
      Solo(Resolved(bus, m, Dlq, Burial(m, "invalid task")), Idle, counted.(failed := counted.failed + 1), results,
           locks)
    case Some(task) =>
      if task.taskId in results then
        Solo(Resolved(bus, m, OptimizationResults, Completion(m, results[task.taskId])), Idle,
             counted.(duplicates := counted.duplicates + 1), results, locks)
      else
        match WorkloadLockKey(cfg.clusters[0], task.namespace, task.workloadId)
        case Err(_) => Solo(bus, Crashed(m), counted, results, locks)
        case Ok(key) =>
          if key in locks && !(fault.Some? && fault.value.stage.LockStage?)
          then Solo(bus, Locking(m, task), counted, results, locks)
          else Worked(cfg, bus, m, task, counted, results, locks, verdict, fault)
  }

  lemma FailureLeaves(cfg: Config, bus: BusState, m: ConsumedEvent, error: string, stats: WorkerStats,
      results: map<string, Payload>, locks: map<string, nat>, verdict: bool)
    requires SoloConfig(cfg, bus) && REQUESTS in bus.queues && m.key != "" && (m.topic, m.consumerGroup) == REQUESTS
    requires error != ""
    ensures Alone(cfg, AfterFailure(cfg, bus, m, error, stats, results, locks), 0, verdict, None)
      == Failure(cfg, bus, m, error, stats, results, locks)
  {
    hide Alone, Post;
    if m.event.attempt + 1 < cfg.maxDeliveryAttempts {
      SoloRetry(cfg, bus, Retrying(m, error), stats.(retried := stats.retried + 1), results, locks, verdict, None);
    } else {
      SoloPost(cfg, bus, DeadLettering(m, error), stats.(failed := stats.failed + 1), results, locks, verdict, None);
    }
  }

  /** Getting as far as the result. */
  lemma WorkedSteps(cfg: Config, bus: BusState, m: ConsumedEvent, task: Task, stats: WorkerStats,
      results: map<string, Payload>, locks: map<string, nat>, verdict: bool, fault: Option<Fault>, key: string)
    requires SoloConfig(cfg, bus) && REQUESTS in bus.queues && m.key != "" && (m.topic, m.consumerGroup) == REQUESTS
    requires FaultOk(fault) && LockKeyOf(cfg, 0, task) == Ok(key) && key !in locks
    requires fault.Some? ==> !fault.value.stage.LockStage?
    ensures Alone(cfg, Solo(bus, Locking(m, task), stats, results, locks), 0, verdict, fault)
      == Worked(cfg, bus, m, task, stats, results, locks, verdict, fault)
  {
    hide Alone, LockKeyOf, Failure, AfterFailure, Post;
    var result, held := ResultPayload(task.taskId, task.workloadId, verdict), locks[key := 0];
    var stored, posted := results[task.taskId := result], Post(bus, OptimizationResults, Completion(m, result), m.key);
    assert held - {key} == locks;
    assert SoloConfig(cfg, posted) && REQUESTS in posted.queues by { PostShape(bus, m, result); }
    SoloLock(cfg, bus, m, task, stats, results, locks, verdict, fault);
    if fault.Some? {
      FaultLeaves(cfg, bus, m, task, stats, results, locks, verdict, fault.value, key);
    } else {
      SoloRun(cfg, bus, m, task, stats, results, held, verdict, fault);
      SoloStore(cfg, bus, m, task, result, stats, results, held, verdict, fault);
      SoloPublish(cfg, bus, m, task, result, stats, stored, held, verdict, fault);
      SoloFinish(cfg, posted, m, task, result, stats, stored, held, verdict, fault);
    }
  }

  lemma PostShape(bus: BusState, m: ConsumedEvent, result: Payload)
    requires bus.partitions >= 1
    ensures var posted := Post(bus, OptimizationResults, Completion(m, result), m.key);
      posted.partitions == bus.partitions && posted.closed == bus.closed && posted.queues.Keys == bus.queues.Keys
  {
    hide NewEntry;
  }

  /** A fault once the lock is held. */
  lemma FaultLeaves(cfg: Config, bus: BusState, m: ConsumedEvent, task: Task, stats: WorkerStats,
      results: map<string, Payload>, locks: map<string, nat>, verdict: bool, fault: Fault, key: string)
    requires SoloConfig(cfg, bus) && REQUESTS in bus.queues && m.key != "" && (m.topic, m.consumerGroup) == REQUESTS
    requires fault.error != "" && LockKeyOf(cfg, 0, task) == Ok(key) && key !in locks && !fault.stage.LockStage?
    ensures Alone(cfg, Solo(bus, Running(m, task), stats, results, locks[key := 0]), 0, verdict, Some(fault))
      == Worked(cfg, bus, m, task, stats, results, locks, verdict, Some(fault))
  {
    hide Alone, LockKeyOf, Failure, AfterFailure, Post;
    var result, held := ResultPayload(task.taskId, task.workloadId, verdict), locks[key := 0];
    var stored, posted := results[task.taskId := result], Post(bus, OptimizationResults, Completion(m, result), m.key);
    assert held - {key} == locks;
    assert SoloConfig(cfg, posted) && REQUESTS in posted.queues by { PostShape(bus, m, result); }
    if fault.stage.ExecuteStage? {
      SoloRaise(cfg, bus, Running(m, task), stats, results, held, verdict, fault);
      FailureLeaves(cfg, bus, m, fault.error, stats, results, locks, verdict);
    } else {
      SoloRun(cfg, bus, m, task, stats, results, held, verdict, Some(fault));
      if fault.stage.StoreStage? {
        SoloRaise(cfg, bus, Storing(m, task, result), stats, results, held, verdict, fault);
        FailureLeaves(cfg, bus, m, fault.error, stats, results, locks, verdict);
      } else {
        SoloStore(cfg, bus, m, task, result, stats, results, held, verdict, Some(fault));
        if fault.stage.PublishStage? {
          SoloRaise(cfg, bus, Publishing(m, task, result), stats, stored, held, verdict, fault);
          FailureLeaves(cfg, bus, m, fault.error, stats, stored, locks, verdict);
        } else {
          SoloPublish(cfg, bus, m, task, result, stats, stored, held, verdict, Some(fault));
          SoloRaise(cfg, posted, Acking(m, task, result), stats, stored, held, verdict, fault);
          FailureLeaves(cfg, posted, m, fault.error, stats, stored, locks, verdict);
        }
      }
    }
  }

  /** Going for the lock, which is free or fails. */
  lemma LockedLeaves(cfg: Config, bus: BusState, m: ConsumedEvent, task: Task, stats: WorkerStats,
      results: map<string, Payload>, locks: map<string, nat>, verdict: bool, fault: Option<Fault>, key: string)
    requires SoloConfig(cfg, bus) && REQUESTS in bus.queues && m.key != "" && (m.topic, m.consumerGroup) == REQUESTS
    requires FaultOk(fault) && LockKeyOf(cfg, 0, task) == Ok(key)
    requires key !in locks || (fault.Some? && fault.value.stage.LockStage?)
    ensures Alone(cfg, Solo(bus, Locking(m, task), stats, results, locks), 0, verdict, fault)
      == Worked(cfg, bus, m, task, stats, results, locks, verdict, fault)
  {
    hide Alone, LockKeyOf, Failure, AfterFailure;
    if fault.Some? && fault.value.stage.LockStage? {
      SoloRaise(cfg, bus, Locking(m, task), stats, results, locks, verdict, fault.value);
      FailureLeaves(cfg, bus, m, fault.value.error, stats, results, locks, verdict);
    } else {
      hide Worked;
      WorkedSteps(cfg, bus, m, task, stats, results, locks, verdict, fault, key);
    }
  }

  /** The protocol's steps of an uninterrupted worker amount to exactly this. */
  lemma ProcessLeaves(cfg: Config, bus: BusState, m: ConsumedEvent, stats: WorkerStats, results: map<string, Payload>,
      locks: map<string, nat>, verdict: bool, fault: Option<Fault>)
    requires SoloConfig(cfg, bus) && REQUESTS in bus.queues && m.key != "" && (m.topic, m.consumerGroup) == REQUESTS
    requires FaultOk(fault)
    ensures Alone(cfg, Handed(cfg, Solo(bus, Idle, stats, results, locks), m), 0, verdict, fault)
      == Processed(cfg, bus, m, stats, results, locks, verdict, fault)
  {
    hide Alone, Validate, Handed, Worked, Post, WorkloadLockKey;
    SoloHanded(cfg, bus, m, stats, results, locks);
    var counted := stats.(claimed := stats.claimed + 1);
    var valid := Validate(cfg, m.event);
    if valid.None? {
      SoloPost(cfg, bus, DeadLettering(m, "invalid task"), counted.(failed := counted.failed + 1), results, locks,
               verdict, fault);
    } else {
      var task := valid.value;
      SoloCheck(cfg, bus, m, task, counted, results, locks, verdict, fault);
      if task.taskId in results {
        SoloPost(cfg, bus, PublishingDuplicate(m, results[task.taskId]), counted.(duplicates := counted.duplicates + 1),
                 results, locks, verdict, fault);
      } else if LockKeyOf(cfg, 0, task).Ok? {
        var key := LockKeyOf(cfg, 0, task).value;
        if key in locks && !(fault.Some? && fault.value.stage.LockStage?) {
          SoloWaits(cfg, bus, m, task, counted, results, locks, verdict, fault);
        } else {
          LockedLeaves(cfg, bus, m, task, counted, results, locks, verdict, fault, key);
        }
      }
    }
  }

  // ---------- The objects ----------

  class InMemoryDeduplicationStore {
    var results: map<string, Payload>

    constructor ()
      ensures results == map[]
    {
      results := map[];
    }

    method Get(taskId: string) returns (r: Option<Payload>)
      ensures r == if taskId in results then Some(results[taskId]) else None
    {
      if taskId in results {
        return Some(results[taskId]);
      }
      return None;
    }

    method Put(taskId: string, result: Payload)
      modifies this
      ensures results == old(results)[taskId := result]
    {
      results := results[taskId := result];
    }
  }

  /** Locks by key; taking one that is held would wait, so it is asked for when free. */
  class InMemoryWorkloadLockManager {
    var held: map<string, nat>

    constructor ()
      ensures held == map[]
    {
      held := map[];
    }

    method Acquire(key: string, owner: nat)
      requires key !in held
      modifies this
      ensures held == old(held)[key := owner]
    {
      held := held[key := owner];
    }

    method Release(key: string)
      modifies this
      ensures held == old(held) - {key}
    {
      held := held - {key};
    }
  }

  class OptimizationWorker {
    const cluster: string
    const maxDeliveryAttempts: int
    const contexts: map<string, string>
    const bus: InMemoryEventBus
    const store: InMemoryDeduplicationStore
    const locks: InMemoryWorkloadLockManager
    var stats: WorkerStats

    constructor (cluster: string, maxDeliveryAttempts: int, contexts: map<string, string>, bus: InMemoryEventBus,
        store: InMemoryDeduplicationStore, locks: InMemoryWorkloadLockManager)
      ensures stats == WorkerStats(0, 0, 0, 0, 0)
      ensures this.bus == bus && this.store == store && this.locks == locks
      ensures Cfg() == Config([cluster], [0], maxDeliveryAttempts, contexts)
    {
      this.cluster, this.maxDeliveryAttempts, this.contexts := cluster, maxDeliveryAttempts, contexts;
      this.bus, this.store, this.locks := bus, store, locks;
      stats := WorkerStats(0, 0, 0, 0, 0);
    }

    function Cfg(): Config {
      Config([cluster], [0], maxDeliveryAttempts, contexts)
    }

    /** The protocol state of this worker being the only one, at `pc`. */
    function At(pc: Pc): System
      reads this, bus, store, locks
    {
      Solo(bus.View(), pc, stats, store.results, locks.held)
    }

    ghost predicate Ready(m: ConsumedEvent)
      reads this, bus, store, locks
    {
      && !bus.closed && bus.partitions >= 1 && m.key != ""
      && (m.topic, m.consumerGroup) == REQUESTS && REQUESTS in bus.queues
    }

    /** The `except` branch: retry while attempts remain, otherwise give up. */
    method Recover(m: ConsumedEvent, error: string, ghost verdict: bool)
      requires Ready(m) && error != ""
      modifies this, bus
      ensures bus.partitions >= 1
      ensures At(Idle) == Alone(Cfg(),
        old(AfterFailure(Cfg(), bus.View(), m, error, stats, store.results, locks.held)), 0, verdict, None)
    {
      if m.event.attempt + 1 < maxDeliveryAttempts {
        stats := stats.(retried := stats.retried + 1);
        SoloRetry(Cfg(), bus.View(), Retrying(m, error), stats, store.results, locks.held, verdict, None);
        var _ := bus.RetryEvent(m, error);
      } else {
        stats := stats.(failed := stats.failed + 1);
        GiveUp(m, error, verdict, None);
      }
    }

    /** `process`, from claim to resolution, or to where it has to wait for its lock.
        `verdict` is what the graph decides and `fault` what goes wrong. */
    method Process(m: ConsumedEvent, verdict: bool, fault: Option<Fault>) returns (r: Ending)
      requires Ready(m) && FaultOk(fault)
      modifies this, bus, store, locks
      ensures bus.partitions >= 1
      ensures At(PcAt(r, m)) == Alone(Cfg(), old(Handed(Cfg(), At(Idle), m)), 0, verdict, fault)
      ensures At(PcAt(r, m))
        == old(Processed(Cfg(), bus.View(), m, stats, store.results, locks.held, verdict, fault))
    {
      hide Handed, Alone, Validate, LockKeyOf, Processed, Worked, Failure, Post, Retry;
      ProcessLeaves(Cfg(), bus.View(), m, stats, store.results, locks.held, verdict, fault);
      SoloHanded(Cfg(), bus.View(), m, stats, store.results, locks.held);
      stats := stats.(claimed := stats.claimed + 1);
      var valid := Validate(Cfg(), m.event);
      if valid.None? {
        stats := stats.(failed := stats.failed + 1);
        GiveUp(m, "invalid task", verdict, fault);
        r := Returned;
      } else {
        r := ProcessTask(m, valid.value, verdict, fault);
      }
    }

    method GiveUp(m: ConsumedEvent, reason: string, ghost verdict: bool, ghost fault: Option<Fault>)
      requires Ready(m)
      modifies bus
      ensures bus.partitions >= 1
      ensures At(Idle) == Alone(Cfg(), old(At(DeadLettering(m, reason))), 0, verdict, fault)
    {
      SoloPost(Cfg(), bus.View(), DeadLettering(m, reason), stats, store.results, locks.held, verdict, fault);
      var _ := bus.DeadLetterEventOf(m, reason);
    }

    method ProcessTask(m: ConsumedEvent, task: Task, verdict: bool, fault: Option<Fault>) returns (r: Ending)
      requires Ready(m) && FaultOk(fault)
      modifies this, bus, store, locks
      ensures bus.partitions >= 1
      ensures At(PcAt(r, m)) == Alone(Cfg(), old(At(CheckingDuplicate(m, task))), 0, verdict, fault)
    {
      hide Alone, LockKeyOf;
      SoloCheck(Cfg(), bus.View(), m, task, stats, store.results, locks.held, verdict, fault);
      var found := store.Get(task.taskId);
      if found.Some? {
        stats := stats.(duplicates := stats.duplicates + 1);
        Repeat(m, found.value, verdict, fault);
        return Returned;
      }
      var key := LockKeyOf(Cfg(), 0, task);
      if key.Err? {
        return KeyRefused;
      }
      if key.value in locks.held && !Raises(fault, Locking(m, task)) {
        SoloWaits(Cfg(), bus.View(), m, task, stats, store.results, locks.held, verdict, fault);
        return AwaitsLock(task);
      }
      Work(m, task, key.value, verdict, fault);
      return Returned;
    }

    /** A task already completed: its stored result is published once more. */
    method Repeat(m: ConsumedEvent, found: Payload, ghost verdict: bool, ghost fault: Option<Fault>)
      requires Ready(m)
      modifies bus
      ensures bus.partitions >= 1
      ensures At(Idle) == Alone(Cfg(), old(At(PublishingDuplicate(m, found))), 0, verdict, fault)
    {
      SoloPost(Cfg(), bus.View(), PublishingDuplicate(m, found), stats, store.results, locks.held, verdict, fault);
      var _ := bus.PublishEvent(OptimizationResults, ResultEvent(m, found), m.key);
      bus.AcknowledgeEvent(m);
    }

    /** The try block of `process`, entered at once or when the awaited lock is free. */
    method Work(m: ConsumedEvent, task: Task, key: string, verdict: bool, fault: Option<Fault>)
      requires Ready(m) && FaultOk(fault) && LockKeyOf(Cfg(), 0, task) == Ok(key)
      requires key !in locks.held || Raises(fault, Locking(m, task))
      modifies this, bus, store, locks
      ensures bus.partitions >= 1
      ensures At(Idle) == Alone(Cfg(), old(At(Locking(m, task))), 0, verdict, fault)
      ensures At(Idle) == old(Worked(Cfg(), bus.View(), m, task, stats, store.results, locks.held, verdict, fault))
    {
      hide Alone, LockKeyOf, Worked, Failure, Retry, Post;
      LockedLeaves(Cfg(), bus.View(), m, task, stats, store.results, locks.held, verdict, fault, key);
      if fault.Some? && fault.value.stage.LockStage? {
        SoloRaise(Cfg(), bus.View(), Locking(m, task), stats, store.results, locks.held, verdict, fault.value);
        Recover(m, fault.value.error, verdict);
        return;
      }
      SoloLock(Cfg(), bus.View(), m, task, stats, store.results, locks.held, verdict, fault);
      locks.Acquire(key, 0);
      if fault.Some? && fault.value.stage.ExecuteStage? {
        SoloRaise(Cfg(), bus.View(), Running(m, task), stats, store.results, locks.held, verdict, fault.value);
        Abandon(m, key, fault.value.error, verdict);
        return;
      }
      SoloRun(Cfg(), bus.View(), m, task, stats, store.results, locks.held, verdict, fault);
      Complete(m, task, key, ResultPayload(task.taskId, task.workloadId, verdict), verdict, fault);
    }

    /** An exception inside the lock: leaving the `async with` block releases it first. */
    method Abandon(m: ConsumedEvent, key: string, error: string, ghost verdict: bool)
      requires Ready(m) && error != ""
      modifies this, bus, locks
      ensures bus.partitions >= 1
      ensures At(Idle) == Alone(Cfg(),
        old(AfterFailure(Cfg(), bus.View(), m, error, stats, store.results, locks.held - {key})), 0, verdict, None)
    {
      hide Alone;
      locks.Release(key);
      Recover(m, error, verdict);
    }

    /** The durable part: store, publish, acknowledge, and only then count and unlock. */
    method Complete(m: ConsumedEvent, task: Task, key: string, result: Payload, verdict: bool, fault: Option<Fault>)
      requires Ready(m) && FaultOk(fault) && LockKeyOf(Cfg(), 0, task) == Ok(key)
      requires fault.Some? ==> !fault.value.stage.LockStage? && !fault.value.stage.ExecuteStage?
      modifies this, bus, store, locks
      ensures bus.partitions >= 1
      ensures At(Idle) == Alone(Cfg(), old(At(Storing(m, task, result))), 0, verdict, fault)
    {
      hide Alone, LockKeyOf;
      if fault.Some? && fault.value.stage.StoreStage? {
        SoloRaise(Cfg(), bus.View(), Storing(m, task, result), stats, store.results, locks.held, verdict, fault.value);
        Abandon(m, key, fault.value.error, verdict);
        return;
      }
      SoloStore(Cfg(), bus.View(), m, task, result, stats, store.results, locks.held, verdict, fault);
      store.Put(task.taskId, result);
      if fault.Some? && fault.value.stage.PublishStage? {
        SoloRaise(Cfg(), bus.View(), Publishing(m, task, result), stats, store.results, locks.held, verdict,
            fault.value);
        Abandon(m, key, fault.value.error, verdict);
        return;
      }
      SoloPublish(Cfg(), bus.View(), m, task, result, stats, store.results, locks.held, verdict, fault);
      var _ := bus.PublishEvent(OptimizationResults, ResultEvent(m, result), m.key);
      Settle(m, task, key, result, verdict, fault);
    }

    method Settle(m: ConsumedEvent, task: Task, key: string, result: Payload, verdict: bool, fault: Option<Fault>)
      requires Ready(m) && FaultOk(fault) && LockKeyOf(Cfg(), 0, task) == Ok(key)
      requires fault.Some? ==> fault.value.stage.AckStage?
      modifies this, bus, locks
      ensures bus.partitions >= 1
      ensures At(Idle) == Alone(Cfg(), old(At(Acking(m, task, result))), 0, verdict, fault)
    {
      hide Alone, LockKeyOf;
      if fault.Some? {
        SoloRaise(Cfg(), bus.View(), Acking(m, task, result), stats, store.results, locks.held, verdict, fault.value);
        Abandon(m, key, fault.value.error, verdict);
        return;
      }
      SoloFinish(Cfg(), bus.View(), m, task, result, stats, store.results, locks.held, verdict, fault);
      bus.AcknowledgeEvent(m);
      stats := stats.(completed := stats.completed + 1);
      locks.Release(key);
    }
  }
}

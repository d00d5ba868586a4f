/** What every interleaving of workers keeps: acknowledgement only after durable
    completion, and one worker per workload. */
module WorkerSafety {
  import opened Ordering
  import opened Contracts
  import opened Bus
  import opened Locks
  import opened Worker

  // ---------- Durable completion ----------

  /** A published result for the task of a request, in the same run. */
  predicate Reports(r: EventEnvelope, request: EventEnvelope) {
    && r.eventType.WorkloadOptimizationCompleted? && r.runId == request.runId
    && r.payload.ResultPayload? && request.payload.RequestPayload?
    && request.payload.taskId == Some(r.payload.task)
  }

  /** A dead letter that names a request, at this or a later attempt. */
  predicate Buries(d: PublishedEvent, request: EventEnvelope, key: string) {
    && d.event.eventType.DeadLettered? && d.key == key
    && d.event.payload.DeadLetterPayload?
    && d.event.payload.sourceTopic == OptimizationRequests
    && LaterAttempt(d.event.payload.sourceEvent, request)
  }

  ghost predicate HasResult(bus: BusState, request: EventEnvelope) {
    exists r :: r in Log(bus, OptimizationResults) && Reports(r.event, request)
  }

  ghost predicate HasDeadLetter(bus: BusState, request: EventEnvelope, key: string) {
    exists d :: d in Log(bus, Dlq) && Buries(d, request, key)
  }

  ghost predicate Done(bus: BusState, e: PublishedEvent) {
    HasResult(bus, e.event) || HasDeadLetter(bus, e.event, e.key)
  }

  /** What a worker knows at each point of `process`. */
  ghost predicate PcOk(cfg: Config, bus: BusState, pc: Pc) {
    match pc
    case CheckingDuplicate(m, task) => Validate(cfg, m.event) == Some(task)
    case Locking(m, task) => Validate(cfg, m.event) == Some(task)
    case Running(m, task) => Validate(cfg, m.event) == Some(task)
    case Storing(m, task, result) => Validate(cfg, m.event) == Some(task) && IsResultOf(result, task)
    case Publishing(m, task, result) => Validate(cfg, m.event) == Some(task) && IsResultOf(result, task)
    case Acking(m, task, result) => Validate(cfg, m.event) == Some(task) && HasResult(bus, m.event)
    case PublishingDuplicate(m, found) => m.event.payload.RequestPayload? && found.ResultPayload?
        && m.event.payload.taskId == Some(found.task)
    case AckingDuplicate(m) => HasResult(bus, m.event)
    case AckingDeadLetter(m) => HasDeadLetter(bus, m.event, m.key)
    case _ => true
  }

  predicate IsResultOf(result: Payload, task: Task) {
    result.ResultPayload? && result.task == task.taskId && result.workload == task.workloadId
  }

  ghost predicate StoresOk(stores: map<nat, map<string, Payload>>) {
    forall id, t :: id in stores && t in stores[id] ==> stores[id][t].ResultPayload? && stores[id][t].task == t
  }

  ghost predicate Progress(cfg: Config, s: System) {
    && (forall w :: 0 <= w < |s.pcs| ==> PcOk(cfg, s.bus, s.pcs[w]))
    && StoresOk(s.stores)
  }

  /** Every acknowledged request has its result in the results log, or a dead letter. */
  ghost predicate AckedIsDone(bus: BusState) {
    forall e :: e in Log(bus, OptimizationRequests) && EntryKey(e, GROUP) in bus.acknowledged ==> Done(bus, e)
  }

  // ---------- Logs only grow ----------

  ghost predicate Grows(bus: BusState, bus': BusState) {
    forall t, e :: e in Log(bus, t) ==> e in Log(bus', t)
  }

  lemma GrowthKeepsFacts(cfg: Config, bus: BusState, bus': BusState, pc: Pc)
    requires Grows(bus, bus') && PcOk(cfg, bus, pc)
    ensures PcOk(cfg, bus', pc)
  {
  }

  lemma GrowthKeepsDone(bus: BusState, bus': BusState, e: PublishedEvent)
    requires Grows(bus, bus') && Done(bus, e)
    ensures Done(bus', e)
  {
  }

  lemma PostGrows(bus: BusState, topic: Topic, event: EventEnvelope, key: string)
    requires bus.partitions >= 1
    ensures Grows(bus, Post(bus, topic, event, key))
    ensures NewEntry(bus, topic, event, key) in Log(Post(bus, topic, event, key), topic)
  {
  }

  /** A freshly appended entry is nobody's acknowledged or in-flight delivery. */
  lemma NewEntryUnknown(bus: BusState, inFlight: set<AckKey>, topic: Topic, event: EventEnvelope, key: string,
      group: string)
    requires Live(bus, inFlight)
    ensures var k := EntryKey(NewEntry(bus, topic, event, key), group); k !in bus.acknowledged && k !in inFlight
  {
    AppendKeepsLogs(bus, topic, event, key);
    assert !KnownKey(bus, EntryKey(NewEntry(bus, topic, event, key), group));
  }

  // ---------- Steps ----------

  lemma PostKeepsAcked(s: System, topic: Topic, event: EventEnvelope, key: string)
    requires Custody(s) && AckedIsDone(s.bus)
    ensures AckedIsDone(Post(s.bus, topic, event, key))
  {
    var bus' := Post(s.bus, topic, event, key);
    PostGrows(s.bus, topic, event, key);
    NewEntryUnknown(s.bus, InFlight(s), topic, event, key, GROUP);
    hide Custody, Done, NewEntry;
    forall e | e in Log(bus', OptimizationRequests) && EntryKey(e, GROUP) in bus'.acknowledged ensures Done(bus', e) {
      assert e in Log(s.bus, OptimizationRequests);
      GrowthKeepsDone(s.bus, bus', e);
    }
  }

  lemma SameLogsKeepAcked(bus: BusState, bus': BusState)
    requires AckedIsDone(bus) && bus'.logs == bus.logs && bus.partitions >= 1 && LogsOk(bus)
    requires forall k :: k in bus'.acknowledged ==> k in bus.acknowledged || (k.topic, k.group) != REQUESTS
    ensures AckedIsDone(bus')
  {
  }

  /** The acknowledgement a worker performs is always of a request already done. */
  lemma AckOfDone(s: System, m: ConsumedEvent)
    requires Custody(s) && AckedIsDone(s.bus) && HoldsRequest(s.bus, m)
    requires HasResult(s.bus, m.event) || HasDeadLetter(s.bus, m.event, m.key)
    ensures AckedIsDone(Acknowledge(s.bus, m))
  {
    var bus' := Acknowledge(s.bus, m);
    var e0 :| e0 in Log(s.bus, OptimizationRequests) && CopyOf(m, e0);
    LogIds(s.bus, OptimizationRequests);
    DoneThroughCopy(s.bus, m, e0);
    hide Custody, Done;
    forall e | e in Log(bus', OptimizationRequests) && EntryKey(e, GROUP) in bus'.acknowledged ensures Done(bus', e) {
      if EntryKey(e, GROUP) == AckKeyOf(m, GROUP) {
        assert e == e0;
      }
      GrowthKeepsDone(s.bus, bus', e);
    }
  }

  lemma DoneThroughCopy(bus: BusState, m: ConsumedEvent, e: PublishedEvent)
    requires CopyOf(m, e) && (HasResult(bus, m.event) || HasDeadLetter(bus, m.event, m.key))
    ensures Done(bus, e)
  {
  }

  lemma AdvanceKeepsAcked(cfg: Config, s: System, w: nat, verdict: bool)
    requires Enabled(cfg, s, Advances(w, verdict)) && Custody(s) && Progress(cfg, s) && AckedIsDone(s.bus)
    ensures AckedIsDone(Advance(cfg, s, w, verdict).bus)
  {
    AdvanceBus(cfg, s, w, verdict);
    assert PcOk(cfg, s.bus, s.pcs[w]);
    var pc := s.pcs[w];
    hide Advance, CanAdvance, AckedIsDone, HasResult, HasDeadLetter, HasEntry, Validate, Post, LogsOk;
    if Posts(pc) {
      PostKeepsAcked(s, PostTopic(pc), PostEvent(pc), pc.message.key);
    } else if Acks(pc) {
      assert HoldsRequest(s.bus, Held(pc).value);
      AckOfDone(s, pc.message);
    } else if pc.Retrying? {
      SameLogsKeepAcked(s.bus, Advance(cfg, s, w, verdict).bus);
    }
  }

  lemma QuietTake(cfg: Config, s: System, a: Action)
    requires Enabled(cfg, s, a) && (a.OtherTakes? || a.Claims?)
    ensures Apply(cfg, s, a).bus.logs == s.bus.logs && Apply(cfg, s, a).bus.acknowledged == s.bus.acknowledged
  {
    hide Validate;
  }

  /** Outside publishing, logs stay put and only other groups' keys get acknowledged. */
  lemma QuietStep(cfg: Config, s: System, a: Action)
    requires Enabled(cfg, s, a) && OthersOk(s.bus, s.others) && !a.Publishes? && !a.Advances?
    ensures Apply(cfg, s, a).bus.logs == s.bus.logs
    ensures forall k :: k in Apply(cfg, s, a).bus.acknowledged ==>
        k in s.bus.acknowledged || (k.topic, k.group) != REQUESTS
  {
    if a.OtherTakes? || a.Claims? {
      hide Apply, Enabled, OthersOk;
      QuietTake(cfg, s, a);
    } else if a.Fails? {
      hide Failed, OthersOk;
      FailedBus(cfg, s, a.w, a.error);
    } else {
      hide HasEntry, Replay, ClaimStep, AdvanceStep, FailStep, OtherTakeStep, CanAdvance;
    }
  }

  lemma AckedStep(cfg: Config, s: System, a: Action)
    requires Enabled(cfg, s, a) && Custody(s) && Progress(cfg, s) && AckedIsDone(s.bus)
    ensures AckedIsDone(Apply(cfg, s, a).bus)
  {
    assert s.bus.partitions >= 1 && LogsOk(s.bus) && OthersOk(s.bus, s.others);
    hide Custody, LogsOk, OthersOk, AckedIsDone, Progress, Advance, CanAdvance, ClaimStep, FailStep, OtherTakeStep;
    match a {
      case Publishes(topic, event, key) => PostKeepsAcked(s, topic, event, key);
      case Advances(w, verdict) => AdvanceKeepsAcked(cfg, s, w, verdict);
      case _ =>
        QuietStep(cfg, s, a);
        SameLogsKeepAcked(s.bus, Apply(cfg, s, a).bus);
    }
  }

  lemma FailedBus(cfg: Config, s: System, w: nat, error: string)
    requires WellFormed(cfg, s) && w < |s.pcs| && InTryBlock(s.pcs[w])
    ensures Failed(cfg, s, w, error).bus == s.bus && Failed(cfg, s, w, error).stores == s.stores
  {
  }

  // ---------- Progress ----------

  lemma AdvanceGrows(cfg: Config, s: System, w: nat, verdict: bool)
    requires Enabled(cfg, s, Advances(w, verdict))
    ensures Grows(s.bus, Advance(cfg, s, w, verdict).bus)
  {
    AdvanceBus(cfg, s, w, verdict);
    var pc := s.pcs[w];
    hide Advance, CanAdvance, Grows, NewEntry;
    if Posts(pc) {
      PostGrows(s.bus, PostTopic(pc), PostEvent(pc), pc.message.key);
    } else {
      SameLogsGrow(s.bus, Advance(cfg, s, w, verdict).bus);
    }
  }

  lemma SameLogsGrow(bus: BusState, bus': BusState)
    requires bus'.logs == bus.logs
    ensures Grows(bus, bus')
  {
  }

  lemma AdvancePc(cfg: Config, s: System, w: nat, verdict: bool)
    requires Enabled(cfg, s, Advances(w, verdict)) && Custody(s) && Progress(cfg, s)
    ensures var o := Advance(cfg, s, w, verdict); PcOk(cfg, o.bus, o.pc) && StoresOk(o.stores) && Grows(s.bus, o.bus)
  {
    AdvanceGrows(cfg, s, w, verdict);
    assert PcOk(cfg, s.bus, s.pcs[w]);
    if Posts(s.pcs[w]) {
      assert HoldsRequest(s.bus, Held(s.pcs[w]).value);
      hide Custody, Progress, Grows;
      PcAfterPost(cfg, s, w, verdict);
    } else {
      hide Custody, Grows;
      PcAfterOther(cfg, s, w, verdict);
    }
  }

  lemma PcAfterPost(cfg: Config, s: System, w: nat, verdict: bool)
    requires Enabled(cfg, s, Advances(w, verdict)) && Posts(s.pcs[w]) && PcOk(cfg, s.bus, s.pcs[w])
        && StoresOk(s.stores)
    requires s.pcs[w].message.topic == OptimizationRequests
    ensures var o := Advance(cfg, s, w, verdict); PcOk(cfg, o.bus, o.pc) && StoresOk(o.stores)
  {
    hide Unlocked, LockKeyOf, Publish, HasResult, HasDeadLetter, Post, StoresOk;
    var pc := s.pcs[w];
    if pc.PublishingDuplicate? {
      PostedResult(s.bus, pc.message, pc.found);
    } else if pc.Publishing? {
      PostedResult(s.bus, pc.message, pc.result);
    } else {
      PostedDeadLetter(s.bus, pc.message, pc.reason);
    }
  }

  lemma PcAfterOther(cfg: Config, s: System, w: nat, verdict: bool)
    requires Enabled(cfg, s, Advances(w, verdict)) && !Posts(s.pcs[w]) && PcOk(cfg, s.bus, s.pcs[w])
        && StoresOk(s.stores)
    ensures var o := Advance(cfg, s, w, verdict); PcOk(cfg, o.bus, o.pc) && StoresOk(o.stores)
  {
    hide StoresOk, CanAdvance, Advance, PcOk;
    if s.pcs[w].Storing? || s.pcs[w].CheckingDuplicate? {
      PcAfterStore(cfg, s, w, verdict);
    } else {
      PcAfterMove(cfg, s, w, verdict);
    }
  }

  lemma PcAfterStore(cfg: Config, s: System, w: nat, verdict: bool)
    requires Enabled(cfg, s, Advances(w, verdict)) && PcOk(cfg, s.bus, s.pcs[w]) && StoresOk(s.stores)
    requires s.pcs[w].Storing? || s.pcs[w].CheckingDuplicate?
    ensures var o := Advance(cfg, s, w, verdict); PcOk(cfg, o.bus, o.pc) && StoresOk(o.stores)
  {
    hide Unlocked, LockKeyOf, Publish, HasResult, HasDeadLetter, Acknowledge, Retry, Post;
  }

  lemma PcAfterMove(cfg: Config, s: System, w: nat, verdict: bool)
    requires Enabled(cfg, s, Advances(w, verdict)) && PcOk(cfg, s.bus, s.pcs[w])
    requires !Posts(s.pcs[w]) && !s.pcs[w].Storing? && !s.pcs[w].CheckingDuplicate?
    ensures var o := Advance(cfg, s, w, verdict); PcOk(cfg, o.bus, o.pc) && o.stores == s.stores
  {
    hide Unlocked, LockKeyOf, Publish, HasResult, HasDeadLetter, Acknowledge, Retry, Post, Validate;
  }

  lemma PostedResult(bus: BusState, m: ConsumedEvent, result: Payload)
    requires bus.partitions >= 1 && m.event.payload.RequestPayload? && result.ResultPayload?
    requires m.event.payload.taskId == Some(result.task)
    ensures HasResult(Post(bus, OptimizationResults, ResultEvent(m, result), m.key), m.event)
  {
  }

  lemma PostedDeadLetter(bus: BusState, m: ConsumedEvent, reason: string)
    requires bus.partitions >= 1 && m.topic == OptimizationRequests
    ensures HasDeadLetter(Post(bus, Dlq, DeadLetterEvent(m, reason), m.key), m.event, m.key)
  {
    PostGrows(bus, Dlq, DeadLetterEvent(m, reason), m.key);
    var e := NewEntry(bus, Dlq, DeadLetterEvent(m, reason), m.key);
    assert Buries(e, m.event, m.key);
  }

  lemma ProgressAfter(cfg: Config, s: System, w: nat, o: Outcome)
    requires WellFormed(cfg, s) && Progress(cfg, s) && w < |s.pcs|
    requires Grows(s.bus, o.bus) && PcOk(cfg, o.bus, o.pc) && StoresOk(o.stores)
    ensures Progress(cfg, Install(s, w, o))
  {
  }

  lemma ProgressOnBus(cfg: Config, s: System, bus': BusState)
    requires Progress(cfg, s) && Grows(s.bus, bus')
    ensures forall w :: 0 <= w < |s.pcs| ==> PcOk(cfg, bus', s.pcs[w])
  {
    hide PcOk, Grows;
    forall w | 0 <= w < |s.pcs| ensures PcOk(cfg, bus', s.pcs[w]) {
      GrowthKeepsFacts(cfg, s.bus, bus', s.pcs[w]);
    }
  }

  lemma TakeGrows(bus: BusState, topic: Topic, group: string, consumer: string)
    requires QueueReady(bus, (topic, group))
    ensures Grows(bus, Take(bus, topic, group, consumer).0)
    ensures Take(bus, topic, group, consumer).0 == bus.(queues := Take(bus, topic, group, consumer).0.queues)
  {
  }

  lemma ClaimProgress(cfg: Config, s: System, w: nat)
    requires Enabled(cfg, s, Claims(w)) && Progress(cfg, s)
    ensures Progress(cfg, ClaimStep(cfg, s, w))
  {
    var (bus', claimed) := Take(s.bus, OptimizationRequests, GROUP, "worker");
    TakeGrows(s.bus, OptimizationRequests, GROUP, "worker");
    hide Take, Grows;
    if claimed.Some? {
      var o := Claimed(cfg, s, w, bus', claimed.value);
      ProgressAfter(cfg, s, w, o);
    } else {
      ProgressOnBus(cfg, s, bus');
    }
  }

  lemma AdvanceProgress(cfg: Config, s: System, w: nat, verdict: bool)
    requires Enabled(cfg, s, Advances(w, verdict)) && Custody(s) && Progress(cfg, s)
    ensures Progress(cfg, AdvanceStep(cfg, s, w, verdict))
  {
    hide Progress, Advance, CanAdvance, Custody, Grows, PcOk, StoresOk, Install;
    AdvancePc(cfg, s, w, verdict);
    ProgressAfter(cfg, s, w, Advance(cfg, s, w, verdict));
  }

  lemma FailProgress(cfg: Config, s: System, w: nat, error: string)
    requires Enabled(cfg, s, Fails(w, error)) && Progress(cfg, s)
    ensures Progress(cfg, FailStep(cfg, s, w, error))
  {
    hide Progress, StoresOk, Install;
    FailedBus(cfg, s, w, error);
    ProgressStores(cfg, s);
    ProgressAfter(cfg, s, w, Failed(cfg, s, w, error));
  }

  lemma OtherProgress(cfg: Config, s: System, a: Action)
    requires Enabled(cfg, s, a) && Progress(cfg, s) && !a.Advances? && !a.Fails? && !a.Claims?
    ensures Progress(cfg, Apply(cfg, s, a))
  {
    hide Apply, Enabled, Grows, PcOk, StoresOk;
    OtherStepGrows(cfg, s, a);
    ProgressOnBus(cfg, s, Apply(cfg, s, a).bus);
  }

  lemma ProgressStep(cfg: Config, s: System, a: Action)
    requires Enabled(cfg, s, a) && Custody(s) && Progress(cfg, s)
    ensures Progress(cfg, Apply(cfg, s, a))
  {
    hide Progress, Custody, ClaimStep, AdvanceStep, FailStep, CanAdvance, OtherTakeStep, Publish, Retry, Subscribe;
    match a {
      case Advances(w, verdict) => AdvanceProgress(cfg, s, w, verdict);
      case Fails(w, error) => FailProgress(cfg, s, w, error);
      case Claims(w) => ClaimProgress(cfg, s, w);
      case _ => OtherProgress(cfg, s, a);
    }
  }

  lemma ProgressStores(cfg: Config, s: System)
    requires Progress(cfg, s)
    ensures StoresOk(s.stores)
  {
  }

  lemma OtherStepGrows(cfg: Config, s: System, a: Action)
    requires Enabled(cfg, s, a) && !a.Advances? && !a.Fails? && !a.Claims?
    ensures var s' := Apply(cfg, s, a);
      Grows(s.bus, s'.bus) && s'.pcs == s.pcs && s'.stores == s.stores && s'.stats == s.stats && s'.locks == s.locks
      && s'.deliveries == s.deliveries
  {
  }

  // ---------- Workload locks ----------

  predicate SameWorkload(cfg: Config, v: nat, task: Task, w: nat, task': Task)
    requires v < |cfg.clusters| && w < |cfg.clusters|
  {
    cfg.clusters[v] == cfg.clusters[w] && task.namespace == task'.namespace && task.workloadId == task'.workloadId
  }

  /** The lock table names exactly the workers inside a lock, each under its own key. */
  ghost predicate LocksOk(cfg: Config, s: System) {
    && WellFormed(cfg, s)
    && (forall w :: 0 <= w < |s.pcs| && HoldsLock(s.pcs[w]) ==>
          var key := LockKeyOf(cfg, w, s.pcs[w].task); key.Ok? && key.value in s.locks && s.locks[key.value] == w)
    && (forall key :: key in s.locks ==>
          s.locks[key] < |s.pcs| && HoldsLock(s.pcs[s.locks[key]])
              && LockKeyOf(cfg, s.locks[key], s.pcs[s.locks[key]].task) == Ok(key))
  }

  lemma LocksAfter(cfg: Config, s: System, w: nat, o: Outcome)
    requires LocksOk(cfg, s) && w < |s.pcs|
    requires
      || (HoldsLock(o.pc) && HoldsLock(s.pcs[w]) && o.pc.task == s.pcs[w].task && o.locks == s.locks)
      || (!HoldsLock(o.pc) && o.locks == Unlocked(cfg, s, w))
      || (HoldsLock(o.pc) && !HoldsLock(s.pcs[w]) && LockKeyOf(cfg, w, o.pc.task).Ok?
          && LockKeyOf(cfg, w, o.pc.task).value !in s.locks
              && o.locks == s.locks[LockKeyOf(cfg, w, o.pc.task).value := w])
    ensures LocksOk(cfg, Install(s, w, o))
  {
    hide LockKeyOf;
  }

  lemma LocksStep(cfg: Config, s: System, a: Action)
    requires Enabled(cfg, s, a) && LocksOk(cfg, s)
    ensures LocksOk(cfg, Apply(cfg, s, a))
  {
    match a {
      case Advances(w, verdict) =>
        hide LocksOk, Advance, CanAdvance;
        AdvanceLocks(cfg, s, w, verdict);
      case Fails(w, error) =>
        hide LocksOk, Unlocked;
        LocksAfter(cfg, s, w, Failed(cfg, s, w, error));
      case Claims(w) =>
        hide LockKeyOf, Validate;
        ClaimLocks(cfg, s, w);
      case _ =>
        OtherStepGrows(cfg, s, a);
        StepFrame(cfg, s, a);
        hide LockKeyOf, Apply, HoldsLock;
    }
  }

  lemma AdvanceLocks(cfg: Config, s: System, w: nat, verdict: bool)
    requires Enabled(cfg, s, Advances(w, verdict)) && LocksOk(cfg, s)
    ensures LocksOk(cfg, AdvanceStep(cfg, s, w, verdict))
  {
    UnlockedWithout(cfg, s, w);
    var pc := s.pcs[w];
    hide LocksOk, Post, Validate, Publish, LockKeyOf, Unlocked, Retry, Acknowledge, Store;
    if pc.Locking? || pc.Releasing? {
      LocksAfter(cfg, s, w, Advance(cfg, s, w, verdict));
    } else {
      LockUnmoved(cfg, s, w, verdict);
      LocksAfter(cfg, s, w, Advance(cfg, s, w, verdict));
    }
  }

  lemma LockUnmoved(cfg: Config, s: System, w: nat, verdict: bool)
    requires Enabled(cfg, s, Advances(w, verdict)) && !s.pcs[w].Locking? && !s.pcs[w].Releasing?
    ensures var o := Advance(cfg, s, w, verdict);
      o.locks == s.locks && (HoldsLock(o.pc) <==> HoldsLock(s.pcs[w])) && (HoldsLock(o.pc) ==>
          o.pc.task == s.pcs[w].task)
  {
    hide Post, Validate, Publish, LockKeyOf, Unlocked, Retry, Acknowledge, Store;
  }

  lemma UnlockedWithout(cfg: Config, s: System, w: nat)
    requires w < |s.pcs| && w < |cfg.clusters|
    ensures !HoldsLock(s.pcs[w]) ==> Unlocked(cfg, s, w) == s.locks
  {
  }

  lemma ClaimLocks(cfg: Config, s: System, w: nat)
    requires Enabled(cfg, s, Claims(w)) && LocksOk(cfg, s)
    ensures LocksOk(cfg, ClaimStep(cfg, s, w))
  {
    hide LockKeyOf, Validate;
    var (bus', claimed) := Take(s.bus, OptimizationRequests, GROUP, "worker");
    hide Take;
    if claimed.Some? {
      LocksAfter(cfg, s, w, Claimed(cfg, s, w, bus', claimed.value));
    }
  }

  /** At most one worker is past acquiring the lock of a (cluster, namespace, workload)
      triple, hence at most one runs its graph. */
  lemma WorkloadExclusion(cfg: Config, s: System, v: nat, w: nat)
    requires LocksOk(cfg, s) && v < |s.pcs| && w < |s.pcs| && HoldsLock(s.pcs[v]) && HoldsLock(s.pcs[w])
    ensures SameWorkload(cfg, v, s.pcs[v].task, w, s.pcs[w].task) ==> v == w
  {
  }

  /** A worker waiting for a lock is kept out only by one working on the very same triple:
      different workloads never contend. */
  lemma NoFalseContention(cfg: Config, s: System, w: nat)
    requires LocksOk(cfg, s) && w < |s.pcs| && s.bus.partitions >= 1
    requires s.pcs[w].Locking? && LockKeyOf(cfg, w, s.pcs[w].task).Ok?
    ensures CanAdvance(cfg, s, w) <==>
      forall v :: 0 <= v < |s.pcs| && HoldsLock(s.pcs[v]) ==> !SameWorkload(cfg, v, s.pcs[v].task, w, s.pcs[w].task)
  {
    var task := s.pcs[w].task;
    var key := LockKeyOf(cfg, w, task).value;
    if key in s.locks {
      var v := s.locks[key];
      LockKeyIsInjective(cfg.clusters[v], s.pcs[v].task.namespace, s.pcs[v].task.workloadId,
                         cfg.clusters[w], task.namespace, task.workloadId);
      assert SameWorkload(cfg, v, s.pcs[v].task, w, task);
    }
  }

  // ---------- What a step appends, stores and finds ----------

  lemma StoringStores(cfg: Config, s: System, w: nat, verdict: bool)
    requires Enabled(cfg, s, Advances(w, verdict)) && s.pcs[w].Storing?
    ensures Advance(cfg, s, w, verdict).stores
      == s.stores[cfg.storeOf[w] := Store(s, cfg.storeOf[w])[s.pcs[w].task.taskId := s.pcs[w].result]]
  {
  }

  lemma OnlyStoringStores(cfg: Config, s: System, w: nat, verdict: bool)
    requires Enabled(cfg, s, Advances(w, verdict)) && !s.pcs[w].Storing?
    ensures Advance(cfg, s, w, verdict).stores == s.stores
  {
    hide Post, Retry, Acknowledge, Unlocked, LockKeyOf, Publish, ResultEvent, DeadLetterEvent, Store;
  }

  lemma OnlyCheckingFinds(cfg: Config, s: System, w: nat, verdict: bool)
    requires Enabled(cfg, s, Advances(w, verdict)) && !s.pcs[w].CheckingDuplicate?
    ensures !Advance(cfg, s, w, verdict).pc.PublishingDuplicate?
  {
    hide Post, Retry, Acknowledge, Unlocked, LockKeyOf, Publish, ResultEvent, DeadLetterEvent, Store;
  }

  lemma PublishIsPost(cfg: Config, s: System, topic: Topic, event: EventEnvelope, key: string)
    requires Enabled(cfg, s, Publishes(topic, event, key))
    ensures Apply(cfg, s, Publishes(topic, event, key)) == s.(bus := Post(s.bus, topic, event, key))
  {
    hide NewEntry, Append;
  }

  lemma ActionGrows(cfg: Config, s: System, a: Action)
    requires Enabled(cfg, s, a)
    ensures Grows(s.bus, Apply(cfg, s, a).bus)
  {
    match a {
      case Advances(w, verdict) =>
        hide Grows, Advance, CanAdvance;
        AdvanceGrows(cfg, s, w, verdict);
      case Fails(w, error) => FailedBus(cfg, s, w, error);
      case Claims(w) =>
        TakeGrows(s.bus, OptimizationRequests, GROUP, "worker");
        hide Validate, Grows, Take;
      case _ =>
        hide Grows;
        OtherStepGrows(cfg, s, a);
    }
  }

  lemma AdvanceAppends(cfg: Config, s: System, w: nat, verdict: bool) returns (n: PublishedEvent)
    requires Enabled(cfg, s, Advances(w, verdict)) && Posts(s.pcs[w])
    ensures n.topic == PostTopic(s.pcs[w]) && n.event == PostEvent(s.pcs[w]) && n.key == s.pcs[w].message.key
    ensures Apply(cfg, s, Advances(w, verdict)).bus == Append(s.bus, n)
  {
    AdvanceBus(cfg, s, w, verdict);
    hide Advance, CanAdvance, PostEvent, PostTopic, Post;
    n := PostedEntry(s.bus, PostTopic(s.pcs[w]), PostEvent(s.pcs[w]), s.pcs[w].message.key);
  }

  lemma AdvancesQuietly(cfg: Config, s: System, w: nat, verdict: bool)
    requires Enabled(cfg, s, Advances(w, verdict)) && !Posts(s.pcs[w])
    ensures Apply(cfg, s, Advances(w, verdict)).bus.logs == s.bus.logs
  {
    AdvanceBus(cfg, s, w, verdict);
    hide Advance, CanAdvance;
  }

  lemma PostedEntry(bus: BusState, topic: Topic, event: EventEnvelope, key: string) returns (n: PublishedEvent)
    requires bus.partitions >= 1
    ensures n.topic == topic && n.event == event && n.key == key && Post(bus, topic, event, key) == Append(bus, n)
  {
    n := NewEntry(bus, topic, event, key);
  }

  lemma PublishedEntry(cfg: Config, s: System, topic: Topic, event: EventEnvelope, key: string)
    returns (n: PublishedEvent)
    requires Enabled(cfg, s, Publishes(topic, event, key))
    ensures n.topic == topic && n.event == event && n.key == key
    ensures Apply(cfg, s, Publishes(topic, event, key)).bus == Append(s.bus, n)
  {
    PublishIsPost(cfg, s, topic, event, key);
    hide Apply;
    n := PostedEntry(s.bus, topic, event, key);
  }
}

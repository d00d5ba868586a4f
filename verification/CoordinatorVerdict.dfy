/** Counting results against checking them off. When every task reports at most once, as many
    results as services means every service reported; without that, counting can be fooled. */
module CoordinatorVerdict {
  import opened Ordering
  import opened Contracts
  import opened Bus
  import opened Locks
  import opened Worker
  import opened WorkerSafety
  import opened WorkerRuns
  import opened Coordinator
  import opened CoordinatorSafety
  import opened CoordinatorCount

  // ---------- What the coordinator has collected ----------

  /** Result entry `r` will not be delivered to the coordinator again. */
  predicate Resolved(plan: Plan, x: World, r: PublishedEvent) {
    var k, c := EntryKey(r, ResultsGroup(plan).1), x.coordinator;
    c.phase.TimedOut? || k in x.system.bus.acknowledged
    || (c.phase.Holding? && AckKeyOf(c.phase.message, c.phase.message.consumerGroup) == k)
  }

  ghost predicate Backed(plan: Plan, x: World, e: EventEnvelope) {
    exists r :: ComesFrom(plan, x.system.bus, e, r) && Resolved(plan, x, r)
  }

  predicate DistinctTasks(results: seq<EventEnvelope>) {
    forall j, k :: 0 <= j < k < |results| ==> TaskOf(results[j]) != TaskOf(results[k])
  }

  ghost predicate Collected(plan: Plan, x: World) {
    && (forall k :: 0 <= k < |x.coordinator.results| ==> Backed(plan, x, x.coordinator.results[k]))
    && DistinctTasks(x.coordinator.results)
  }

  lemma SameTask(plan: Plan, bus: BusState, e: EventEnvelope, r: PublishedEvent)
    requires ComesFrom(plan, bus, e, r)
    ensures TaskOf(e) == TaskOf(r.event)
  {
  }

  lemma BackedStays(plan: Plan, x: World, x': World, e: EventEnvelope)
    requires Backed(plan, x, e) && Grows(x.system.bus, x'.system.bus)
    requires forall r :: Resolved(plan, x, r) ==> Resolved(plan, x', r)
    ensures Backed(plan, x', e)
  {
    var r :| ComesFrom(plan, x.system.bus, e, r) && Resolved(plan, x, r);
    hide Resolved;
    assert ComesFrom(plan, x'.system.bus, e, r);
  }

  lemma ResolvedStays(cfg: Config, plan: Plan, x: World, move: Move, x': World, r: PublishedEvent)
    requires Indexed(plan) && Step(cfg, plan, x, move, x') && Resolved(plan, x, r)
    ensures Resolved(plan, x', r)
  {
    var a := BusAction(plan, x.coordinator, move);
    if a.Some? {
      AcksStay(cfg, x.system, a.value);
    }
    if move.Acknowledges? {
      assert x'.system.bus == Acknowledge(x.system.bus, x.coordinator.phase.message);
    }
    hide Enabled, Apply, Foreign, Take;
  }

  lemma AllBackedStay(cfg: Config, plan: Plan, x: World, move: Move, x': World)
    requires Indexed(plan) && Step(cfg, plan, x, move, x')
    ensures forall e :: Backed(plan, x, e) ==> Backed(plan, x', e)
  {
    MoveGrows(cfg, plan, x, move, x');
    forall r | Resolved(plan, x, r) ensures Resolved(plan, x', r) {
      ResolvedStays(cfg, plan, x, move, x', r);
    }
    hide Step, Resolved, Grows, Backed;
    forall e | Backed(plan, x, e) ensures Backed(plan, x', e) {
      BackedStays(plan, x, x', e);
    }
  }

  /** The entry behind the message just received. */
  lemma ReceivedEntry(cfg: Config, plan: Plan, x: World, x': World) returns (r: PublishedEvent)
    requires Indexed(plan) && Own(cfg, plan, x) && Step(cfg, plan, x, Receives, x')
    ensures x'.coordinator.phase.Holding?
    ensures r in Log(x.system.bus, OptimizationResults) && !Resolved(plan, x, r) && Resolved(plan, x', r)
    ensures var e := x'.coordinator.phase.message.event;
      && e.runId == r.event.runId && (e.runId == plan.run ==> ComesFrom(plan, x'.system.bus, e, r))
      && x'.coordinator.results == if e.runId == plan.run then x.coordinator.results + [e] else x.coordinator.results
  {
    hide Own, SharedOk, Inv;
    OwnParts(cfg, plan, x);
    ReceivedMessage(cfg, plan, x, x');
    var m := x'.coordinator.phase.message;
    r :| r in Log(x.system.bus, OptimizationResults) && CopyOf(m, r);
    assert x.coordinator.phase.Waiting?;
    hide Step;
  }

  /** A message just received is about a task not collected before. */
  lemma ReceivedCollected(cfg: Config, plan: Plan, x: World, x': World)
    requires Indexed(plan) && Own(cfg, plan, x) && Step(cfg, plan, x, Receives, x')
    requires Collected(plan, x) && OncePerTask(plan.run, Log(x.system.bus, OptimizationResults))
    ensures Collected(plan, x')
  {
    hide Own, Step, Resolved, OncePerTask, TaskOf;
    AllBackedStay(cfg, plan, x, Receives, x');
    var r := ReceivedEntry(cfg, plan, x, x');
    var e, c := x'.coordinator.phase.message.event, x.coordinator;
    if e.runId == plan.run {
      assert Backed(plan, x', e);
      SameTask(plan, x'.system.bus, e, r);
      hide Backed;
      forall j | 0 <= j < |c.results| ensures TaskOf(c.results[j]) != TaskOf(e) {
        FirstOfItsTask(plan, x, c.results[j], r);
      }
    }
  }

  lemma FirstOfItsTask(plan: Plan, x: World, e: EventEnvelope, r: PublishedEvent)
    requires OncePerTask(plan.run, Log(x.system.bus, OptimizationResults)) && Backed(plan, x, e)
    requires r in Log(x.system.bus, OptimizationResults) && r.event.runId == plan.run && !Resolved(plan, x, r)
    ensures TaskOf(e) != TaskOf(r.event)
  {
  }

  lemma MoveCollected(cfg: Config, plan: Plan, x: World, move: Move, x': World)
    requires Indexed(plan) && Own(cfg, plan, x) && Step(cfg, plan, x, move, x')
    requires Collected(plan, x) && OncePerTask(plan.run, Log(x.system.bus, OptimizationResults))
    ensures Collected(plan, x')
  {
    if move.Receives? {
      ReceivedCollected(cfg, plan, x, x');
    } else {
      AllBackedStay(cfg, plan, x, move, x');
      assert x'.coordinator.results == x.coordinator.results;
      hide Own, Step, Backed, TaskOf;
    }
  }

  /** No task is collected twice. */
  lemma {:induction false} RunCollected(cfg: Config, partitions: nat, plan: Plan, moves: seq<Move>, worlds: seq<World>,
      i: nat)
    requires SystemRun(cfg, partitions, plan, moves, worlds) && Reliable(plan, moves, worlds) && i < |worlds|
    requires DistinctServices(plan)
    ensures Collected(plan, worlds[i])
  {
    hide Own, Step, Reliable, DistinctServices, OncePerTask;
    if i == 0 {
    } else {
      SystemNext(cfg, partitions, plan, moves, worlds, i - 1);
      OneResultPerTask(cfg, partitions, plan, moves, worlds, i - 1);
      RunCollected(cfg, partitions, plan, moves, worlds, i - 1);
      hide SystemRun, Collected;
      MoveCollected(cfg, plan, worlds[i - 1], moves[i - 1], worlds[i]);
    }
  }

  // ---------- Pigeonhole ----------

  function WorkloadOf(e: EventEnvelope): string {
    if e.payload.ResultPayload? then e.payload.workload else ""
  }

  function Names(results: seq<EventEnvelope>): seq<string> {
    seq(|results|, k requires 0 <= k < |results| => WorkloadOf(results[k]))
  }

  /** Result `e` is service `i`'s own: this run, this task, this workload. */
  predicate ResultFor(plan: Plan, i: nat, e: EventEnvelope)
    requires i < |plan.services|
  {
    && e.runId == plan.run && e.payload.ResultPayload?
    && e.payload.workload == plan.services[i].id && e.payload.task == TaskId(plan.run, plan.services[i].id)
  }

  ghost predicate Served(plan: Plan, results: seq<EventEnvelope>, i: nat)
    requires i < |plan.services|
  {
    exists k :: 0 <= k < |results| && ResultFor(plan, i, results[k])
  }

  ghost predicate NotServedTwice(plan: Plan, results: seq<EventEnvelope>, i: nat)
    requires i < |plan.services|
  {
    forall j, k :: 0 <= j < k < |results| ==> !(ResultFor(plan, i, results[j]) && ResultFor(plan, i, results[k]))
  }

  /** Every service has one and only one result. */
  ghost predicate EachServiceOnce(plan: Plan, results: seq<EventEnvelope>) {
    forall i :: 0 <= i < |plan.services| ==> Served(plan, results, i) && NotServedTwice(plan, results, i)
  }

  /** In any run, each thing collected is the result of some service of the run. */
  lemma CollectedAreOwn(cfg: Config, partitions: nat, plan: Plan, moves: seq<Move>, worlds: seq<World>, i: nat)
    requires SystemRun(cfg, partitions, plan, moves, worlds) && i < |worlds|
    ensures forall k :: 0 <= k < |worlds[i].coordinator.results| ==>
      var e := worlds[i].coordinator.results[k]; e.runId == plan.run && OwnResult(plan, Ids(plan), e.payload)
  {
    RunOwn(cfg, partitions, plan, moves, worlds, i);
    var x := worlds[i];
    hide SystemRun, Inv, HoldingOk;
    forall k | 0 <= k < |x.coordinator.results|
      ensures var e := x.coordinator.results[k]; e.runId == plan.run && OwnResult(plan, Ids(plan), e.payload)
    {
      assert Published(plan, x.system.bus, x.coordinator.results[k]);
      var r :| ComesFrom(plan, x.system.bus, x.coordinator.results[k], r);
      assert OwnResult(plan, Sent(plan, x.coordinator), r.event.payload);
    }
  }

  /** Counting against checking off, for any list of own results of the right length: every
      service is covered exactly once if and only if no task repeats. */
  lemma CoverIffDistinct(plan: Plan, results: seq<EventEnvelope>)
    requires |results| == |plan.services|
    requires forall k :: 0 <= k < |results| ==>
        results[k].runId == plan.run && OwnResult(plan, Ids(plan), results[k].payload)
    ensures EachServiceOnce(plan, results) <==> DistinctTasks(results)
  {
    var names := Names(results);
    CountDistinct(names);
    CountServices(plan);
    SubsetSize(Elements(names), Ids(plan));
    if DistinctTasks(results) {
      assert Distinct(names) by { NamesDistinct(plan, results); }
      assert Elements(names) == Ids(plan);
      Covered(plan, results);
    }
    if EachServiceOnce(plan, results) {
      TasksDistinct(plan, results);
    }
  }

  lemma CountServices(plan: Plan)
    ensures |Ids(plan)| <= |plan.services|
    ensures |Ids(plan)| == |plan.services| <==> DistinctServices(plan)
  {
    var ids := seq(|plan.services|, i requires 0 <= i < |plan.services| => plan.services[i].id);
    CountDistinct(ids);
    forall id | id in Ids(plan) ensures id in Elements(ids) {
      var i :| 0 <= i < |plan.services| && plan.services[i].id == id;
      assert ids[i] == id;
    }
    assert Elements(ids) == Ids(plan);
    hide Elements, Ids;
    assert Distinct(ids) <==> DistinctServices(plan) by {
      assert forall i :: 0 <= i < |ids| ==> ids[i] == plan.services[i].id;
    }
  }

  lemma NamesDistinct(plan: Plan, results: seq<EventEnvelope>)
    requires forall k :: 0 <= k < |results| ==> OwnResult(plan, Ids(plan), results[k].payload)
    requires DistinctTasks(results)
    ensures Distinct(Names(results))
  {
    hide TaskId, Ids;
    forall j, k | 0 <= j < k < |results| ensures Names(results)[j] != Names(results)[k] {
      assert TaskOf(results[j]) != TaskOf(results[k]);
    }
  }

  lemma Covered(plan: Plan, results: seq<EventEnvelope>)
    requires DistinctTasks(results)
    requires forall k :: 0 <= k < |results| ==>
        results[k].runId == plan.run && OwnResult(plan, Ids(plan), results[k].payload)
    requires Elements(Names(results)) == Ids(plan)
    ensures EachServiceOnce(plan, results)
  {
    hide TaskId;
    forall i | 0 <= i < |plan.services| ensures Served(plan, results, i) && NotServedTwice(plan, results, i) {
      assert plan.services[i].id in Elements(Names(results));
      var k :| 0 <= k < |results| && Names(results)[k] == plan.services[i].id;
      assert ResultFor(plan, i, results[k]);
      forall a, b | 0 <= a < b < |results| ensures !(ResultFor(plan, i, results[a]) && ResultFor(plan, i, results[b])) {
        assert TaskOf(results[a]) != TaskOf(results[b]);
      }
    }
  }

  lemma TasksDistinct(plan: Plan, results: seq<EventEnvelope>)
    requires EachServiceOnce(plan, results)
    requires forall k :: 0 <= k < |results| ==>
        results[k].runId == plan.run && OwnResult(plan, Ids(plan), results[k].payload)
    ensures DistinctTasks(results)
  {
    forall j, k | 0 <= j < k < |results| ensures TaskOf(results[j]) != TaskOf(results[k]) {
      if TaskOf(results[j]) == TaskOf(results[k]) {
        SamePrefix(plan.run, results[j].payload.workload, results[k].payload.workload);
        var i :| 0 <= i < |plan.services| && plan.services[i].id == results[j].payload.workload;
        assert NotServedTwice(plan, results, i);
        assert ResultFor(plan, i, results[j]) && ResultFor(plan, i, results[k]);
      }
    }
  }

  // ---------- The verdict ----------

  /** In any run, reliable or not: a coordinator holding as many results as services has one
      of each exactly when no task reported twice. */
  lemma CountingCoversIffNoRepeat(cfg: Config, partitions: nat, plan: Plan, moves: seq<Move>, worlds: seq<World>,
      i: nat)
    requires SystemRun(cfg, partitions, plan, moves, worlds) && i < |worlds|
    requires |worlds[i].coordinator.results| == |plan.services|
    ensures EachServiceOnce(plan, worlds[i].coordinator.results) <==> DistinctTasks(worlds[i].coordinator.results)
  {
    CollectedAreOwn(cfg, partitions, plan, moves, worlds, i);
    hide EachServiceOnce, DistinctTasks, OwnResult, Step;
    CoverIffDistinct(plan, worlds[i].coordinator.results);
  }

  /** A result of service `i` was collected, accepted, and is in the results log. */
  ghost predicate ProvenFor(plan: Plan, x: World, i: nat)
    requires i < |plan.services|
  {
    exists k :: 0 <= k < |x.coordinator.results|
      && ResultFor(plan, i, x.coordinator.results[k]) && Accepted(x.coordinator.results[k])
      && Published(plan, x.system.bus, x.coordinator.results[k])
  }

  /** Then a positive verdict means what it says: each discovered service has its own
      result, exactly one, durably logged, and accepted. */
  lemma VerdictIsSound(cfg: Config, partitions: nat, plan: Plan, moves: seq<Move>, worlds: seq<World>, n: nat)
    requires SystemRun(cfg, partitions, plan, moves, worlds) && Reliable(plan, moves, worlds) && n < |worlds|
    requires DistinctServices(plan)
    requires worlds[n].coordinator.phase == Judged(true)
    ensures EachServiceOnce(plan, worlds[n].coordinator.results)
    ensures forall i :: 0 <= i < |plan.services| ==> ProvenFor(plan, worlds[n], i)
  {
    RunOwn(cfg, partitions, plan, moves, worlds, n);
    RunCollected(cfg, partitions, plan, moves, worlds, n);
    var x := worlds[n];
    assert |x.coordinator.results| == |plan.services|;
    CountingCoversIffNoRepeat(cfg, partitions, plan, moves, worlds, n);
    hide SystemRun, SharedOk, Reliable, DistinctTasks, Backed, ResultFor, Published, NotServedTwice;
    forall i | 0 <= i < |plan.services| ensures ProvenFor(plan, x, i) {
      assert Served(plan, x.coordinator.results, i);
      var k :| 0 <= k < |x.coordinator.results| && ResultFor(plan, i, x.coordinator.results[k]);
      assert Published(plan, x.system.bus, x.coordinator.results[k]);
    }
  }

  lemma CoverNeedsDistinct(plan: Plan, results: seq<EventEnvelope>)
    requires |results| == |plan.services| && EachServiceOnce(plan, results)
    requires forall k :: 0 <= k < |results| ==>
        results[k].runId == plan.run && OwnResult(plan, Ids(plan), results[k].payload)
    ensures DistinctServices(plan)
  {
    CoverIffDistinct(plan, results);
    NamesDistinct(plan, results);
    CountDistinct(Names(results));
    CountServices(plan);
    SubsetSize(Elements(Names(results)), Ids(plan));
  }

  /** What a positive verdict is worth without any failure: every Deployment has one result
      of its own exactly when discovery gave them different service ids. */
  lemma PassingCoversIffDistinct(cfg: Config, partitions: nat, plan: Plan, moves: seq<Move>, worlds: seq<World>, n: nat)
    requires SystemRun(cfg, partitions, plan, moves, worlds) && Reliable(plan, moves, worlds) && n < |worlds|
    requires worlds[n].coordinator.phase == Judged(true)
    ensures EachServiceOnce(plan, worlds[n].coordinator.results) <==> DistinctServices(plan)
  {
    RunOwn(cfg, partitions, plan, moves, worlds, n);
    CollectedAreOwn(cfg, partitions, plan, moves, worlds, n);
    var x := worlds[n];
    assert |x.coordinator.results| == |plan.services|;
    hide SystemRun, Own, EachServiceOnce, DistinctServices, OwnResult, Reliable;
    if DistinctServices(plan) {
      VerdictIsSound(cfg, partitions, plan, moves, worlds, n);
    }
    if EachServiceOnce(plan, x.coordinator.results) {
      CoverNeedsDistinct(plan, x.coordinator.results);
    }
  }

  lemma AllAcceptedIfProven(plan: Plan, x: World)
    requires EachServiceOnce(plan, x.coordinator.results)
    requires forall k :: 0 <= k < |x.coordinator.results| ==>
      x.coordinator.results[k].runId == plan.run && OwnResult(plan, Ids(plan), x.coordinator.results[k].payload)
    requires forall i :: 0 <= i < |plan.services| ==> ProvenFor(plan, x, i)
    ensures forall k :: 0 <= k < |x.coordinator.results| ==> Accepted(x.coordinator.results[k])
  {
    var results := x.coordinator.results;
    forall k | 0 <= k < |results| ensures Accepted(results[k]) {
      var i :| 0 <= i < |plan.services| && plan.services[i].id == results[k].payload.workload;
      assert ResultFor(plan, i, results[k]) && NotServedTwice(plan, results, i) && ProvenFor(plan, x, i);
      hide Published, Accepted, OwnResult;
      var j :| 0 <= j < |results| && ResultFor(plan, i, results[j]) && Accepted(results[j])
        && Published(plan, x.system.bus, results[j]);
      assert j < k || k < j || j == k;
    }
  }

  /** And it is given exactly then: the coordinator passes the system if and only if every
      service has an accepted, logged result of its own and the end-to-end check agrees. */
  lemma VerdictIsExact(cfg: Config, partitions: nat, plan: Plan, moves: seq<Move>, worlds: seq<World>, n: nat,
      endToEnd: bool)
    requires SystemRun(cfg, partitions, plan, moves, worlds) && Reliable(plan, moves, worlds) && DistinctServices(plan)
    requires n < |moves| && moves[n] == Judges(endToEnd)
    ensures var x := worlds[n + 1];
      x.coordinator.phase == Judged(true)
      <==> endToEnd && forall i :: 0 <= i < |plan.services| ==> ProvenFor(plan, x, i)
  {
    SystemNext(cfg, partitions, plan, moves, worlds, n);
    RunOwn(cfg, partitions, plan, moves, worlds, n + 1);
    RunCollected(cfg, partitions, plan, moves, worlds, n + 1);
    var x := worlds[n + 1];
    assert |x.coordinator.results| == |plan.services|;
    CountingCoversIffNoRepeat(cfg, partitions, plan, moves, worlds, n + 1);
    CollectedAreOwn(cfg, partitions, plan, moves, worlds, n + 1);
    hide SystemRun, Own, Collected, Reliable, EachServiceOnce, ProvenFor, OwnResult, Accepted;
    if x.coordinator.phase == Judged(true) {
      VerdictIsSound(cfg, partitions, plan, moves, worlds, n + 1);
    }
    if forall i :: 0 <= i < |plan.services| ==> ProvenFor(plan, x, i) {
      AllAcceptedIfProven(plan, x);
    }
  }
}

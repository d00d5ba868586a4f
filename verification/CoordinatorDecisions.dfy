/** What the coordinator's verdict rests on: not on what somebody wrote into the results log,
    but on what the workload graphs decided for its services. */
module CoordinatorDecisions {
  import opened Ordering
  import opened Contracts
  import opened Bus
  import opened Locks
  import opened Worker
  import opened WorkerSafety
  import opened WorkerRuns
  import opened WorkerProvenance
  import opened Coordinator
  import opened CoordinatorSafety
  import opened CoordinatorCount
  import opened CoordinatorVerdict

  /** Move `j` of the run is a worker's graph run deciding on service `i`. */
  predicate DecidesOn(plan: Plan, moves: seq<Move>, worlds: seq<World>, j: int, i: int, accepted: bool)
    requires |worlds| == |moves| + 1 && 0 <= j < |moves| && 0 <= i < |plan.services|
  {
    moves[j].Background?
    && Decides(worlds[j].system, moves[j].action, plan.run + ":" + plan.services[i].id, plan.services[i].id, accepted)
  }

  /** The results log has this verdict on service `i`, for this run. */
  predicate Logged(plan: Plan, bus: BusState, i: int, accepted: bool)
    requires 0 <= i < |plan.services|
  {
    exists r :: r in Log(bus, OptimizationResults) && r.event.runId == plan.run
      && r.event.payload == ResultPayload(plan.run + ":" + plan.services[i].id, plan.services[i].id, accepted)
  }

  function MoveDecided(x: World, move: Move): set<Payload> {
    if move.Background? then DecidedBy(x.system, move.action) else {}
  }

  function DecidedSoFar(moves: seq<Move>, worlds: seq<World>, n: nat): set<Payload>
    requires n <= |moves| && |worlds| == |moves| + 1
  {
    if n == 0 then {} else DecidedSoFar(moves, worlds, n - 1) + MoveDecided(worlds[n - 1], moves[n - 1])
  }

  lemma {:induction false} DecidedThen(moves: seq<Move>, worlds: seq<World>, n: nat, p: Payload) returns (j: nat)
    requires n <= |moves| && |worlds| == |moves| + 1 && p in DecidedSoFar(moves, worlds, n)
    ensures j < n && p.ResultPayload? && moves[j].Background?
    ensures Decides(worlds[j].system, moves[j].action, p.task, p.workload, p.accepted)
  {
    if p in MoveDecided(worlds[n - 1], moves[n - 1]) {
      j := n - 1;
    } else {
      j := DecidedThen(moves, worlds, n - 1, p);
    }
  }

  predicate OfOthers(plan: Plan, said: set<EventEnvelope>) {
    forall e :: e in said ==> e.runId != plan.run
  }

  /** What others said on the results topic is about other runs. */
  ghost predicate DecidedOrForeign(plan: Plan, s: System, decided: set<Payload>) {
    exists said :: AllDecided(s, decided, said) && OfOthers(plan, said)
  }

  lemma MoveSaysNothing(cfg: Config, plan: Plan, x: World, move: Move, said: set<EventEnvelope>)
    requires Indexed(plan) && CanMove(cfg, plan, x, move) && OfOthers(plan, said)
    ensures var a := BusAction(plan, x.coordinator, move); a.Some? ==>
      && OfOthers(plan, said + SaidBy(a.value, OptimizationResults))
      && DecidedBy(x.system, a.value) == MoveDecided(x, move)
    ensures BusAction(plan, x.coordinator, move).None? ==> MoveDecided(x, move) == {}
  {
    hide Enabled;
  }

  lemma MoveDecides(cfg: Config, plan: Plan, x: World, move: Move, x': World, decided: set<Payload>)
    requires Indexed(plan) && Own(cfg, plan, x) && Step(cfg, plan, x, move, x')
    requires DecidedOrForeign(plan, x.system, decided)
    ensures DecidedOrForeign(plan, x'.system, decided + MoveDecided(x, move))
  {
    var said :| AllDecided(x.system, decided, said) && OfOthers(plan, said);
    var a := BusAction(plan, x.coordinator, move);
    MoveSaysNothing(cfg, plan, x, move, said);
    hide Own, AllDecided, Enabled, Apply, Moved, BusAction, Inv, OfOthers, MoveDecided, Foreign;
    OwnParts(cfg, plan, x);
    if a.Some? {
      StepDecided(cfg, x.system, a.value, decided, said);
    } else {
      assert decided + {} == decided;
    }
  }

  lemma {:induction false} RunDecides(cfg: Config, partitions: nat, plan: Plan, moves: seq<Move>, worlds: seq<World>,
      n: nat)
    requires SystemRun(cfg, partitions, plan, moves, worlds) && n < |worlds|
    ensures DecidedOrForeign(plan, worlds[n].system, DecidedSoFar(moves, worlds, n))
  {
    hide Own, Step, MoveDecided;
    if n == 0 {
      assert AllDecided(worlds[0].system, {}, {});
    } else {
      hide DecidedOrForeign;
      SystemNext(cfg, partitions, plan, moves, worlds, n - 1);
      RunDecides(cfg, partitions, plan, moves, worlds, n - 1);
      hide SystemRun;
      MoveDecides(cfg, plan, worlds[n - 1], moves[n - 1], worlds[n], DecidedSoFar(moves, worlds, n - 1));
    }
  }

  /** Some graph run on service `i` reached this verdict in the first `n` moves. */
  ghost predicate EverDecided(plan: Plan, moves: seq<Move>, worlds: seq<World>, n: nat, i: int, accepted: bool)
    requires |worlds| == |moves| + 1 && n < |worlds| && 0 <= i < |plan.services|
  {
    exists j :: 0 <= j < n && DecidesOn(plan, moves, worlds, j, i, accepted)
  }

  /** In any run, reliable or not and whatever the service ids: a verdict logged for a service
      is one a graph run on that service reached. */
  lemma LoggedIsDecided(cfg: Config, partitions: nat, plan: Plan, moves: seq<Move>, worlds: seq<World>, n: nat, i: int,
      accepted: bool)
    requires SystemRun(cfg, partitions, plan, moves, worlds) && n < |worlds| && 0 <= i < |plan.services|
    requires Logged(plan, worlds[n].system.bus, i, accepted)
    ensures EverDecided(plan, moves, worlds, n, i, accepted)
  {
    RunDecides(cfg, partitions, plan, moves, worlds, n);
    var decided := DecidedSoFar(moves, worlds, n);
    var said :| AllDecided(worlds[n].system, decided, said) && OfOthers(plan, said);
    var r :| r in Log(worlds[n].system.bus, OptimizationResults) && r.event.runId == plan.run
      && r.event.payload == ResultPayload(plan.run + ":" + plan.services[i].id, plan.services[i].id, accepted);
    hide SystemRun;
    assert Answers(worlds[n].system.bus, r, decided);
    var j := DecidedThen(moves, worlds, n, r.event.payload);
    hide Decides;
    assert DecidesOn(plan, moves, worlds, j, i, accepted);
  }

  // ---------- The verdict ----------

  /** The verdict on service `i` that the run logged was reached by one of its graph runs. */
  ghost predicate Reached(plan: Plan, moves: seq<Move>, worlds: seq<World>, n: nat, i: int, accepted: bool)
    requires |worlds| == |moves| + 1 && n < |worlds| && 0 <= i < |plan.services|
  {
    Logged(plan, worlds[n].system.bus, i, accepted)
    && EverDecided(plan, moves, worlds, n, i, accepted)
  }

  lemma CollectedIsLogged(plan: Plan, x: World, i: nat, k: nat)
    requires i < |plan.services| && k < |x.coordinator.results| && ResultFor(plan, i, x.coordinator.results[k])
    requires Published(plan, x.system.bus, x.coordinator.results[k])
    ensures Logged(plan, x.system.bus, i, x.coordinator.results[k].payload.accepted)
  {
  }

  lemma LoggedIsOne(plan: Plan, bus: BusState, i: int)
    requires OncePerTask(plan.run, Log(bus, OptimizationResults)) && 0 <= i < |plan.services|
    ensures !(Logged(plan, bus, i, true) && Logged(plan, bus, i, false))
  {
  }

  /** A service with a collected result is proven exactly if the log says so, and the log says
      one thing. */
  lemma ProvenIsLogged(plan: Plan, x: World, i: nat)
    requires i < |plan.services| && OncePerTask(plan.run, Log(x.system.bus, OptimizationResults))
    requires Served(plan, x.coordinator.results, i) && KeptOk(plan, x.system.bus, x.coordinator)
    ensures ProvenFor(plan, x, i) <==> Logged(plan, x.system.bus, i, true)
    ensures ProvenFor(plan, x, i) || Logged(plan, x.system.bus, i, false)
  {
    var results := x.coordinator.results;
    var k :| 0 <= k < |results| && ResultFor(plan, i, results[k]);
    assert Published(plan, x.system.bus, results[k]);
    CollectedIsLogged(plan, x, i, k);
    LoggedIsOne(plan, x.system.bus, i);
    assert Accepted(results[k]) <==> results[k].payload.accepted;
    hide OncePerTask, Published, Logged, ResultFor, KeptOk, Accepted;
    if ProvenFor(plan, x, i) {
      var l :| 0 <= l < |results| && ResultFor(plan, i, results[l]) && Accepted(results[l])
        && Published(plan, x.system.bus, results[l]);
      CollectedIsLogged(plan, x, i, l);
      assert results[l].payload.accepted by { AcceptedSays(results[l]); }
    }
  }

  lemma AcceptedSays(e: EventEnvelope)
    requires Accepted(e)
    ensures e.payload.ResultPayload? && e.payload.accepted
  {
  }

  /** When the coordinator judges, every service has been collected. */
  lemma JudgedHasAll(cfg: Config, partitions: nat, plan: Plan, moves: seq<Move>, worlds: seq<World>, n: nat,
      endToEnd: bool)
    requires SystemRun(cfg, partitions, plan, moves, worlds) && Reliable(plan, moves, worlds) && DistinctServices(plan)
    requires n < |moves| && moves[n] == Judges(endToEnd)
    ensures var x := worlds[n + 1];
      && OncePerTask(plan.run, Log(x.system.bus, OptimizationResults))
      && KeptOk(plan, x.system.bus, x.coordinator)
      && forall i :: 0 <= i < |plan.services| ==> Served(plan, x.coordinator.results, i)
  {
    SystemNext(cfg, partitions, plan, moves, worlds, n);
    RunOwn(cfg, partitions, plan, moves, worlds, n + 1);
    RunCollected(cfg, partitions, plan, moves, worlds, n + 1);
    OneResultPerTask(cfg, partitions, plan, moves, worlds, n + 1);
    assert |worlds[n + 1].coordinator.results| == |plan.services|;
    CountingCoversIffNoRepeat(cfg, partitions, plan, moves, worlds, n + 1);
    hide SystemRun, Reliable, SharedOk, KeptOk, Served, NotServedTwice, DistinctServices, OncePerTask, DistinctTasks;
  }

  /** With distinct service ids and no failed acknowledgement: the coordinator passes the
      system if and only if the end-to-end check agrees and for every service a graph run of
      its own accepted it, as the log reports; and where the check agrees and the system
      fails, some service was rejected by a graph run of its own. */
  lemma VerdictIsDecided(cfg: Config, partitions: nat, plan: Plan, moves: seq<Move>, worlds: seq<World>, n: nat,
      endToEnd: bool)
    requires SystemRun(cfg, partitions, plan, moves, worlds) && Reliable(plan, moves, worlds) && DistinctServices(plan)
    requires n < |moves| && moves[n] == Judges(endToEnd)
    ensures var after := n + 1; var passed := worlds[after].coordinator.phase == Judged(true);
      && (passed <==> endToEnd && forall i :: 0 <= i < |plan.services| ==> Reached(plan, moves, worlds, after, i, true))
      && (!passed && endToEnd ==>
            exists i :: 0 <= i < |plan.services| && Reached(plan, moves, worlds, after, i, false))
  {
    var after := n + 1;
    var x := worlds[after];
    VerdictIsExact(cfg, partitions, plan, moves, worlds, n, endToEnd);
    JudgedHasAll(cfg, partitions, plan, moves, worlds, n, endToEnd);
    hide Reliable, DistinctServices, ProvenFor, Logged, DecidesOn, Served, OncePerTask, KeptOk;
    forall i | 0 <= i < |plan.services|
      ensures ProvenFor(plan, x, i) <==> Reached(plan, moves, worlds, after, i, true)
      ensures ProvenFor(plan, x, i) || Reached(plan, moves, worlds, after, i, false)
    {
      ProvenIsLogged(plan, x, i);
      forall accepted | Logged(plan, x.system.bus, i, accepted)
        ensures Reached(plan, moves, worlds, after, i, accepted)
      {
        LoggedIsDecided(cfg, partitions, plan, moves, worlds, after, i, accepted);
      }
      hide SystemRun;
    }
  }

  /** If no service is decided on both ways, it is enough to ask whether each was accepted. */
  lemma SteadyVerdict(cfg: Config, partitions: nat, plan: Plan, moves: seq<Move>, worlds: seq<World>, n: nat,
      endToEnd: bool)
    requires SystemRun(cfg, partitions, plan, moves, worlds) && Reliable(plan, moves, worlds) && DistinctServices(plan)
    requires n < |moves| && moves[n] == Judges(endToEnd)
    requires var after := n + 1; forall i :: 0 <= i < |plan.services| ==>
        !(EverDecided(plan, moves, worlds, after, i, true) && EverDecided(plan, moves, worlds, after, i, false))
    ensures var after := n + 1;
      worlds[after].coordinator.phase == Judged(true)
      <==> endToEnd && forall i :: 0 <= i < |plan.services| ==> EverDecided(plan, moves, worlds, after, i, true)
  {
    var after := n + 1;
    VerdictIsDecided(cfg, partitions, plan, moves, worlds, n, endToEnd);
    hide SystemRun, Reliable, DistinctServices, EverDecided, Logged;
    if endToEnd && worlds[after].coordinator.phase != Judged(true) {
      var i :| 0 <= i < |plan.services| && Reached(plan, moves, worlds, after, i, false);
      assert EverDecided(plan, moves, worlds, after, i, false);
    }
    forall i | 0 <= i < |plan.services| && Reached(plan, moves, worlds, after, i, true)
      ensures EverDecided(plan, moves, worlds, after, i, true)
    {
    }
  }
}

/** Where results and dead letters come from: what a worker publishes is what a graph run
    decided, and it gives up on nothing it could still retry. */
module WorkerProvenance {
  import opened Ordering
  import opened Contracts
  import opened Bus
  import opened Worker
  import opened WorkerSafety
  import opened WorkerRuns

  // ---------- Results ----------

  /** The step in which a worker's graph run decides on a task. */
  predicate Decides(s: System, a: Action, task: string, workload: string, accepted: bool) {
    && a.Advances? && a.w < |s.pcs| && s.pcs[a.w].Running? && a.verdict == accepted
    && s.pcs[a.w].task.taskId == task && s.pcs[a.w].task.workloadId == workload
  }

  /** What a step decides, as the payload that would report it. */
  function DecidedBy(s: System, a: Action): set<Payload> {
    if a.Advances? && a.w < |s.pcs| && s.pcs[a.w].Running?
    then {ResultPayload(s.pcs[a.w].task.taskId, s.pcs[a.w].task.workloadId, a.verdict)}
    else {}
  }

  /** What a step by somebody else puts on a topic. */
  function SaidBy(a: Action, topic: Topic): set<EventEnvelope> {
    if a.Publishes? && a.topic == topic then {a.event} else {}
  }

  ghost predicate StoresDecided(stores: map<nat, map<string, Payload>>, decided: set<Payload>) {
    forall d, t :: d in stores && t in stores[d] ==> stores[d][t] in decided
  }

  predicate PcDecided(pc: Pc, decided: set<Payload>) {
    && (pc.Storing? || pc.Publishing? ==> pc.result in decided)
    && (pc.PublishingDuplicate? ==> pc.found in decided)
  }

  /** The entry answers a logged request: its run, its conversation, its key, its task, and a
      payload that was decided. */
  ghost predicate Answers(bus: BusState, r: PublishedEvent, decided: set<Payload>) {
    exists e :: e in Log(bus, OptimizationRequests) && AnswersRequest(e, r) && r.event.payload in decided
  }

  predicate AnswersRequest(e: PublishedEvent, r: PublishedEvent) {
    && r.key == e.key && r.event.eventType == WorkloadOptimizationCompleted
    && r.event.runId == e.event.runId && r.event.correlationId == e.event.correlationId && r.event.attempt == 0
    && r.event.payload.ResultPayload? && e.event.payload.RequestPayload?
    && e.event.payload.taskId == Some(r.event.payload.task)
  }

  ghost predicate ResultsDecided(bus: BusState, decided: set<Payload>, said: set<EventEnvelope>) {
    forall r :: r in Log(bus, OptimizationResults) ==> r.event in said || Answers(bus, r, decided)
  }

  ghost predicate AllDecided(s: System, decided: set<Payload>, said: set<EventEnvelope>) {
    && StoresDecided(s.stores, decided)
    && (forall w :: 0 <= w < |s.pcs| ==> PcDecided(s.pcs[w], decided))
    && ResultsDecided(s.bus, decided, said)
  }

  lemma AnswersStay(bus: BusState, bus': BusState, r: PublishedEvent, decided: set<Payload>, decided': set<Payload>)
    requires Answers(bus, r, decided) && decided <= decided'
    requires forall e :: e in Log(bus, OptimizationRequests) ==> e in Log(bus', OptimizationRequests)
    ensures Answers(bus', r, decided')
  {
  }

  lemma ResultsStayDecided(bus: BusState, bus': BusState, decided: set<Payload>, decided': set<Payload>,
      said: set<EventEnvelope>, said': set<EventEnvelope>)
    requires ResultsDecided(bus, decided, said) && decided <= decided' && said <= said'
    requires forall e :: e in Log(bus, OptimizationRequests) ==> e in Log(bus', OptimizationRequests)
    requires forall r :: r in Log(bus', OptimizationResults) ==>
        r in Log(bus, OptimizationResults) || r.event in said' || Answers(bus', r, decided')
    ensures ResultsDecided(bus', decided', said')
  {
    hide Answers;
    forall r | r in Log(bus, OptimizationResults) && Answers(bus, r, decided) ensures Answers(bus', r, decided') {
      AnswersStay(bus, bus', r, decided, decided');
    }
  }

  lemma AdvancedPcDecided(cfg: Config, s: System, w: nat, verdict: bool, decided: set<Payload>)
    requires Enabled(cfg, s, Advances(w, verdict))
    requires StoresDecided(s.stores, decided) && PcDecided(s.pcs[w], decided)
    ensures PcDecided(Advance(cfg, s, w, verdict).pc, decided + DecidedBy(s, Advances(w, verdict)))
  {
    hide Post, Retry, Acknowledge, Unlocked, LockKeyOf, Publish, ResultEvent, DeadLetterEvent;
  }

  lemma AdvancedStoresDecided(cfg: Config, s: System, w: nat, verdict: bool, decided: set<Payload>)
    requires Enabled(cfg, s, Advances(w, verdict))
    requires StoresDecided(s.stores, decided) && PcDecided(s.pcs[w], decided)
    ensures StoresDecided(Advance(cfg, s, w, verdict).stores, decided)
  {
    hide Advance, CanAdvance;
    if s.pcs[w].Storing? {
      StoringStores(cfg, s, w, verdict);
    } else {
      OnlyStoringStores(cfg, s, w, verdict);
    }
  }

  lemma PostedAnswers(cfg: Config, s: System, w: nat, verdict: bool, decided: set<Payload>) returns (n: PublishedEvent)
    requires Enabled(cfg, s, Advances(w, verdict)) && Custody(s) && Progress(cfg, s) && Posts(s.pcs[w])
    requires PcDecided(s.pcs[w], decided)
    ensures Apply(cfg, s, Advances(w, verdict)).bus == Append(s.bus, n)
    ensures n.topic == OptimizationResults ==> Answers(s.bus, n, decided)
    ensures n.topic != OptimizationRequests
  {
    n := AdvanceAppends(cfg, s, w, verdict);
    assert HoldsRequest(s.bus, Held(s.pcs[w]).value) && PcOk(cfg, s.bus, s.pcs[w]);
    var e :| e in Log(s.bus, OptimizationRequests) && CopyOf(Held(s.pcs[w]).value, e);
    hide Enabled, Apply, Custody, Progress, HasResult, HasDeadLetter;
    if n.topic == OptimizationResults {
      assert AnswersRequest(e, n);
    }
  }

  lemma AdvancedResultsDecided(cfg: Config, s: System, w: nat, verdict: bool, decided: set<Payload>,
      said: set<EventEnvelope>)
    requires Enabled(cfg, s, Advances(w, verdict)) && Custody(s) && Progress(cfg, s)
    requires PcDecided(s.pcs[w], decided) && ResultsDecided(s.bus, decided, said)
    ensures ResultsDecided(Apply(cfg, s, Advances(w, verdict)).bus, decided, said)
  {
    var bus' := Apply(cfg, s, Advances(w, verdict)).bus;
    if Posts(s.pcs[w]) {
      var n := PostedAnswers(cfg, s, w, verdict, decided);
      hide Apply, Enabled, Custody, Progress, ResultsDecided, PcDecided, Answers;
      if n.topic == OptimizationResults {
        AnswersStay(s.bus, bus', n, decided, decided);
      }
      ResultsStayDecided(s.bus, bus', decided, decided, said, said);
    } else {
      AdvancesQuietly(cfg, s, w, verdict);
      hide Apply, Enabled, Custody, Progress, ResultsDecided;
      ResultsStayDecided(s.bus, bus', decided, decided, said, said);
    }
  }

  lemma AdvanceDecided(cfg: Config, s: System, w: nat, verdict: bool, decided: set<Payload>, said: set<EventEnvelope>)
    requires Enabled(cfg, s, Advances(w, verdict)) && Custody(s) && Progress(cfg, s) && AllDecided(s, decided, said)
    ensures AllDecided(Apply(cfg, s, Advances(w, verdict)), decided + DecidedBy(s, Advances(w, verdict)), said)
  {
    var a := Advances(w, verdict);
    var s', decided' := Apply(cfg, s, a), decided + DecidedBy(s, a);
    AdvancedPcDecided(cfg, s, w, verdict, decided);
    AdvancedStoresDecided(cfg, s, w, verdict, decided);
    AdvancedResultsDecided(cfg, s, w, verdict, decided, said);
    hide Advance, CanAdvance, Custody, Progress, ResultsDecided, Answers, DecidedBy;
    ResultsStayDecided(s'.bus, s'.bus, decided, decided', said, said);
    PcsStayDecided(s.pcs, decided, decided');
  }

  lemma PcsStayDecided(pcs: seq<Pc>, decided: set<Payload>, decided': set<Payload>)
    requires decided <= decided' && forall w :: 0 <= w < |pcs| ==> PcDecided(pcs[w], decided)
    ensures forall w :: 0 <= w < |pcs| ==> PcDecided(pcs[w], decided')
  {
  }

  lemma PublishDecided(cfg: Config, s: System, topic: Topic, event: EventEnvelope, key: string, decided: set<Payload>,
      said: set<EventEnvelope>)
    requires Enabled(cfg, s, Publishes(topic, event, key)) && AllDecided(s, decided, said)
    ensures var a := Publishes(topic, event, key);
      AllDecided(Apply(cfg, s, a), decided, said + SaidBy(a, OptimizationResults))
  {
    var a := Publishes(topic, event, key);
    PublishIsPost(cfg, s, topic, event, key);
    var n := PublishedEntry(cfg, s, topic, event, key);
    hide Apply, Enabled, Answers, ResultsDecided;
    ResultsStayDecided(s.bus, Apply(cfg, s, a).bus, decided, decided, said, said + SaidBy(a, OptimizationResults));
  }

  /** Claims, failures and other consumers decide nothing, store nothing and say nothing. */
  lemma QuietPcs(cfg: Config, s: System, a: Action, decided: set<Payload>)
    requires Enabled(cfg, s, a) && !a.Advances? && forall w :: 0 <= w < |s.pcs| ==> PcDecided(s.pcs[w], decided)
    ensures var s' := Apply(cfg, s, a);
      && s'.stores == s.stores
      && forall w :: 0 <= w < |s'.pcs| ==> PcDecided(s'.pcs[w], decided)
  {
    hide Take, Validate, Unlocked, Publish, Subscribe, Retry;
  }

  /** Only workers decide, only publishers say. */
  lemma NothingSaid(s: System, a: Action, topic: Topic, decided: set<Payload>, said: set<EventEnvelope>)
    ensures !a.Advances? ==> decided + DecidedBy(s, a) == decided
    ensures !a.Publishes? ==> said + SaidBy(a, topic) == said
  {
  }

  lemma StepDecided(cfg: Config, s: System, a: Action, decided: set<Payload>, said: set<EventEnvelope>)
    requires Inv(cfg, s) && Enabled(cfg, s, a) && AllDecided(s, decided, said)
    ensures AllDecided(Apply(cfg, s, a), decided + DecidedBy(s, a), said + SaidBy(a, OptimizationResults))
  {
    hide Inv, Custody, Progress, Apply, Enabled, AllDecided, DecidedBy, SaidBy;
    InvParts(cfg, s);
    NothingSaid(s, a, OptimizationResults, decided, said);
    match a {
      case Advances(w, verdict) => AdvanceDecided(cfg, s, w, verdict, decided, said);
      case Publishes(topic, event, key) => PublishDecided(cfg, s, topic, event, key, decided, said);
      case _ => QuietDecided(cfg, s, a, decided, said);
    }
  }

  lemma QuietDecided(cfg: Config, s: System, a: Action, decided: set<Payload>, said: set<EventEnvelope>)
    requires Custody(s) && Enabled(cfg, s, a) && AllDecided(s, decided, said) && !a.Advances? && !a.Publishes?
    ensures AllDecided(Apply(cfg, s, a), decided, said)
  {
    assert OthersOk(s.bus, s.others);
    QuietPcs(cfg, s, a, decided);
    QuietStep(cfg, s, a);
    hide Custody, Apply, Enabled, OthersOk, ResultsDecided;
    ResultsStayDecided(s.bus, Apply(cfg, s, a).bus, decided, decided, said, said);
  }

  /** Everything decided, and everything others said on a topic, in the first `n` actions. */
  function Decided(actions: seq<Action>, states: seq<System>, n: nat): set<Payload>
    requires n <= |actions| <= |states|
  {
    if n == 0 then {} else Decided(actions, states, n - 1) + DecidedBy(states[n - 1], actions[n - 1])
  }

  function Said(actions: seq<Action>, topic: Topic, n: nat): set<EventEnvelope>
    requires n <= |actions|
  {
    if n == 0 then {} else Said(actions, topic, n - 1) + SaidBy(actions[n - 1], topic)
  }

  lemma {:induction false} DecidedSometime(actions: seq<Action>, states: seq<System>, n: nat, p: Payload)
    returns (j: nat)
    requires n <= |actions| <= |states| && p in Decided(actions, states, n)
    ensures j < n && p.ResultPayload? && Decides(states[j], actions[j], p.task, p.workload, p.accepted)
  {
    if p in DecidedBy(states[n - 1], actions[n - 1]) {
      j := n - 1;
    } else {
      j := DecidedSometime(actions, states, n - 1, p);
    }
  }

  lemma {:induction false} SaidSometime(actions: seq<Action>, topic: Topic, n: nat, e: EventEnvelope) returns (j: nat)
    requires n <= |actions| && e in Said(actions, topic, n)
    ensures j < n && actions[j].Publishes? && actions[j].topic == topic && actions[j].event == e
  {
    if e in SaidBy(actions[n - 1], topic) {
      j := n - 1;
    } else {
      j := SaidSometime(actions, topic, n - 1, e);
    }
  }

  lemma {:induction false} RunDecided(cfg: Config, partitions: nat, actions: seq<Action>, states: seq<System>, n: nat)
    requires Run(cfg, partitions, actions, states) && n < |states|
    ensures AllDecided(states[n], Decided(actions, states, n), Said(actions, OptimizationResults, n))
  {
    hide Inv, Apply, Enabled;
    if n == 0 {
    } else {
      hide AllDecided, DecidedBy, SaidBy;
      RunNext(cfg, partitions, actions, states, n - 1);
      RunDecided(cfg, partitions, actions, states, n - 1);
      StepDecided(cfg, states[n - 1], actions[n - 1], Decided(actions, states, n - 1),
          Said(actions, OptimizationResults, n - 1));
    }
  }

  /** Every entry of the results log was put there by somebody else, or reports what a graph
      run of the very task and workload it names decided in some earlier step, in answer to a
      request for that task, in its run and on its key. */
  lemma ResultsAreDecided(cfg: Config, partitions: nat, actions: seq<Action>, states: seq<System>, n: nat,
      r: PublishedEvent)
    requires Run(cfg, partitions, actions, states) && n < |states| && r in Log(states[n].bus, OptimizationResults)
    ensures
      || (exists j :: 0 <= j < n && actions[j].Publishes? && actions[j].topic == OptimizationResults
            && actions[j].event == r.event)
      || (&& r.event.payload.ResultPayload?
          && (exists j :: 0 <= j < n && Decides(states[j], actions[j], r.event.payload.task,
                r.event.payload.workload, r.event.payload.accepted))
          && exists e :: e in Log(states[n].bus, OptimizationRequests) && AnswersRequest(e, r))
  {
    RunDecided(cfg, partitions, actions, states, n);
    hide Run, Decides;
    if r.event in Said(actions, OptimizationResults, n) {
      var j := SaidSometime(actions, OptimizationResults, n, r.event);
    } else {
      var e :| e in Log(states[n].bus, OptimizationRequests) && AnswersRequest(e, r);
      var j := DecidedSometime(actions, states, n, r.event.payload);
    }
  }

  /** And what is stored as a task's result is what a run of that task decided. */
  lemma StoredAreDecided(cfg: Config, partitions: nat, actions: seq<Action>, states: seq<System>, n: nat, d: nat,
      t: string)
    requires Run(cfg, partitions, actions, states) && n < |states|
    requires d in states[n].stores && t in states[n].stores[d]
    ensures var p := states[n].stores[d][t];
      && p.ResultPayload? && p.task == t
      && exists j :: 0 <= j < n && Decides(states[j], actions[j], t, p.workload, p.accepted)
  {
    RunDecided(cfg, partitions, actions, states, n);
    RunInv(cfg, partitions, actions, states, n);
    assert StoresOk(states[n].stores);
    hide Run, Decides, Inv;
    var j := DecidedSometime(actions, states, n, states[n].stores[d][t]);
  }

  // ---------- Dead letters ----------

  /** There is nothing left to try: the request is invalid, or its attempts are used up. */
  predicate Hopeless(cfg: Config, e: EventEnvelope, reason: string) {
    (Validate(cfg, e).None? && reason == "invalid task") || e.attempt + 1 >= cfg.maxDeliveryAttempts
  }

  predicate PcHopeless(cfg: Config, pc: Pc) {
    && (pc.DeadLettering? ==> Hopeless(cfg, pc.message.event, pc.reason))
    && (pc.Retrying? ==> pc.message.event.attempt + 1 < cfg.maxDeliveryAttempts)
  }

  /** The dead letter carries a logged request at some attempt, with the reason, under its
      run, conversation and key. */
  predicate GivesUpOn(cfg: Config, e: PublishedEvent, d: PublishedEvent) {
    && d.key == e.key && d.event.eventType == DeadLettered
    && d.event.runId == e.event.runId && d.event.correlationId == e.event.correlationId
    && d.event.payload.DeadLetterPayload? && d.event.payload.sourceTopic == OptimizationRequests
    && d.event.attempt == d.event.payload.sourceEvent.attempt >= e.event.attempt
    && d.event.payload.sourceEvent == e.event.(attempt := d.event.attempt)
    && Hopeless(cfg, d.event.payload.sourceEvent, d.event.payload.reason)
  }

  ghost predicate GivenUp(cfg: Config, bus: BusState, d: PublishedEvent) {
    exists e :: e in Log(bus, OptimizationRequests) && GivesUpOn(cfg, e, d)
  }

  ghost predicate AllHopeless(cfg: Config, s: System, said: set<EventEnvelope>) {
    && (forall w :: 0 <= w < |s.pcs| ==> PcHopeless(cfg, s.pcs[w]))
    && (forall d :: d in Log(s.bus, Dlq) ==> d.event in said || GivenUp(cfg, s.bus, d))
  }

  lemma LettersStay(cfg: Config, bus: BusState, bus': BusState, said: set<EventEnvelope>, said': set<EventEnvelope>)
    requires forall d :: d in Log(bus, Dlq) ==> d.event in said || GivenUp(cfg, bus, d)
    requires said <= said' && forall e :: e in Log(bus, OptimizationRequests) ==> e in Log(bus', OptimizationRequests)
    requires forall d :: d in Log(bus', Dlq) ==> d in Log(bus, Dlq) || d.event in said' || GivenUp(cfg, bus, d)
    ensures forall d :: d in Log(bus', Dlq) ==> d.event in said' || GivenUp(cfg, bus', d)
  {
    hide GivesUpOn;
  }

  lemma AdvancedPcHopeless(cfg: Config, s: System, w: nat, verdict: bool)
    requires Enabled(cfg, s, Advances(w, verdict))
    ensures PcHopeless(cfg, Advance(cfg, s, w, verdict).pc)
  {
    hide Post, Retry, Acknowledge, Unlocked, LockKeyOf, Publish, ResultEvent, DeadLetterEvent, Store, Hopeless;
  }

  lemma QuietPcsHopeless(cfg: Config, s: System, a: Action)
    requires Enabled(cfg, s, a) && !a.Advances? && forall w :: 0 <= w < |s.pcs| ==> PcHopeless(cfg, s.pcs[w])
    ensures var s' := Apply(cfg, s, a); forall w :: 0 <= w < |s'.pcs| ==> PcHopeless(cfg, s'.pcs[w])
  {
    hide Take, Validate, Unlocked, Publish, Subscribe, Retry;
  }

  lemma PostedLetter(cfg: Config, s: System, w: nat, verdict: bool) returns (n: PublishedEvent)
    requires Enabled(cfg, s, Advances(w, verdict)) && Custody(s) && Posts(s.pcs[w]) && PcHopeless(cfg, s.pcs[w])
    ensures Apply(cfg, s, Advances(w, verdict)).bus == Append(s.bus, n)
    ensures n.topic == Dlq ==> GivenUp(cfg, s.bus, n)
  {
    n := AdvanceAppends(cfg, s, w, verdict);
    var pc := s.pcs[w];
    assert HoldsRequest(s.bus, Held(pc).value);
    var e :| e in Log(s.bus, OptimizationRequests) && CopyOf(Held(pc).value, e);
    hide Enabled, Apply, Custody, Validate;
    if n.topic == Dlq {
      assert GivesUpOn(cfg, e, n);
    }
  }

  lemma AdvanceHopeless(cfg: Config, s: System, w: nat, verdict: bool, said: set<EventEnvelope>)
    requires Enabled(cfg, s, Advances(w, verdict)) && Custody(s) && AllHopeless(cfg, s, said)
    ensures AllHopeless(cfg, Apply(cfg, s, Advances(w, verdict)), said)
  {
    var s' := Apply(cfg, s, Advances(w, verdict));
    AdvancedPcHopeless(cfg, s, w, verdict);
    if Posts(s.pcs[w]) {
      var n := PostedLetter(cfg, s, w, verdict);
      hide GivenUp, Advance, CanAdvance, Custody, PcHopeless;
      LettersStay(cfg, s.bus, s'.bus, said, said);
    } else {
      AdvancesQuietly(cfg, s, w, verdict);
      hide GivenUp, Advance, CanAdvance, Custody, PcHopeless;
      LettersStay(cfg, s.bus, s'.bus, said, said);
    }
  }

  lemma PublishHopeless(cfg: Config, s: System, topic: Topic, event: EventEnvelope, key: string,
      said: set<EventEnvelope>)
    requires Enabled(cfg, s, Publishes(topic, event, key)) && AllHopeless(cfg, s, said)
    ensures var a := Publishes(topic, event, key); AllHopeless(cfg, Apply(cfg, s, a), said + SaidBy(a, Dlq))
  {
    var a := Publishes(topic, event, key);
    var n := PublishedEntry(cfg, s, topic, event, key);
    QuietPcsHopeless(cfg, s, a);
    hide Apply, Enabled, GivenUp, PcHopeless;
    LettersStay(cfg, s.bus, Apply(cfg, s, a).bus, said, said + SaidBy(a, Dlq));
  }

  lemma QuietHopeless(cfg: Config, s: System, a: Action, said: set<EventEnvelope>)
    requires Enabled(cfg, s, a) && Custody(s) && AllHopeless(cfg, s, said) && !a.Publishes? && !a.Advances?
    ensures AllHopeless(cfg, Apply(cfg, s, a), said)
  {
    assert OthersOk(s.bus, s.others);
    hide Apply, Enabled, GivenUp, PcHopeless, Custody, OthersOk;
    QuietStep(cfg, s, a);
    QuietPcsHopeless(cfg, s, a);
    LettersStay(cfg, s.bus, Apply(cfg, s, a).bus, said, said);
  }

  lemma StepHopeless(cfg: Config, s: System, a: Action, said: set<EventEnvelope>)
    requires Enabled(cfg, s, a) && Custody(s) && AllHopeless(cfg, s, said)
    ensures AllHopeless(cfg, Apply(cfg, s, a), said + SaidBy(a, Dlq))
  {
    hide Apply, Enabled, Custody, AllHopeless, SaidBy;
    NothingSaid(s, a, Dlq, {}, said);
    match a {
      case Advances(w, verdict) => AdvanceHopeless(cfg, s, w, verdict, said);
      case Publishes(topic, event, key) => PublishHopeless(cfg, s, topic, event, key, said);
      case _ => QuietHopeless(cfg, s, a, said);
    }
  }

  lemma StartHopeless(cfg: Config, partitions: nat, workers: nat)
    ensures AllHopeless(cfg, Initial(partitions, workers), {})
  {
  }

  lemma {:induction false} RunHopeless(cfg: Config, partitions: nat, actions: seq<Action>, states: seq<System>, n: nat)
    requires Run(cfg, partitions, actions, states) && n < |states|
    ensures AllHopeless(cfg, states[n], Said(actions, Dlq, n))
  {
    hide Inv, Apply, Enabled, AllHopeless, SaidBy, Custody, Initial;
    if n == 0 {
      StartHopeless(cfg, partitions, |cfg.clusters|);
    } else {
      RunNext(cfg, partitions, actions, states, n - 1);
      RunHopeless(cfg, partitions, actions, states, n - 1);
      hide Run;
      InvParts(cfg, states[n - 1]);
      StepHopeless(cfg, states[n - 1], actions[n - 1], Said(actions, Dlq, n - 1));
    }
  }

  /** Every dead letter was put there by somebody else, or gives up on a logged request that
      is invalid or out of attempts: nothing is buried that could still be retried. */
  lemma DeadLettersAreHopeless(cfg: Config, partitions: nat, actions: seq<Action>, states: seq<System>, n: nat,
      d: PublishedEvent)
    requires Run(cfg, partitions, actions, states) && n < |states| && d in Log(states[n].bus, Dlq)
    ensures
      || (exists j :: 0 <= j < n && actions[j].Publishes? && actions[j].topic == Dlq && actions[j].event == d.event)
      || (exists e :: e in Log(states[n].bus, OptimizationRequests) && GivesUpOn(cfg, e, d))
  {
    RunHopeless(cfg, partitions, actions, states, n);
    hide Run, GivesUpOn, PcHopeless;
    if d.event in Said(actions, Dlq, n) {
      var j := SaidSometime(actions, Dlq, n, d.event);
    }
  }
}

/** How many results a task can have. In any run with distinct services, whatever fails and
    races, a task's results number its failed acknowledgements, or one more. */
module CoordinatorCount {
  import opened Ordering
  import opened Contracts
  import opened Bus
  import opened Locks
  import opened Worker
  import opened WorkerSafety
  import opened WorkerRuns
  import opened Coordinator
  import opened CoordinatorSafety

  function TaskOf(e: EventEnvelope): Option<string> {
    match e.payload
    case RequestPayload(taskId, _, _, _) => taskId
    case ResultPayload(task, _, _) => Some(task)
    case _ => None
  }

  predicate About(run: string, t: Option<string>, e: EventEnvelope) {
    e.runId == run && TaskOf(e) == t
  }

  /** How many entries of a log are about a task of a run. */
  function CountAbout(run: string, t: Option<string>, log: seq<PublishedEvent>): nat {
    if log == [] then 0
    else
      CountAbout(run, t, log[..|log| - 1]) + if About(run, t, log[|log| - 1].event) then 1 else 0
  }

  /** At most one entry per task in a log, for one run. */
  ghost predicate OncePerTask(run: string, log: seq<PublishedEvent>) {
    forall a, b :: 0 <= a < b < |log| && log[a].event.runId == run && log[b].event.runId == run ==>
      TaskOf(log[a].event) != TaskOf(log[b].event)
  }

  lemma {:induction false} CountedIfThere(run: string, t: Option<string>, log: seq<PublishedEvent>, i: nat)
    requires i < |log| && About(run, t, log[i].event)
    ensures CountAbout(run, t, log) >= 1
    decreases |log|
  {
    if i < |log| - 1 {
      CountedIfThere(run, t, log[..|log| - 1], i);
    } else {
    }
  }

  /** A log in which two entries share a task counts that task twice. */
  lemma {:induction false} CountedTwice(run: string, t: Option<string>, log: seq<PublishedEvent>, i: nat, j: nat)
    requires i < j < |log| && About(run, t, log[i].event) && About(run, t, log[j].event)
    ensures CountAbout(run, t, log) >= 2
    decreases |log|
  {
    if j < |log| - 1 {
      CountedTwice(run, t, log[..|log| - 1], i, j);
    } else {
      CountedIfThere(run, t, log[..|log| - 1], i);
    }
  }

  lemma OncePerTaskIfCounted(run: string, log: seq<PublishedEvent>)
    requires forall t :: CountAbout(run, t, log) <= 1
    ensures OncePerTask(run, log)
  {
    hide TaskOf, CountAbout;
    forall a, b | 0 <= a < b < |log| && log[a].event.runId == run && log[b].event.runId == run
      ensures TaskOf(log[a].event) != TaskOf(log[b].event)
    {
      if TaskOf(log[a].event) == TaskOf(log[b].event) {
        CountedTwice(run, TaskOf(log[a].event), log, a, b);
      }
    }
  }

  lemma CountAppended(run: string, t: Option<string>, log: seq<PublishedEvent>, e: PublishedEvent)
    ensures CountAbout(run, t, log + [e]) == CountAbout(run, t, log) + if About(run, t, e.event) then 1 else 0
  {
    assert (log + [e])[..|log|] == log;
    hide About;
  }

  lemma OneEntry(run: string, log: seq<PublishedEvent>, d: PublishedEvent, e: PublishedEvent)
    requires OncePerTask(run, log) && d in log && e in log && d.event.runId == run && e.event.runId == run
    requires TaskOf(d.event) == TaskOf(e.event)
    ensures d == e
  {
  }

  lemma OneMore(run: string, log: seq<PublishedEvent>, e: PublishedEvent)
    requires OncePerTask(run, log)
    requires e.event.runId == run ==> forall d :: d in log && d.event.runId == run ==>
        TaskOf(d.event) != TaskOf(e.event)
    ensures OncePerTask(run, log + [e])
  {
    hide TaskOf;
    assert forall a :: 0 <= a < |log| ==> log[a] in log;
  }

  // ---------- One step ----------

  /** A worker has published a result for the task and is about to acknowledge. */
  predicate SettlingFor(run: string, t: Option<string>, pcs: seq<Pc>, w: nat) {
    w < |pcs| && (pcs[w].Acking? || pcs[w].AckingDuplicate?) && About(run, t, pcs[w].message.event)
  }

  /** No further result can come of the task, as long as no acknowledgement fails. */
  ghost predicate Spent(run: string, t: Option<string>, s: System) {
    || (exists e :: e in Log(s.bus, OptimizationRequests) && About(run, t, e.event)
                    && EntryKey(e, GROUP) in s.bus.acknowledged)
    || exists w :: SettlingFor(run, t, s.pcs, w)
  }

  predicate PostsResult(pc: Pc) {
    pc.Publishing? || pc.PublishingDuplicate?
  }

  /** The action appends a result for the task. */
  predicate Reporting(run: string, t: Option<string>, s: System, a: Action) {
    a.Advances? && a.w < |s.pcs| && PostsResult(s.pcs[a.w]) && About(run, t, s.pcs[a.w].message.event)
  }

  /** The action is a failure between the append of the task's result and its
      acknowledgement. */
  predicate Failing(run: string, t: Option<string>, s: System, a: Action) {
    FailingAck(run, s, a) && TaskOf(s.pcs[a.w].message.event) == t
  }

  predicate ActsAs(a: Action, w: nat) {
    (a.Claims? || a.Advances? || a.Fails?) && a.w == w
  }

  /** Reporting is the only way to come to settle, and it lasts for as long as the worker
      does nothing. */
  lemma SettlingAfter(cfg: Config, run: string, t: Option<string>, s: System, a: Action, w: nat)
    requires Enabled(cfg, s, a)
    ensures SettlingFor(run, t, Apply(cfg, s, a).pcs, w) <==>
      if ActsAs(a, w) then Reporting(run, t, s, a) else SettlingFor(run, t, s.pcs, w)
  {
    hide About, Take, Validate, Advance, Failed, CanAdvance, Retry, Subscribe, Publish;
    if ActsAs(a, w) {
      match a {
        case Claims(_) => ClaimedPc(cfg, s, w);
        case Advances(_, verdict) => AdvancedPc(cfg, s, w, verdict);
        case Fails(_, error) => FailedPc(cfg, s, w, error);
      }
    }
  }

  lemma ClaimedPc(cfg: Config, s: System, w: nat)
    requires Enabled(cfg, s, Claims(w))
    ensures var pcs := ClaimStep(cfg, s, w).pcs; |pcs| == |s.pcs| && !pcs[w].Acking? && !pcs[w].AckingDuplicate?
  {
    hide Take, Validate;
  }

  lemma AdvancedPc(cfg: Config, s: System, w: nat, verdict: bool)
    requires Enabled(cfg, s, Advances(w, verdict))
    ensures var pc := Advance(cfg, s, w, verdict).pc;
      && (pc.Acking? || pc.AckingDuplicate? <==> PostsResult(s.pcs[w]))
      && (PostsResult(s.pcs[w]) ==> pc.message == s.pcs[w].message)
  {
    hide Post, Retry, Acknowledge, Unlocked, LockKeyOf, Publish, ResultEvent, DeadLetterEvent, Store;
  }

  lemma FailedPc(cfg: Config, s: System, w: nat, error: string)
    requires Enabled(cfg, s, Fails(w, error))
    ensures var pc := Failed(cfg, s, w, error).pc; !pc.Acking? && !pc.AckingDuplicate?
  {
    hide Unlocked;
  }

  lemma AcksStay(cfg: Config, s: System, a: Action)
    requires Enabled(cfg, s, a)
    ensures s.bus.acknowledged <= Apply(cfg, s, a).bus.acknowledged
  {
    match a {
      case Advances(w, verdict) =>
        AdvanceBus(cfg, s, w, verdict);
        hide Advance, CanAdvance, NewEntry;
      case Fails(w, error) => FailedBus(cfg, s, w, error);
      case Claims(w) =>
        TakeGrows(s.bus, OptimizationRequests, GROUP, "worker");
        hide Validate, Grows, Take;
      case OtherTakes(topic, group, consumer) =>
        TakeGrows(s.bus, topic, group, consumer);
        hide Take;
      case _ => hide NewEntry;
    }
  }

  /** The request a worker holds is in the log, and about the same task. */
  lemma HeldRequest(s: System, w: nat) returns (e: PublishedEvent)
    requires Custody(s) && w < |s.pcs| && Held(s.pcs[w]).Some?
    ensures e in Log(s.bus, OptimizationRequests) && CopyOf(Held(s.pcs[w]).value, e)
    ensures forall run, t :: About(run, t, e.event) <==> About(run, t, Held(s.pcs[w]).value.event)
    ensures AckKeyOf(Held(s.pcs[w]).value, GROUP) == EntryKey(e, GROUP) && EntryKey(e, GROUP) !in s.bus.acknowledged
    ensures Held(s.pcs[w]).value.consumerGroup == GROUP
  {
    KeysApart(s, w);
    HeldUnacked(s, AckKeyOf(Held(s.pcs[w]).value, GROUP));
    assert HoldsRequest(s.bus, Held(s.pcs[w]).value);
    hide Custody, Held, InFlight;
    e :| e in Log(s.bus, OptimizationRequests) && CopyOf(Held(s.pcs[w]).value, e);
  }

  lemma HeldUnacked(s: System, k: AckKey)
    requires Custody(s) && k in InFlight(s)
    ensures k !in s.bus.acknowledged
  {
    hide InFlight;
  }

  /** Two workers hold requests about the same task only if they are one worker. */
  lemma OneHolder(run: string, t: Option<string>, s: System, v: nat, w: nat)
    requires Custody(s) && OncePerTask(run, Log(s.bus, OptimizationRequests))
    requires v < |s.pcs| && Held(s.pcs[v]).Some? && About(run, t, Held(s.pcs[v]).value.event)
    requires w < |s.pcs| && Held(s.pcs[w]).Some? && About(run, t, Held(s.pcs[w]).value.event)
    ensures v == w
  {
    hide Custody, OncePerTask, Held, TaskOf;
    var d := HeldRequest(s, v);
    var e := HeldRequest(s, w);
    OneEntry(run, Log(s.bus, OptimizationRequests), d, e);
    assert HoldersDistinct(s.pcs) by { HoldersApart(s); }
  }

  lemma HoldersApart(s: System)
    requires Custody(s)
    ensures HoldersDistinct(s.pcs)
  {
  }

  /** Who is about to report a task is the first to do so since the last failure. */
  lemma ReporterFirst(run: string, t: Option<string>, s: System, a: Action)
    requires Custody(s) && OncePerTask(run, Log(s.bus, OptimizationRequests)) && Reporting(run, t, s, a)
    ensures !Spent(run, t, s)
  {
    hide Custody, OncePerTask, TaskOf;
    var d := HeldRequest(s, a.w);
    forall e | e in Log(s.bus, OptimizationRequests) && About(run, t, e.event)
      ensures EntryKey(e, GROUP) !in s.bus.acknowledged
    {
      OneEntry(run, Log(s.bus, OptimizationRequests), d, e);
    }
    forall w | SettlingFor(run, t, s.pcs, w) ensures false {
      OneHolder(run, t, s, a.w, w);
    }
  }

  /** A failing acknowledgement leaves nobody settling. */
  lemma FailureUnsettles(cfg: Config, run: string, t: Option<string>, s: System, a: Action, w: nat)
    requires Enabled(cfg, s, a) && Custody(s) && OncePerTask(run, Log(s.bus, OptimizationRequests))
        && Failing(run, t, s, a)
    ensures SettlingFor(run, t, s.pcs, a.w) && !SettlingFor(run, t, Apply(cfg, s, a).pcs, w)
  {
    SettlingAfter(cfg, run, t, s, a, w);
    hide Custody, OncePerTask, TaskOf, Apply, Enabled;
    if SettlingFor(run, t, s.pcs, w) {
      OneHolder(run, t, s, a.w, w);
    }
  }

  lemma SettledIsAcked(cfg: Config, s: System, w: nat, verdict: bool)
    requires Enabled(cfg, s, Advances(w, verdict)) && (s.pcs[w].Acking? || s.pcs[w].AckingDuplicate?)
    ensures Apply(cfg, s, Advances(w, verdict)).bus == Acknowledge(s.bus, s.pcs[w].message)
  {
    AdvanceBus(cfg, s, w, verdict);
    hide Advance, CanAdvance;
  }

  /** A spent task stays so through everything but a failing acknowledgement of its own. */
  lemma SpentStays(cfg: Config, run: string, t: Option<string>, s: System, a: Action)
    requires Enabled(cfg, s, a) && Custody(s) && Spent(run, t, s) && !Failing(run, t, s, a)
    ensures Spent(run, t, Apply(cfg, s, a))
  {
    var s' := Apply(cfg, s, a);
    AcksStay(cfg, s, a);
    ActionGrows(cfg, s, a);
    if w :| SettlingFor(run, t, s.pcs, w) {
      SettlingAfter(cfg, run, t, s, a, w);
      if ActsAs(a, w) {
        assert a.Advances? by { OnlyAdvances(cfg, run, t, s, a, w); }
        SettledIsAcked(cfg, s, w, a.verdict);
        hide Apply, Enabled, TaskOf, Custody;
        var e := HeldRequest(s, w);
        assert e in Log(s'.bus, OptimizationRequests);
      }
    } else {
      hide Apply, Enabled, TaskOf, Custody;
      var e :| e in Log(s.bus, OptimizationRequests) && About(run, t, e.event)
        && EntryKey(e, GROUP) in s.bus.acknowledged;
      assert e in Log(s'.bus, OptimizationRequests);
    }
  }

  lemma OnlyAdvances(cfg: Config, run: string, t: Option<string>, s: System, a: Action, w: nat)
    requires Enabled(cfg, s, a) && SettlingFor(run, t, s.pcs, w) && ActsAs(a, w) && !Failing(run, t, s, a)
    ensures a.Advances?
  {
    hide CanAdvance;
  }

  // ---------- What a step appends ----------

  /** The publishers other than workers: no results for the run, and a request for it only
      about a task not requested before. */
  ghost predicate Publishable(run: string, s: System, a: Action) {
    a.Publishes? ==>
      && (a.topic.OptimizationResults? ==> a.event.runId != run)
      && (a.topic.OptimizationRequests? && a.event.runId == run ==>
            forall e :: e in Log(s.bus, OptimizationRequests) && e.event.runId == run ==>
                TaskOf(e.event) != TaskOf(a.event))
  }

  lemma PostedAbout(cfg: Config, plan: Plan, ids: set<string>, s: System, w: nat, t: Option<string>)
    requires SharedOk(cfg, plan, ids, s) && w < |s.pcs| && Posts(s.pcs[w]) && PostTopic(s.pcs[w]).OptimizationResults?
    ensures PostsResult(s.pcs[w])
    ensures About(plan.run, t, PostEvent(s.pcs[w])) <==> About(plan.run, t, s.pcs[w].message.event)
  {
    assert PostEvent(s.pcs[w]).runId == s.pcs[w].message.event.runId;
    hide Inv, Custody, Progress, RequestsOk, ResultsOk, StoredOk, WorkersOk, PostEvent, OwnResult;
    InvParts(cfg, s);
    PostedOwn(cfg, plan, ids, s, w);
    if PostEvent(s.pcs[w]).runId == plan.run {
      PostedPayload(plan, ids, s.pcs[w]);
    }
  }

  lemma PostedPayload(plan: Plan, ids: set<string>, pc: Pc)
    requires Posts(pc) && OwnResult(plan, ids, PostEvent(pc).payload)
    requires pc.message.event.payload.RequestPayload?
    requires pc.message.event.payload.taskId == Some(PostEvent(pc).payload.task)
    ensures TaskOf(PostEvent(pc)) == TaskOf(pc.message.event)
  {
  }

  lemma AdvanceCounts(cfg: Config, plan: Plan, ids: set<string>, s: System, w: nat, verdict: bool, t: Option<string>)
    requires SharedOk(cfg, plan, ids, s) && Enabled(cfg, s, Advances(w, verdict))
    ensures var a := Advances(w, verdict); var bus' := Apply(cfg, s, a).bus;
      && CountAbout(plan.run, t, Log(bus', OptimizationResults))
          == CountAbout(plan.run, t, Log(s.bus, OptimizationResults)) + (if Reporting(plan.run, t, s, a) then 1 else 0)
      && Log(bus', OptimizationRequests) == Log(s.bus, OptimizationRequests)
  {
    hide SharedOk, Apply, About, PostEvent, CountAbout;
    if Posts(s.pcs[w]) {
      var n := AdvanceAppends(cfg, s, w, verdict);
      if PostTopic(s.pcs[w]).OptimizationResults? {
        PostedAbout(cfg, plan, ids, s, w, t);
        CountAppended(plan.run, t, Log(s.bus, OptimizationResults), n);
      }
    } else {
      AdvancesQuietly(cfg, s, w, verdict);
    }
    hide CanAdvance;
  }

  /** The results log gains an entry about the task exactly by reporting it. */
  lemma StepCounts(cfg: Config, plan: Plan, ids: set<string>, s: System, a: Action, t: Option<string>)
    requires SharedOk(cfg, plan, ids, s) && Enabled(cfg, s, a) && Publishable(plan.run, s, a)
    ensures CountAbout(plan.run, t, Log(Apply(cfg, s, a).bus, OptimizationResults))
      == CountAbout(plan.run, t, Log(s.bus, OptimizationResults)) + if Reporting(plan.run, t, s, a) then 1 else 0
  {
    hide SharedOk, Apply, Enabled, CountAbout, Post;
    match a {
      case Publishes(topic, event, key) =>
        PublishIsPost(cfg, s, topic, event, key);
        var n := PublishedEntry(cfg, s, topic, event, key);
        CountAppended(plan.run, t, Log(s.bus, topic), n);
      case Advances(w, verdict) => AdvanceCounts(cfg, plan, ids, s, w, verdict, t);
      case _ =>
        SharedCustody(cfg, plan, ids, s);
        QuietStep(cfg, s, a);
    }
  }

  lemma SharedCustody(cfg: Config, plan: Plan, ids: set<string>, s: System)
    requires SharedOk(cfg, plan, ids, s)
    ensures Custody(s) && OthersOk(s.bus, s.others)
  {
    InvParts(cfg, s);
    hide Inv;
  }

  /** No task of the run is requested twice. */
  lemma RequestsStayOnce(cfg: Config, plan: Plan, ids: set<string>, s: System, a: Action)
    requires SharedOk(cfg, plan, ids, s) && Enabled(cfg, s, a) && Publishable(plan.run, s, a)
    requires OncePerTask(plan.run, Log(s.bus, OptimizationRequests))
    ensures OncePerTask(plan.run, Log(Apply(cfg, s, a).bus, OptimizationRequests))
  {
    hide SharedOk, Apply, Enabled, OncePerTask, TaskOf;
    match a {
      case Publishes(topic, event, key) =>
        var n := PublishedEntry(cfg, s, topic, event, key);
        if topic.OptimizationRequests? {
          OneMore(plan.run, Log(s.bus, topic), n);
        }
      case Advances(w, verdict) => AdvanceCounts(cfg, plan, ids, s, w, verdict, None);
      case _ =>
        SharedCustody(cfg, plan, ids, s);
        QuietStep(cfg, s, a);
    }
  }

  // ---------- The tally of a task ----------

  /** After `failed` failing acknowledgements a task has that many results, or one more if it
      is spent, as it is whenever somebody is about to acknowledge it. */
  ghost predicate Tally(run: string, t: Option<string>, s: System, failed: nat) {
    var results := CountAbout(run, t, Log(s.bus, OptimizationResults));
    && failed <= results <= failed + (if Spent(run, t, s) then 1 else 0)
    && forall w :: SettlingFor(run, t, s.pcs, w) ==> results == failed + 1
  }

  lemma FailureTally(cfg: Config, run: string, s: System, a: Action, t: Option<string>, failed: nat)
    requires Enabled(cfg, s, a) && Custody(s) && OncePerTask(run, Log(s.bus, OptimizationRequests))
    requires Tally(run, t, s, failed) && Failing(run, t, s, a)
    requires CountAbout(run, t, Log(Apply(cfg, s, a).bus, OptimizationResults))
      == CountAbout(run, t, Log(s.bus, OptimizationResults))
    ensures Tally(run, t, Apply(cfg, s, a), failed + 1)
  {
    hide Enabled, Apply, Custody, OncePerTask, CountAbout, SettlingFor, Spent, TaskOf;
    var results := CountAbout(run, t, Log(s.bus, OptimizationResults));
    assert results == failed + 1 by {
      FailureUnsettles(cfg, run, t, s, a, 0);
    }
    forall w ensures !SettlingFor(run, t, Apply(cfg, s, a).pcs, w) {
      FailureUnsettles(cfg, run, t, s, a, w);
    }
  }

  lemma OrdinaryTally(cfg: Config, run: string, s: System, a: Action, t: Option<string>, failed: nat)
    requires Enabled(cfg, s, a) && Custody(s) && OncePerTask(run, Log(s.bus, OptimizationRequests))
    requires Tally(run, t, s, failed) && !Failing(run, t, s, a)
    requires CountAbout(run, t, Log(Apply(cfg, s, a).bus, OptimizationResults))
      == CountAbout(run, t, Log(s.bus, OptimizationResults)) + if Reporting(run, t, s, a) then 1 else 0
    ensures Tally(run, t, Apply(cfg, s, a), failed)
  {
    hide Enabled, Apply, Custody, OncePerTask, CountAbout, SettlingFor, Spent, FailingAck, TaskOf, Failing;
    if Spent(run, t, s) {
      SpentStays(cfg, run, t, s, a);
    }
    SettlersAfter(cfg, run, t, s, a);
    if Reporting(run, t, s, a) {
      ReporterFirst(run, t, s, a);
      ReporterSpends(run, t, Apply(cfg, s, a), a.w);
    }
  }

  lemma TallyStep(cfg: Config, plan: Plan, ids: set<string>, s: System, a: Action, t: Option<string>, failed: nat)
    requires SharedOk(cfg, plan, ids, s) && Enabled(cfg, s, a) && Publishable(plan.run, s, a)
    requires OncePerTask(plan.run, Log(s.bus, OptimizationRequests)) && Tally(plan.run, t, s, failed)
    ensures Tally(plan.run, t, Apply(cfg, s, a), failed + if Failing(plan.run, t, s, a) then 1 else 0)
  {
    hide SharedOk, Enabled, Apply, OncePerTask, Publishable, CountAbout, Custody, OthersOk, Tally, TaskOf;
    StepCounts(cfg, plan, ids, s, a, t);
    SharedCustody(cfg, plan, ids, s);
    if Failing(plan.run, t, s, a) {
      FailureTally(cfg, plan.run, s, a, t, failed);
    } else {
      OrdinaryTally(cfg, plan.run, s, a, t, failed);
    }
  }

  lemma SettlersAfter(cfg: Config, run: string, t: Option<string>, s: System, a: Action)
    requires Enabled(cfg, s, a)
    ensures forall w :: SettlingFor(run, t, Apply(cfg, s, a).pcs, w) ==>
        Reporting(run, t, s, a) || SettlingFor(run, t, s.pcs, w)
    ensures Reporting(run, t, s, a) ==> SettlingFor(run, t, Apply(cfg, s, a).pcs, a.w)
  {
    hide Apply, Enabled, SettlingFor;
    forall w ensures SettlingFor(run, t, Apply(cfg, s, a).pcs, w) <==>
      if ActsAs(a, w) then Reporting(run, t, s, a) else SettlingFor(run, t, s.pcs, w)
    {
      SettlingAfter(cfg, run, t, s, a, w);
    }
  }

  lemma ReporterSpends(run: string, t: Option<string>, s: System, w: nat)
    requires SettlingFor(run, t, s.pcs, w)
    ensures Spent(run, t, s)
  {
  }

  // ---------- Whole runs ----------

  /** With distinct services, the request about to be sent is for a task not requested yet. */
  lemma DispatchIsNew(cfg: Config, plan: Plan, x: World)
    requires Indexed(plan) && DistinctServices(plan) && Own(cfg, plan, x)
    requires x.coordinator.phase.Dispatching? && x.coordinator.phase.next < |plan.services|
    ensures forall e :: e in Log(x.system.bus, OptimizationRequests) && e.event.runId == plan.run ==>
        TaskOf(e.event) != TaskOf(RequestEvent(plan, x.coordinator.phase.next))
  {
    var i := x.coordinator.phase.next;
    var event, id := RequestEvent(plan, i), plan.services[i].id;
    hide Inv, StoredOk, WorkersOk, KeptOk, ResultsOk;
    assert id !in ServiceIds(plan, i);
    forall e | e in Log(x.system.bus, OptimizationRequests) && e.event.runId == plan.run
      ensures TaskOf(e.event) != TaskOf(event)
    {
      assert RequestOk(plan, ServiceIds(plan, i), e.event);
      OtherTask(plan.run, e.event.payload.workloadId.value, id);
    }
  }

  lemma OtherTask(run: string, a: string, b: string)
    requires a != b
    ensures TaskId(run, a) != TaskId(run, b)
  {
    if TaskId(run, a) == TaskId(run, b) {
      SamePrefix(run, a, b);
    }
  }

  lemma MovePublishable(cfg: Config, plan: Plan, x: World, move: Move, x': World)
    requires Indexed(plan) && DistinctServices(plan) && Own(cfg, plan, x) && Step(cfg, plan, x, move, x')
    ensures var a := BusAction(plan, x.coordinator, move); a.Some? ==> Publishable(plan.run, x.system, a.value)
  {
    hide Own, Enabled, Apply, TaskOf, DistinctServices;
    if move.Dispatches? {
      DispatchIsNew(cfg, plan, x);
    }
  }

  /** How many of the first `n` moves fail an acknowledgement of the task. */
  function FailedAcks(plan: Plan, moves: seq<Move>, worlds: seq<World>, n: nat, t: Option<string>): nat
    requires n <= |moves| && |worlds| == |moves| + 1
  {
    if n == 0 then 0
    else
      FailedAcks(plan, moves, worlds, n - 1, t)
      + if FailsToAck(plan, worlds[n - 1].system, moves[n - 1])
            && Failing(plan.run, t, worlds[n - 1].system, moves[n - 1].action) then 1 else 0
  }

  ghost predicate Tallied(plan: Plan, s: System, t: Option<string>, failed: nat) {
    OncePerTask(plan.run, Log(s.bus, OptimizationRequests)) && Tally(plan.run, t, s, failed)
  }

  /** Only the others' moves can be failing acknowledgements. */
  lemma MoveFails(cfg: Config, plan: Plan, x: World, move: Move, x': World, t: Option<string>)
    requires Indexed(plan) && Step(cfg, plan, x, move, x')
    ensures var a := BusAction(plan, x.coordinator, move);
      && (a.None? ==> x'.system == x.system && !FailsToAck(plan, x.system, move))
      && (a.Some? ==>
            && Enabled(cfg, x.system, a.value) && x'.system == Apply(cfg, x.system, a.value)
            && (Failing(plan.run, t, x.system, a.value) <==>
                  FailsToAck(plan, x.system, move) && Failing(plan.run, t, x.system, move.action)))
  {
    hide Enabled, Apply, Take, Foreign, RequestEvent, RequestKey, Moved, ResultsGroup, TaskOf;
  }

  lemma MoveTally(cfg: Config, plan: Plan, x: World, move: Move, x': World, t: Option<string>, failed: nat)
    requires Indexed(plan) && DistinctServices(plan) && Own(cfg, plan, x) && Step(cfg, plan, x, move, x')
    requires Tallied(plan, x.system, t, failed)
    ensures Tallied(plan, x'.system, t, failed + if FailsToAck(plan, x.system, move)
        && Failing(plan.run, t, x.system, move.action) then 1 else 0)
  {
    hide SharedOk, KeptOk, HoldingOk, OncePerTask, Tally, Publishable, Step, BusAction, FailsToAck, Failing,
        DistinctServices, Enabled, Apply;
    var a := BusAction(plan, x.coordinator, move);
    MovePublishable(cfg, plan, x, move, x');
    MoveFails(cfg, plan, x, move, x', t);
    if a.Some? {
      TallyStep(cfg, plan, Sent(plan, x.coordinator), x.system, a.value, t, failed);
      RequestsStayOnce(cfg, plan, Sent(plan, x.coordinator), x.system, a.value);
    }
  }

  lemma SystemNext(cfg: Config, partitions: nat, plan: Plan, moves: seq<Move>, worlds: seq<World>, i: nat)
    requires SystemRun(cfg, partitions, plan, moves, worlds) && i < |moves|
    ensures |worlds| == |moves| + 1 && Indexed(plan)
    ensures Own(cfg, plan, worlds[i]) && Step(cfg, plan, worlds[i], moves[i], worlds[i + 1])
  {
    hide Own, Step, Initial;
    RunOwn(cfg, partitions, plan, moves, worlds, i);
  }

  lemma {:induction false} RunTally(cfg: Config, partitions: nat, plan: Plan, moves: seq<Move>, worlds: seq<World>,
      n: nat, t: Option<string>)
    requires SystemRun(cfg, partitions, plan, moves, worlds) && n < |worlds| && DistinctServices(plan)
    ensures Tallied(plan, worlds[n].system, t, FailedAcks(plan, moves, worlds, n, t))
  {
    hide Own, Step, FailsToAck, Failing, DistinctServices, Tallied;
    if n == 0 {
      assert Tallied(plan, worlds[0].system, t, 0) by { StartTally(plan, partitions, |cfg.clusters|, t); }
    } else {
      hide SystemRun;
      SystemNext(cfg, partitions, plan, moves, worlds, n - 1);
      RunTally(cfg, partitions, plan, moves, worlds, n - 1, t);
      MoveTally(cfg, plan, worlds[n - 1], moves[n - 1], worlds[n], t,
          FailedAcks(plan, moves, worlds, n - 1, t));
    }
  }

  lemma StartTally(plan: Plan, partitions: nat, workers: nat, t: Option<string>)
    ensures Tallied(plan, Initial(partitions, workers), t, 0)
  {
  }

  /** With distinct services, at every point of every run, whatever else fails, retries or
      races: a task has had as many results as acknowledgements of it failed, or one more, and
      one more only if its request is acknowledged or about to be. */
  lemma ResultsCountFailedAcks(cfg: Config, partitions: nat, plan: Plan, moves: seq<Move>, worlds: seq<World>, n: nat,
      t: Option<string>)
    requires SystemRun(cfg, partitions, plan, moves, worlds) && n < |worlds| && DistinctServices(plan)
    ensures var results := CountAbout(plan.run, t, Log(worlds[n].system.bus, OptimizationResults));
      && FailedAcks(plan, moves, worlds, n, t) <= results <= FailedAcks(plan, moves, worlds, n, t) + 1
      && (results > FailedAcks(plan, moves, worlds, n, t) ==> Spent(plan.run, t, worlds[n].system))
  {
    RunTally(cfg, partitions, plan, moves, worlds, n, t);
    hide SystemRun, DistinctServices, FailedAcks, CountAbout, Spent, SettlingFor;
  }

  lemma {:induction false} NoneFailed(plan: Plan, moves: seq<Move>, worlds: seq<World>, n: nat, t: Option<string>)
    requires n <= |moves| && |worlds| == |moves| + 1 && Reliable(plan, moves, worlds)
    ensures FailedAcks(plan, moves, worlds, n, t) == 0
  {
    if n == 0 {
    } else {
      NoneFailed(plan, moves, worlds, n - 1, t);
    }
  }

  /** The case of no failure between a result's append and its acknowledgement: a task
      publishes at most one result. */
  lemma OneResultPerTask(cfg: Config, partitions: nat, plan: Plan, moves: seq<Move>, worlds: seq<World>, i: nat)
    requires SystemRun(cfg, partitions, plan, moves, worlds) && Reliable(plan, moves, worlds) && i < |worlds|
    requires DistinctServices(plan)
    ensures OncePerTask(plan.run, Log(worlds[i].system.bus, OptimizationResults))
  {
    var log := Log(worlds[i].system.bus, OptimizationResults);
    forall t ensures CountAbout(plan.run, t, log) <= 1 {
      ResultsCountFailedAcks(cfg, partitions, plan, moves, worlds, i, t);
      NoneFailed(plan, moves, worlds, i, t);
    }
    OncePerTaskIfCounted(plan.run, log);
  }
}

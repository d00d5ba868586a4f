/** Workers sharing one deduplication store: however often a service is worked on, the run
    reports what was decided on it last. */
module CoordinatorLastWord {
  import opened Ordering
  import opened Contracts
  import opened Bus
  import opened Locks
  import opened Worker
  import opened WorkerSafety
  import opened WorkerRuns
  import opened WorkerProvenance
  import opened Coordinator
  import opened CoordinatorSafety
  import opened CoordinatorCount
  import opened CoordinatorVerdict
  import opened CoordinatorDecisions

  predicate OneStore(cfg: Config) {
    forall v, w :: 0 <= v < |cfg.storeOf| && 0 <= w < |cfg.storeOf| ==> cfg.storeOf[v] == cfg.storeOf[w]
  }

  ghost predicate Stored(s: System, t: string) {
    exists d :: d in s.stores && t in s.stores[d]
  }

  /** What a worker holding the task's request knows about `last`, the latest decision. */
  ghost predicate Knows(run: string, t: string, s: System, pc: Pc, last: Option<Payload>) {
    !pc.Idle? && !pc.Releasing? && About(run, Some(t), pc.message.event) ==>
      && (pc.Locking? || pc.Running? ==> !Stored(s, t))
      && (pc.Storing? ==> last == Some(pc.result))
      && (pc.Publishing? ==> last == Some(pc.result) && Stored(s, t))
      && (pc.PublishingDuplicate? ==> last == Some(pc.found) && Stored(s, t))
  }

  ghost predicate KeptLast(t: string, stores: map<nat, map<string, Payload>>, last: Option<Payload>) {
    forall d :: d in stores && t in stores[d] ==> last == Some(stores[d][t])
  }

  ghost predicate ReportedLast(run: string, t: string, s: System, last: Option<Payload>) {
    forall r :: r in Log(s.bus, OptimizationResults) && About(run, Some(t), r.event) ==>
      last == Some(r.event.payload) && Stored(s, t)
  }

  /** The stores in use are the workers'. */
  ghost predicate StoresKnown(cfg: Config, s: System) {
    forall d :: d in s.stores ==> d in cfg.storeOf
  }

  ghost predicate Latest(cfg: Config, run: string, t: string, s: System, last: Option<Payload>) {
    && StoresKnown(cfg, s)
    && KeptLast(t, s.stores, last)
    && (forall w :: 0 <= w < |s.pcs| ==> Knows(run, t, s, s.pcs[w], last))
    && ReportedLast(run, t, s, last)
  }

  predicate DecidesTask(s: System, a: Action, t: string) {
    a.Advances? && a.w < |s.pcs| && s.pcs[a.w].Running? && s.pcs[a.w].task.taskId == t
  }

  /** The latest decision on a task after one more action. */
  function LastAfter(s: System, a: Action, t: string, last: Option<Payload>): Option<Payload> {
    if DecidesTask(s, a, t) then Some(ResultPayload(t, s.pcs[a.w].task.workloadId, a.verdict)) else last
  }

  // ---------- Whose task a worker is at ----------

  predicate HasTask(pc: Pc) {
    pc.CheckingDuplicate? || pc.Locking? || pc.Running? || pc.Storing? || pc.Publishing?
  }

  lemma TaskOfRequest(cfg: Config, bus: BusState, pc: Pc)
    requires HasTask(pc) && PcOk(cfg, bus, pc)
    ensures pc.message.event.payload.RequestPayload? && TaskOf(pc.message.event) == Some(pc.task.taskId)
  {
    hide HasResult, HasDeadLetter;
  }

  lemma WorkerPcOk(cfg: Config, plan: Plan, ids: set<string>, s: System, w: nat)
    requires SharedOk(cfg, plan, ids, s) && w < |s.pcs|
    ensures PcOk(cfg, s.bus, s.pcs[w])
    ensures Held(s.pcs[w]).Some? ==> RequestOk(plan, ids, Held(s.pcs[w]).value.event)
  {
    hide Inv, Custody, RequestsOk, PcOk;
    InvParts(cfg, s);
    if Held(s.pcs[w]).Some? {
      HeldRequestOk(plan, ids, s, w);
    }
  }

  /** Nobody works on a task of the run but for a request of the run. */
  lemma TaskIsAbout(cfg: Config, plan: Plan, ids: set<string>, s: System, w: nat, id: string)
    requires SharedOk(cfg, plan, ids, s) && w < |s.pcs| && HasTask(s.pcs[w]) && id in Ids(plan)
    ensures s.pcs[w].task.taskId == TaskId(plan.run, id)
      <==> About(plan.run, Some(TaskId(plan.run, id)), s.pcs[w].message.event)
  {
    hide SharedOk, PcOk, TaskId, Ids;
    WorkerPcOk(cfg, plan, ids, s, w);
    TaskOfRequest(cfg, s.bus, s.pcs[w]);
  }

  // ---------- A worker's step ----------

  /** Whether the step stores a result for the task. */
  predicate Stores(s: System, w: nat, t: string)
    requires w < |s.pcs|
  {
    s.pcs[w].Storing? && s.pcs[w].task.taskId == t
  }

  lemma StoresAfter(cfg: Config, s: System, w: nat, verdict: bool)
    requires Enabled(cfg, s, Advances(w, verdict))
    ensures Apply(cfg, s, Advances(w, verdict)).stores
      == if s.pcs[w].Storing?
         then s.stores[cfg.storeOf[w] := Store(s, cfg.storeOf[w])[s.pcs[w].task.taskId := s.pcs[w].result]]
         else s.stores
  {
    if s.pcs[w].Storing? {
      StoringStores(cfg, s, w, verdict);
    } else {
      OnlyStoringStores(cfg, s, w, verdict);
    }
    hide Advance, CanAdvance;
  }

  lemma StoredAfter(cfg: Config, s: System, w: nat, verdict: bool, t: string)
    requires Enabled(cfg, s, Advances(w, verdict))
    ensures var s' := Apply(cfg, s, Advances(w, verdict));
      && (StoresKnown(cfg, s) ==> StoresKnown(cfg, s'))
      && (Stored(s', t) <==> Stored(s, t) || Stores(s, w, t))
      && forall last :: KeptLast(t, s.stores, last) && (Stores(s, w, t) ==> last == Some(s.pcs[w].result))
           ==> KeptLast(t, s'.stores, last)
  {
    hide Apply, CanAdvance;
    StoresAfter(cfg, s, w, verdict);
    var s' := Apply(cfg, s, Advances(w, verdict));
    if Stores(s, w, t) {
      assert t in s'.stores[cfg.storeOf[w]];
    }
    if Stored(s, t) {
      var d :| d in s.stores && t in s.stores[d];
      assert d in s'.stores && t in s'.stores[d];
    }
  }

  /** How a worker comes to each position in which it knows something. */
  lemma NextPosition(cfg: Config, s: System, w: nat, verdict: bool)
    requires Enabled(cfg, s, Advances(w, verdict))
    ensures var pc := s.pcs[w]; var next := Advance(cfg, s, w, verdict).pc; var store := Store(s, cfg.storeOf[w]);
      && (next.Locking? ==> pc.CheckingDuplicate? && next.message == pc.message && pc.task.taskId !in store)
      && (next.PublishingDuplicate? ==>
            && pc.CheckingDuplicate? && next.message == pc.message
            && pc.task.taskId in store && next.found == store[pc.task.taskId])
      && (next.Running? ==> pc.Locking? && next.message == pc.message)
      && (next.Storing? ==>
            && pc.Running? && next.message == pc.message
            && next.result == ResultPayload(pc.task.taskId, pc.task.workloadId, verdict))
      && (next.Publishing? ==> pc.Storing? && next.message == pc.message && next.result == pc.result)
  {
    hide Post, Retry, Acknowledge, Unlocked, LockKeyOf, Publish, ResultEvent, DeadLetterEvent, Store;
  }

  /** What the worker knows in its next position. */
  lemma KnowsNext(cfg: Config, run: string, t: string, s: System, w: nat, verdict: bool, last: Option<Payload>)
    requires Enabled(cfg, s, Advances(w, verdict)) && OneStore(cfg) && StoresKnown(cfg, s)
    requires KeptLast(t, s.stores, last) && Knows(run, t, s, s.pcs[w], last)
    requires HasTask(s.pcs[w]) ==>
        (s.pcs[w].task.taskId == t <==> About(run, Some(t), s.pcs[w].message.event))
    ensures var a := Advances(w, verdict); var s' := Apply(cfg, s, a);
      Knows(run, t, s', s'.pcs[w], LastAfter(s, a, t, last))
  {
    StoredAfter(cfg, s, w, verdict, t);
    NextPosition(cfg, s, w, verdict);
    LookupKnows(cfg, s, w, t, last);
    hide About, Stored, KeptLast, StoresKnown, OneStore, Advance, CanAdvance, Store;
  }

  /** One lookup in the only store tells whether the task has been stored at all. */
  lemma LookupKnows(cfg: Config, s: System, w: nat, t: string, last: Option<Payload>)
    requires OneStore(cfg) && StoresKnown(cfg, s) && KeptLast(t, s.stores, last) && w < |cfg.storeOf|
    ensures t in Store(s, cfg.storeOf[w]) <==> Stored(s, t)
    ensures t in Store(s, cfg.storeOf[w]) ==> last == Some(Store(s, cfg.storeOf[w])[t])
  {
  }

  lemma OthersStand(cfg: Config, s: System, w: nat, verdict: bool, v: nat)
    requires Enabled(cfg, s, Advances(w, verdict)) && v < |s.pcs| && v != w
    ensures v < |Apply(cfg, s, Advances(w, verdict)).pcs| && Apply(cfg, s, Advances(w, verdict)).pcs[v] == s.pcs[v]
  {
    hide Advance, CanAdvance;
  }

  /** Whoever works on a task holds its only request. */
  lemma NobodyElse(cfg: Config, plan: Plan, ids: set<string>, s: System, v: nat, w: nat, id: string)
    requires SharedOk(cfg, plan, ids, s) && id in Ids(plan)
    requires OncePerTask(plan.run, Log(s.bus, OptimizationRequests)) && v < |s.pcs| && w < |s.pcs| && v != w
    requires HasTask(s.pcs[w]) && s.pcs[w].task.taskId == TaskId(plan.run, id) && Held(s.pcs[v]).Some?
    ensures !About(plan.run, Some(TaskId(plan.run, id)), s.pcs[v].message.event)
  {
    hide SharedOk, OncePerTask, About, TaskId, Custody, OthersOk;
    SharedCustody(cfg, plan, ids, s);
    TaskIsAbout(cfg, plan, ids, s, w, id);
    if About(plan.run, Some(TaskId(plan.run, id)), s.pcs[v].message.event) {
      OneHolder(plan.run, Some(TaskId(plan.run, id)), s, v, w);
    }
  }

  /** The others know what they knew. */
  lemma OthersKnow(cfg: Config, plan: Plan, ids: set<string>, s: System, w: nat, verdict: bool, id: string, v: nat,
      last: Option<Payload>)
    requires SharedOk(cfg, plan, ids, s) && Enabled(cfg, s, Advances(w, verdict)) && id in Ids(plan)
    requires OncePerTask(plan.run, Log(s.bus, OptimizationRequests)) && v < |s.pcs| && v != w
    requires var t := TaskId(plan.run, id); Knows(plan.run, t, s, s.pcs[v], last)
    ensures var t := TaskId(plan.run, id); var a := Advances(w, verdict); var s' := Apply(cfg, s, a);
      v < |s'.pcs| && Knows(plan.run, t, s', s'.pcs[v], LastAfter(s, a, t, last))
  {
    hide SharedOk, OncePerTask, About, Stored, KeptLast, StoresKnown, TaskId, Apply, CanAdvance;
    StoredAfter(cfg, s, w, verdict, TaskId(plan.run, id));
    OthersStand(cfg, s, w, verdict, v);
    if HasTask(s.pcs[w]) && s.pcs[w].task.taskId == TaskId(plan.run, id) && Held(s.pcs[v]).Some? {
      NobodyElse(cfg, plan, ids, s, v, w, id);
    }
  }

  lemma PostedLast(cfg: Config, plan: Plan, ids: set<string>, s: System, w: nat, verdict: bool, t: string,
      last: Option<Payload>)
    requires SharedOk(cfg, plan, ids, s) && Enabled(cfg, s, Advances(w, verdict)) && Posts(s.pcs[w])
    requires Knows(plan.run, t, s, s.pcs[w], last) && ReportedLast(plan.run, t, s, last)
    ensures ReportedLast(plan.run, t, Apply(cfg, s, Advances(w, verdict)), last)
  {
    hide SharedOk, Apply, About, Stored, KeptLast, StoresKnown, CanAdvance, PostEvent, ReportedLast, Knows;
    StoredAfter(cfg, s, w, verdict, t);
    var n := AdvanceAppends(cfg, s, w, verdict);
    var s' := Apply(cfg, s, Advances(w, verdict));
    if n.topic.OptimizationResults? && About(plan.run, Some(t), n.event) {
      PostedAbout(cfg, plan, ids, s, w, Some(t));
      PostKnown(plan.run, t, s, w, last);
    }
    AppendLast(plan.run, t, s, s', n, last);
  }

  lemma PostKnown(run: string, t: string, s: System, w: nat, last: Option<Payload>)
    requires w < |s.pcs| && PostsResult(s.pcs[w]) && Knows(run, t, s, s.pcs[w], last)
    requires About(run, Some(t), s.pcs[w].message.event)
    ensures last == Some(PostEvent(s.pcs[w]).payload) && Stored(s, t)
  {
    hide About, Stored;
  }

  lemma AppendLast(run: string, t: string, s: System, s': System, n: PublishedEvent, last: Option<Payload>)
    requires ReportedLast(run, t, s, last) && s'.bus == Append(s.bus, n) && (Stored(s, t) ==> Stored(s', t))
    requires n.topic.OptimizationResults? && About(run, Some(t), n.event) ==>
        last == Some(n.event.payload) && Stored(s, t)
    ensures ReportedLast(run, t, s', last)
  {
    hide About, Stored;
  }

  lemma AdvancedLast(cfg: Config, plan: Plan, ids: set<string>, s: System, w: nat, verdict: bool, t: string,
      last: Option<Payload>)
    requires SharedOk(cfg, plan, ids, s) && Enabled(cfg, s, Advances(w, verdict))
    requires Knows(plan.run, t, s, s.pcs[w], last) && ReportedLast(plan.run, t, s, last)
    requires HasTask(s.pcs[w]) ==>
        (s.pcs[w].task.taskId == t <==> About(plan.run, Some(t), s.pcs[w].message.event))
    ensures var a := Advances(w, verdict);
      ReportedLast(plan.run, t, Apply(cfg, s, a), LastAfter(s, a, t, last))
  {
    if Posts(s.pcs[w]) {
      PostedLast(cfg, plan, ids, s, w, verdict, t, last);
    } else {
      StoredAfter(cfg, s, w, verdict, t);
      AdvancesQuietly(cfg, s, w, verdict);
      hide SharedOk, Apply, About, Stored, KeptLast, StoresKnown, CanAdvance;
    }
  }

  lemma AdvanceLatest(cfg: Config, plan: Plan, ids: set<string>, s: System, w: nat, verdict: bool, id: string,
      last: Option<Payload>)
    requires SharedOk(cfg, plan, ids, s) && Enabled(cfg, s, Advances(w, verdict)) && OneStore(cfg) && id in Ids(plan)
    requires OncePerTask(plan.run, Log(s.bus, OptimizationRequests))
    requires Latest(cfg, plan.run, TaskId(plan.run, id), s, last)
    ensures var t := TaskId(plan.run, id); var a := Advances(w, verdict);
      Latest(cfg, plan.run, t, Apply(cfg, s, a), LastAfter(s, a, t, last))
  {
    var t, a := TaskId(plan.run, id), Advances(w, verdict);
    var s', last' := Apply(cfg, s, a), LastAfter(s, a, t, last);
    if HasTask(s.pcs[w]) {
      TaskIsAbout(cfg, plan, ids, s, w, id);
    }
    StoredAfter(cfg, s, w, verdict, t);
    KnowsNext(cfg, plan.run, t, s, w, verdict, last);
    AdvancedLast(cfg, plan, ids, s, w, verdict, t, last);
    assert KeptLast(t, s'.stores, last') by { KeptNext(cfg, plan.run, t, s, w, verdict, last); }
    hide SharedOk, OncePerTask, About, Stored, KeptLast, StoresKnown, Advance, CanAdvance, TaskId, ReportedLast, Knows,
        OneStore, LastAfter;
    forall v | 0 <= v < |s.pcs| ensures Knows(plan.run, t, s', s'.pcs[v], last') {
      if v != w {
        OthersKnow(cfg, plan, ids, s, w, verdict, id, v, last);
      }
    }
  }

  lemma KeptNext(cfg: Config, run: string, t: string, s: System, w: nat, verdict: bool, last: Option<Payload>)
    requires Enabled(cfg, s, Advances(w, verdict)) && KeptLast(t, s.stores, last)
    requires Knows(run, t, s, s.pcs[w], last)
    requires HasTask(s.pcs[w]) ==>
        (s.pcs[w].task.taskId == t <==> About(run, Some(t), s.pcs[w].message.event))
    ensures var a := Advances(w, verdict); KeptLast(t, Apply(cfg, s, a).stores, LastAfter(s, a, t, last))
  {
    StoredAfter(cfg, s, w, verdict, t);
    hide About, Advance, CanAdvance, StoresKnown;
    if DecidesTask(s, Advances(w, verdict), t) {
      assert !Stored(s, t);
    }
  }

  // ---------- Everybody else's steps ----------

  lemma QuietKnows(cfg: Config, run: string, t: string, s: System, a: Action, last: Option<Payload>)
    requires Enabled(cfg, s, a) && !a.Advances? && forall w :: 0 <= w < |s.pcs| ==> Knows(run, t, s, s.pcs[w], last)
    ensures var s' := Apply(cfg, s, a);
      && s'.stores == s.stores
      && forall w :: 0 <= w < |s'.pcs| ==> Knows(run, t, s', s'.pcs[w], last)
  {
    hide Take, Validate, Unlocked, Publish, Subscribe, Retry, About;
  }

  lemma SameStores(cfg: Config, t: string, s: System, s': System, last: Option<Payload>)
    requires s'.stores == s.stores
    ensures StoresKnown(cfg, s) ==> StoresKnown(cfg, s')
    ensures KeptLast(t, s.stores, last) ==> KeptLast(t, s'.stores, last)
    ensures Stored(s', t) <==> Stored(s, t)
  {
  }

  lemma SameLast(run: string, t: string, s: System, s': System, last: Option<Payload>)
    requires ReportedLast(run, t, s, last) && s'.bus.logs == s.bus.logs && (Stored(s, t) ==> Stored(s', t))
    ensures ReportedLast(run, t, s', last)
  {
    hide About, Stored;
  }

  lemma QuietLatest(cfg: Config, plan: Plan, s: System, a: Action, t: string, last: Option<Payload>)
    requires Enabled(cfg, s, a) && Custody(s) && Latest(cfg, plan.run, t, s, last) && !a.Advances?
    requires Publishable(plan.run, s, a)
    ensures Latest(cfg, plan.run, t, Apply(cfg, s, a), last)
  {
    var s' := Apply(cfg, s, a);
    assert OthersOk(s.bus, s.others);
    hide Custody, OthersOk, Apply, Enabled, Knows, KeptLast, ReportedLast, Stored, StoresKnown;
    QuietKnows(cfg, plan.run, t, s, a, last);
    SameStores(cfg, t, s, s', last);
    match a {
      case Publishes(topic, event, key) =>
        var n := PublishedEntry(cfg, s, topic, event, key);
        AppendLast(plan.run, t, s, s', n, last);
      case _ =>
        QuietStep(cfg, s, a);
        SameLast(plan.run, t, s, s', last);
    }
  }

  lemma StepLatest(cfg: Config, plan: Plan, ids: set<string>, s: System, a: Action, id: string, last: Option<Payload>)
    requires SharedOk(cfg, plan, ids, s) && Enabled(cfg, s, a) && Publishable(plan.run, s, a)
    requires OneStore(cfg) && id in Ids(plan) && OncePerTask(plan.run, Log(s.bus, OptimizationRequests))
    requires Latest(cfg, plan.run, TaskId(plan.run, id), s, last)
    ensures var t := TaskId(plan.run, id); Latest(cfg, plan.run, t, Apply(cfg, s, a), LastAfter(s, a, t, last))
  {
    SharedCustody(cfg, plan, ids, s);
    hide SharedOk, Latest, Apply, Enabled, Custody, OthersOk, OneStore, OncePerTask, Publishable;
    if a.Advances? {
      AdvanceLatest(cfg, plan, ids, s, a.w, a.verdict, id, last);
    } else {
      QuietLatest(cfg, plan, s, a, TaskId(plan.run, id), last);
    }
  }

  // ---------- Whole runs ----------

  /** What the first `n` moves decided last on service `i`: the verdict of the latest graph run
      of its task. */
  function LastDecision(plan: Plan, moves: seq<Move>, worlds: seq<World>, n: nat, i: int): Option<Payload>
    requires n <= |moves| && |worlds| == |moves| + 1 && 0 <= i < |plan.services|
  {
    if n == 0 then None
    else
      var before, t := LastDecision(plan, moves, worlds, n - 1, i), plan.run + ":" + plan.services[i].id;
      if moves[n - 1].Background? then LastAfter(worlds[n - 1].system, moves[n - 1].action, t, before) else before
  }

  lemma MoveLatest(cfg: Config, plan: Plan, x: World, move: Move, x': World, i: int, last: Option<Payload>)
    requires Indexed(plan) && DistinctServices(plan) && Own(cfg, plan, x) && Step(cfg, plan, x, move, x')
    requires OneStore(cfg) && 0 <= i < |plan.services|
    requires OncePerTask(plan.run, Log(x.system.bus, OptimizationRequests))
    requires Latest(cfg, plan.run, TaskId(plan.run, plan.services[i].id), x.system, last)
    ensures var t := TaskId(plan.run, plan.services[i].id);
      Latest(cfg, plan.run, t, x'.system,
             if move.Background? then LastAfter(x.system, move.action, t, last) else last)
  {
    var ids, a := Sent(plan, x.coordinator), BusAction(plan, x.coordinator, move);
    MovePublishable(cfg, plan, x, move, x');
    hide SharedOk, KeptOk, HoldingOk, Enabled, Apply, Take, OncePerTask, Latest, Publishable, TaskOf, Foreign, TaskId,
        OneStore, DistinctServices;
    assert plan.services[i].id in Ids(plan);
    if a.Some? {
      StepLatest(cfg, plan, ids, x.system, a.value, plan.services[i].id, last);
    }
  }

  lemma {:induction false} RunLatest(cfg: Config, partitions: nat, plan: Plan, moves: seq<Move>, worlds: seq<World>,
      n: nat, i: int)
    requires SystemRun(cfg, partitions, plan, moves, worlds) && n < |worlds| && DistinctServices(plan)
    requires OneStore(cfg) && 0 <= i < |plan.services|
    ensures Latest(cfg, plan.run, TaskId(plan.run, plan.services[i].id), worlds[n].system,
                   LastDecision(plan, moves, worlds, n, i))
  {
    hide Own, Step, DistinctServices, OneStore, LastAfter, OncePerTask, Tally;
    if n == 0 {
      assert Latest(cfg, plan.run, TaskId(plan.run, plan.services[i].id), worlds[0].system, None);
    } else {
      hide Latest;
      SystemNext(cfg, partitions, plan, moves, worlds, n - 1);
      RunTally(cfg, partitions, plan, moves, worlds, n - 1, None);
      RunLatest(cfg, partitions, plan, moves, worlds, n - 1, i);
      hide SystemRun;
      MoveLatest(cfg, plan, worlds[n - 1], moves[n - 1], worlds[n], i, LastDecision(plan, moves, worlds, n - 1, i));
    }
  }

  /** With distinct services and one store: a verdict the log has on a service is the one
      reached last, however many graph runs the service has had. */
  lemma LoggedIsLast(cfg: Config, partitions: nat, plan: Plan, moves: seq<Move>, worlds: seq<World>, n: nat, i: int,
      accepted: bool)
    requires SystemRun(cfg, partitions, plan, moves, worlds) && n < |worlds| && DistinctServices(plan)
    requires OneStore(cfg) && 0 <= i < |plan.services| && Logged(plan, worlds[n].system.bus, i, accepted)
    ensures LastDecision(plan, moves, worlds, n, i)
      == Some(ResultPayload(plan.run + ":" + plan.services[i].id, plan.services[i].id, accepted))
  {
    RunLatest(cfg, partitions, plan, moves, worlds, n, i);
    hide SystemRun, DistinctServices, OneStore, LastDecision, Knows, StoresKnown, KeptLast;
  }

  /** Hence, if moreover no acknowledgement failed, the coordinator passes the system if and
      only if the end-to-end check agrees and the last graph run of every service accepted it. */
  lemma LastWordDecides(cfg: Config, partitions: nat, plan: Plan, moves: seq<Move>, worlds: seq<World>, n: nat,
      endToEnd: bool)
    requires SystemRun(cfg, partitions, plan, moves, worlds) && Reliable(plan, moves, worlds) && DistinctServices(plan)
    requires OneStore(cfg) && n < |moves| && moves[n] == Judges(endToEnd)
    ensures var after := n + 1;
      worlds[after].coordinator.phase == Judged(true)
      <==> endToEnd && forall i :: 0 <= i < |plan.services| ==>
          LastDecision(plan, moves, worlds, after, i)
            == Some(ResultPayload(plan.run + ":" + plan.services[i].id, plan.services[i].id, true))
  {
    var after := n + 1;
    VerdictIsDecided(cfg, partitions, plan, moves, worlds, n, endToEnd);
    hide Reliable, DistinctServices, EverDecided, Logged, OneStore, LastDecision;
    forall i, accepted | 0 <= i < |plan.services| && Reached(plan, moves, worlds, after, i, accepted)
      ensures LastDecision(plan, moves, worlds, after, i)
        == Some(ResultPayload(plan.run + ":" + plan.services[i].id, plan.services[i].id, accepted))
    {
      LoggedIsLast(cfg, partitions, plan, moves, worlds, after, i, accepted);
    }
    hide SystemRun;
    if endToEnd && worlds[after].coordinator.phase != Judged(true) {
      var i :| 0 <= i < |plan.services| && Reached(plan, moves, worlds, after, i, false);
      assert LastDecision(plan, moves, worlds, after, i)
        != Some(ResultPayload(plan.run + ":" + plan.services[i].id, plan.services[i].id, true));
    }
  }
}

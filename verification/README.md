# Kuber: a verified model

Kuber replaces the RBAC policy of a Kubernetes workload by the narrowest policy that still
lets the workload do its job. It observes calls, proposes a candidate policy, applies it,
verifies the workload, repairs or rolls back; workers run this per workload from requests
on an at-least-once event bus, and a coordinator fans a namespace out over the workers and
judges the whole. This project models that behaviour in Dafny and proves what it keeps.

Every `.dfy` file holds one module of the same name; `dafny verify dfyconfig.toml` checks all of them.

- **Policies.** `Ordering` (Python's tuple order, stable sort, ordered dictionaries), `Models`
  (permissions, the normal form of a policy), `Authorization` (what a policy means),
  `Canonicalizer` (wildcard expansion), `Minimizer` (least and repaired policies).
- **Compiler.** `Documents` (structured documents), `Generator`, `Parser`, `Resolver`, `RoundTrip`;
  `GeneratorMeaning` and `ParserMeaning` say what the documents say, field by field and without
  the functions that write and read them.
- **Workload graph.** `Workload` (the nodes and routers as a step function over graph state
  and environment), `WorkloadSafety` (any environment), `WorkloadConvergence` (environments
  that report some true denials), `WorkloadReport` (counters and verification), `Simulator` (the simulator, and the graph driven against it),
  `SimulatorReuse` (two runs on one adapter), `WorkloadCompilation` (the graph on an adapter
  that checks what it applies by compiling it).
- **Event protocol.** `Contracts`, `Bus`, `Locks`, `Worker` (N workers interleaving the atomic
  steps of `process`), `WorkerSafety`, `WorkerAccounting`, `WorkerRuns` (whole runs),
  `WorkerProvenance` (what results and dead letters come from), `WorkerCounters` (what each counter
  counts), `Isolation` (groups do not affect each other), `WorkerProcess` (the worker as an object),
  `WorkerProgress` (no deadlock, bounded work), `Coordinator`, `CoordinatorSafety`,
  `CoordinatorRequests` (what is asked for), `CoordinatorCount` (how many results a task can have),
  `CoordinatorVerdict`, `CoordinatorDecisions` and `CoordinatorLastWord` (from the verdict back to what the
  workload graphs decided), two runs in which the coordinator is fooled, `CoordinatorMiscount`
  and `CoordinatorTwins`, and one in which a service is accepted first and then rejected,
  `CoordinatorReversal`.

Conventions. Python exceptions are `Result` values or error nodes. Loops that append to lists
are methods with loops, proved equal to recursive functions about which the properties are
stated; the bus, the simulator, the stores, the lock manager and the worker are classes whose
methods state their whole new state. An environment of the workload graph is an arbitrary
function of the run's history, so a statement for every environment covers adaptive ones.
A run of the protocol is a sequence of states, each obtained from the one before by one
action of a worker, a publisher, a subscriber or another consumer group, in any order.

Where the code and its claims part:

- The coordinator decides by counting results. If an acknowledgement fails after a result was
  appended, the retried request is answered from the deduplication store with a second result,
  and the count can be reached with one service unheard of. `CoordinatorMiscount` is such a
  run. `CoordinatorCount` proves that with distinct service ids a task's results number its
  failed acknowledgements or one more, and `CoordinatorVerdict` that counting covers every service
  exactly once if and only if no task repeats among the collected results; none repeats when no
  worker of the run fails between append and acknowledgement.
- Service ids need not be distinct: discovery takes the app.kubernetes.io/name label
  (context_layer/discovery.py:71), which two Deployments may share. They then share a task, the
  second request is answered from the store, and the system passes with one of them never
  worked on, without any failure: `CoordinatorTwins` is such a run. A passing run without
  failed acknowledgements covers every Deployment once if and only if the ids are distinct.
- A service may be worked on more than once, when storing or publishing a result fails, and the
  runs may decide differently. It is then not enough that some run accepted the service, as the
  run in `CoordinatorReversal` shows. `CoordinatorDecisions` proves that the verdict is about the
  runs whose results the log has, and `CoordinatorLastWord` that with one deduplication store
  these are the last ones.
- A policy is said to be canonical, but the sort key reads an absent and an empty optional
  field alike; `Models` proves that the key order is independent of the input order exactly when the
  sort key tells the keys apart, and shows two permissions it confuses.
- Compiling a policy and resolving it again for an account returns it exactly for the policies
  and accounts `RoundTrip.Compilable` describes, and for no others; a grant restricted to the
  empty name is one that is lost.
- A rejected run restores what the adapter was created with. On an adapter used before, that may
  differ from the policy the run found and reports; `WorkloadSafety` says exactly when, and
  `SimulatorReuse` has two runs on one adapter of which the second leaves a wider policy in
  force than the one it reports.

## Model

| member | source | states |
|---|---|---|
| Models.NormalizeFacts | rules_engine/models/policy.py:23-31 | A policy's permissions are sorted and key-unique, have exactly the keys given, and keep per key the permission given last |
| Models.NormalizeFixedIffNormal | rules_engine/models/policy.py:23-31 | Rebuilding a policy changes nothing exactly for lists already in normal form |
| Models.SortIsStable | rules_engine/models/policy.py:25-30 | Keys the sort does not order stay in the order given |
| Models.CanonicalIffSortKeysTellApart | rules_engine/models/policy.py:23-31 | Inputs with the same keys give the same key sequence, for every order and multiplicity, if and only if the sort key tells the keys apart |
| Models.NoEmptyPartsTellApart | rules_engine/models/policy.py:28 | With no empty-string namespace or name the sort key tells all keys apart |
| Models.AbsentAndEmptyAreTied | rules_engine/models/policy.py:25-30 | Two literal permissions, namespace absent and namespace empty, whose policy shows which was given first |
| Authorization.AuthorizeMeaning | rules_engine/rbac/authorization.py:36-44 | The first-match search allows exactly the events some permission matches, and reports the first that does |
| Authorization.AuthorizationDependsOnKeySet | rules_engine/rbac/authorization.py:36-44 | Authorization is a function of the key set: normalization, order and duplicates do not change it |
| Authorization.AsEventDecidesCoverage | rules_engine/rbac/authorization.py:17-33 | Asking about a permission read as an event decides coverage: yes if and only if the policy grants every wildcard-free event of the permission; narrower grants never add up to a wildcard |
| Canonicalizer.CatalogIs | rules_engine/rbac/canonicalizer.py:5-31 | The catalog spelled out: seven resources in four groups, seven verbs, and what a wildcard stands for |
| Canonicalizer.ExpandPermission | rules_engine/rbac/canonicalizer.py:34-65 | The nested loops produce the expansion |
| Canonicalizer.ExpansionMembers | rules_engine/rbac/canonicalizer.py:34-65 | Exactly which permissions an expansion contains |
| Canonicalizer.ExpansionKeepsCatalogEvents | rules_engine/rbac/canonicalizer.py:34-65 | On catalog events an expanded permission grants exactly what it granted |
| Canonicalizer.ExpansionPreservesMeaning | rules_engine/rbac/canonicalizer.py:68-70 | Expansion authorizes the same catalog events, nothing new anywhere, and leaves no wildcard |
| Canonicalizer.ExpansionIsIdempotent | rules_engine/rbac/canonicalizer.py:68-70 | Expanding twice is expanding once |
| Minimizer.NarrowestIsLeast | rules_engine/minimizer/reducer.py:10-20 | A permission matches an event if and only if it covers everything the event's own permission covers |
| Minimizer.ObservedOnlyIsLeast | rules_engine/minimizer/reducer.py:23-35 | Succeeds exactly when all observed calls are authorized and supported; a policy authorizes all of them if and only if it covers the result |
| Minimizer.RepairAddsOnlyNeeded | rules_engine/minimizer/reducer.py:38-50 | Succeeds exactly when every denied call was originally authorized and is supported; adds the narrowest grant for each and nothing else |
| Minimizer.ObservedOnlyOutcome | rules_engine/minimizer/reducer.py:10-35 | The policy's name, account and sources; or all observed calls not granted, in order; or the first that is not supported |
| Minimizer.RepairOutcome | rules_engine/minimizer/reducer.py:38-50 | The repaired policy keeps name and account; a repair is refused for the first call that may not be restored |
| Minimizer.Repair | rules_engine/minimizer/reducer.py:43-50 | The loop over missing events computes the repaired policy or the first refusal |
| Generator.GroupsPartition | rules_engine/rbac/generator.py:16-18 | Grouping by a key partitions the permissions |
| Generator.GenerateRules | rules_engine/rbac/generator.py:15-31 | The grouping and sorting loops produce the rule list |
| Generator.PolicyToDocuments | rules_engine/rbac/generator.py:34-73 | The scope loop produces the role and binding documents |
| GeneratorMeaning.RulesSay | rules_engine/rbac/generator.py:15-31 | One rule for each group, resource and name that occurs, ordered by the three, listing in order the verbs of exactly those permissions, with the name only if it is not empty |
| GeneratorMeaning.DocumentsSay | rules_engine/rbac/generator.py:34-73 | One role and one binding for each namespace that occurs, in order, with every field spelled out: version, kind, name, namespace, role reference, subject, and the rules of exactly that scope's permissions |
| Parser.FlattenDocuments | rules_engine/rbac/parser.py:81-95 | The recursive loop flattens nested lists or reports the first malformed document |
| Parser.ParseRules | rules_engine/rbac/parser.py:52-78 | The loop computes the rule list that RuleListExactly and RuleListFails determine |
| ParserMeaning.RuleExactly | rules_engine/rbac/parser.py:57-77 | A raw rule decodes if and only if its fields are lists of strings meeting the checks, and then, item by item, to the texts of the four lists, with the core group for absent apiGroups and no names for absent resourceNames |
| ParserMeaning.RefusedForFirst | rules_engine/rbac/parser.py:68-76 | A readable rule is refused for its first unknown verb, or else for the first group and resource outside the catalog |
| ParserMeaning.RuleListExactly | rules_engine/rbac/parser.py:52-78 | A list decodes if and only if each item does, to the rules of its items in order |
| ParserMeaning.RuleListFails | rules_engine/rbac/parser.py:56-76 | And otherwise fails as its first item that does not decode |
| ParserMeaning.SubjectListExactly | rules_engine/rbac/parser.py:153-172 | The subjects are the service accounts listed, in order, in their own namespace or else the binding's; other kinds are skipped |
| ParserMeaning.RoleRefExactly | rules_engine/rbac/parser.py:140-149 | Which references are read, and as what |
| ParserMeaning.DecodeExactly | rules_engine/rbac/parser.py:119-181 | A document decodes to an object if and only if it says that object, for each of the five kinds, every field and default included |
| ParserMeaning.FlattenLaws | rules_engine/rbac/parser.py:81-95 | Documents stay in order, nulls vanish, a list stands for its items wherever it occurs, any other mapping for itself, anything else is refused |
| ParserMeaning.ParseExactly | rules_engine/rbac/parser.py:98-182 | A source parses if and only if it flattens and each document says an object, and then to those service accounts, roles and bindings, each in document order |
| ParserMeaning.DecodeAllFails | rules_engine/rbac/parser.py:119-181 | Otherwise it fails as the first document that does not decode |
| Parser.ParseRbac | rules_engine/rbac/parser.py:115-182 | The loop computes the parse that ParseExactly, FlattenLaws and DecodeAllFails determine |
| Parser.DecodeAllOk | rules_engine/rbac/parser.py:119-182 | A list of documents decodes exactly when each of them does |
| Parser.ParseIsSound | rules_engine/rbac/parser.py:119-182 | Whatever parses passed every check; every RoleBinding carries a namespace |
| Resolver.Resolve | rules_engine/rbac/resolver.py:13-53 | The nested loops compute the policy that ResolvedPermissions determines |
| Resolver.ResolvedPermissions | rules_engine/rbac/resolver.py:6-53 | A key is granted if and only if a binding of the account spells it out: from a rule of the first role with the name, kind and namespace it refers to, in the binding's namespace or in all; each permission names the binding it came from |
| Resolver.OtherNamespacesDoNotMatter | rules_engine/rbac/resolver.py:16-32 | What a binding grants does not change when roles of other namespaces are added, removed or reordered |
| Resolver.ReferenceGrants | rules_engine/rbac/resolver.py:16-34 | A reference to a listed role grants something if the roles it may mean have rules |
| Resolver.RuleMeaning | rules_engine/rbac/resolver.py:39-47 | The four-way product of a rule grants exactly what the rule allows, within the binding's scope |
| Resolver.ResolutionMeaning | rules_engine/rbac/resolver.py:6-53 | After a successful parse an event is authorized if and only if a binding of the account, in scope, refers to a role (a `Role` by name in its own namespace, a `ClusterRole` by name), the first such, with a rule allowing it |
| RoundTrip.BindingFindsItsRole | rules_engine/rbac/resolver.py:17-32 | A generated binding selects the role generated with it, whatever the names and scopes |
| RoundTrip.PolicyParses | rules_engine/rbac/parser.py:98-182 | Exactly when a policy's generated documents parse, and what they parse to |
| RoundTrip.EmptyNameIsLost | rules_engine/rbac/generator.py:28-29 | A grant restricted to the empty name never survives compilation, for any account |
| RoundTrip.NamelessIsLost | rules_engine/rbac/generator.py:28-29 | A literal policy with such a grant whose documents parse and do not give it back |
| RoundTrip.RoundTripExactly | kubernetes_runtime/adapter/kubernetes_environment.py:219-229 | For any account: generating, parsing and resolving gives back the same key set if and only if the policy is compilable for that account, and then the same key sequence, which is when the adapter's check passes |
| RoundTrip.CompilableOnlyForItself | kubernetes_runtime/adapter/kubernetes_environment.py:222-225 | A policy naming its account's namespace is compilable for that account and no other |
| RoundTrip.CompilationPreservesAuthority | rules_engine/rbac/generator.py:34-73 | A compiled policy authorizes exactly the same events |
| Workload.StepFollowsEdges | agent_layer/graphs/workload.py:456-471 | A node is left only along a declared edge or by raising, and the two routers decide exactly as stated |
| WorkloadSafety.RunNeverEscalates | agent_layer/graphs/workload.py:230-251 | In any environment and on any adapter nothing applied exceeds the policy found in force or drops an observed call, nothing else is left behind but what the adapter restores; validation never raises; a run raises exactly when reduction is impossible |
| WorkloadSafety.ValidationDecidesCoverage | agent_layer/graphs/workload.py:230-244 | For arbitrary candidates the check passes exactly when the original covers every candidate permission, hence never lets authority grow |
| WorkloadSafety.RunIsBounded | agent_layer/graphs/workload.py:297-305 | At most 11 + 5k nodes and k + 1 verifications for k allowed repairs, and their exact number for every returning run |
| WorkloadSafety.RunCommitsOrRollsBack | agent_layer/graphs/workload.py:108-123 | The environment ends with the reported policy if and only if the run was accepted or the policy found was the one the adapter restores; accepted runs report the last applied and verified candidate |
| WorkloadSafety.RunAccounting | agent_layer/graphs/workload.py:341-371 | In every state of a run `incorrect_removals` is the candidate's size minus the first's, the candidate holds exactly the keys needed so far, and the candidates applied strictly grow |
| WorkloadReport.RunReports | agent_layer/graphs/workload.py:108-123 | A returning run reports one attempted reduction, accepted or rejected, and its last verification, passed if and only if accepted; in every state verification and diagnosis are those of the latest answer |
| WorkloadCompilation.CandidateCompilesIff | kubernetes_runtime/adapter/kubernetes_environment.py:219-229 | In every state of every run with a candidate: it keeps the account of the policy found, and the adapter's round-trip check passes for it, for any adapter account, if and only if each call observed or repaired so far can be written down and bound to that account |
| WorkloadCompilation.EveryApplicationCompilesIff | agent_layer/graphs/workload.py:253-267 | The check passes for everything a returning run applies if and only if all calls observed or repaired in it can be so expressed, however verification answers |
| WorkloadCompilation.EmptyPartsDecide | rules_engine/minimizer/reducer.py:10-20 | For the policy's own named account that means no empty namespace, and no empty name on a verb that keeps names |
| WorkloadConvergence.AcceptedIsLeastPrivilege | agent_layer/graphs/workload.py:206-228 | An accepted run's policy authorizes all observed and required calls and is covered by every policy that does |
| WorkloadConvergence.MissingShrinks | agent_layer/graphs/workload.py:341-371 | A repair naming a true denial strictly shrinks the missing key set |
| WorkloadConvergence.PartialReportsConverge | agent_layer/graphs/workload.py:297-378 | If failing verifications report any non-empty part of the true denials, the run accepts within as many repairs as keys were missing |
| Simulator.SimulatorEnvironment.constructor | judge_layer/simulator/environment.py:14-17 | A fresh adapter holds the case's policy as current and original |
| Simulator.SimulatorEnvironment.VerifyWorkload | judge_layer/simulator/environment.py:32-53 | The loop computes the result that VerificationCountsTests and SimulatorReportsAllDenials determine |
| Simulator.VerificationCountsTests | judge_layer/simulator/environment.py:36-53 | Tests passed is the number of tests whose calls are all granted, the total is the number of tests, and verification passes if and only if the two agree |
| Simulator.WorkloadOptimizationGraph.RunNode | agent_layer/graphs/workload.py:152-434 | One node executed against the adapter leaves the modelled state and policy |
| Simulator.WorkloadOptimizationGraph.Run | agent_layer/graphs/workload.py:91-123 | The graph driven against the adapter ends in the modelled final state |
| Simulator.SimulatorReportsAllDenials | judge_layer/simulator/environment.py:32-65 | A failed verification reports exactly the denied calls, each once |
| Simulator.DenialsInOrder | judge_layer/simulator/environment.py:36-52 | Denials are reported in the order in which the tests first make the calls |
| Simulator.SimulatorAcceptsExactly | judge_layer/simulator/environment.py:32-65 | A simulator run is accepted if and only if each verification call is granted by the first candidate or is recoverable, uses at most one repair, and ends with the least policy |
| SimulatorReuse.RejectionWidensReusedAdapter | agent_layer/graphs/workload.py:380-394 | Two literal runs on one simulator adapter: the first is accepted after one repair, the second, allowed none, is rejected, reports the policy it found and leaves in force the wider one of the adapter's creation |
| Bus.InMemoryEventBus.PublishEvent | event_layer/bus.py:70-84 | The log gains one entry at the next offset and every subscribed queue one copy, or nothing changes |
| Bus.InMemoryEventBus.SubscribeGroup | event_layer/bus.py:86-96 | A new group gets the whole log replayed |
| Bus.InMemoryEventBus.Consume | event_layer/bus.py:98-116 | Refuses empty consumer names, subscribes the group if need be, then skips acknowledged copies and claims the next one |
| Bus.Refusals | event_layer/bus.py:70-152 | Exactly what publishing, subscribing, consuming, retrying and dead-lettering are refused for, and with which error |
| Bus.NextIsFirstUnacked | event_layer/bus.py:98-109 | A consumer is given the first copy of its queue not acknowledged, marked with group and consumer; it and those before it leave the queue; nothing exactly if there is none |
| Bus.PartitionOfKey | event_layer/bus.py:160-163 | A key's partition is the sum of its UTF-8 bytes modulo the number of partitions |
| Bus.Utf8Decodes | event_layer/bus.py:163 | The bytes decode to the character |
| Bus.Utf8IsWellFormed | event_layer/bus.py:163 | They are bytes, the first tells how many there are and the others continue it |
| Bus.InMemoryEventBus.RetryEvent | event_layer/bus.py:124-135 | The copy goes to the back of its group's queue with attempt and count advanced |
| Bus.InMemoryEventBus.DeadLetterEventOf | event_layer/bus.py:137-152 | Published to the dead-letter topic first, acknowledged only if that succeeded |
| Bus.OffsetsIdentify | event_layer/bus.py:75-78 | Within a partition offsets strictly increase, so the acknowledgement key identifies one entry |
| Bus.OffsetsDense | event_layer/bus.py:75-78 | The offsets of a partition are exactly 0 to its count minus one |
| Bus.ExactlyOneCopy | event_layer/bus.py:86-135 | For a subscribed group each entry is acknowledged, held, or queued at one place: exactly one of these |
| Bus.TakeKeepsLive | event_layer/bus.py:103-109 | Claiming moves the only copy from queue to consumer |
| Bus.RetryKeepsLive | event_layer/bus.py:124-135 | Retrying moves it back |
| Isolation.StepUntouched | event_layer/bus.py:70-135 | Whatever step acts for another group or for none, a subscribed group's queue changes only by one new copy of each new entry, and its acknowledgements and deliveries in hand not at all |
| Isolation.GroupsAreIsolated | event_layer/bus.py:46-52 | The same over any stretch of any run in which nobody acts for the group, however much the others claim, fail and retry |
| Locks.LockKeyIsInjective | event_layer/locks.py:10-14 | Accepted triples of any length never share a lock key |
| Locks.TaskIdIsInjective | agent_layer/graphs/system.py:164 | Task identifiers of different runs or services differ when service names are colon-free |
| Worker.CustodyStep | event_layer/worker.py:79-166 | Every step of every worker and consumer keeps each delivery in exactly one pair of hands |
| WorkerRuns.AckOnlyAfterDurableCompletion | event_layer/worker.py:151-166 | In every reachable state an acknowledged request has its result in the results log or a dead letter naming it |
| WorkerRuns.RunsExcludeEachOther | event_layer/worker.py:103-106 | At most one worker is inside a workload's lock, and a waiting worker is kept out only by one on its own triple |
| WorkerRuns.DeliveryIsBounded | event_layer/worker.py:161-166 | A request of attempt a is delivered at most max(1, max - a) times, and a held copy carries exactly the attempt of its delivery |
| WorkerRuns.DeliveriesCountClaims | event_layer/bus.py:103-109 | The delivery counter in that bound is the number of claims of the request in the run |
| WorkerRuns.NothingIsLostOrCountedTwice | event_layer/worker.py:27-33 | An idle worker's counters add up; once drained, published requests are exactly those completed, failed or duplicate |
| WorkerCounters.CountersCount | event_layer/worker.py:27-33 | Each counter of each worker is the number of times in the run that what it is for has happened |
| WorkerProvenance.ResultsAreDecided | event_layer/worker.py:107-155 | Every entry of the results log was put there by somebody else, or answers a logged request (its run, conversation, key and task) with exactly what a graph run of that task and workload decided in an earlier step |
| WorkerProvenance.StoredAreDecided | event_layer/worker.py:153 | What is stored as a task's result is what a graph run of that task decided |
| WorkerProvenance.DeadLettersAreHopeless | event_layer/worker.py:156-166 | Every dead letter was put there by somebody else, or carries a logged request that is invalid or out of attempts, with the reason |
| WorkerRuns.EveryEntryHasOneCopy | event_layer/bus.py:46-52 | In every reachable state of every run each entry has exactly one live copy per group, and no delivery is in two consumers' hands, workers or others |
| WorkerProcess.AloneKeepsInv | event_layer/worker.py:79-166 | A worker running uninterrupted takes only protocol steps, so every invariant survives it |
| WorkerProcess.AloneFinishes | event_layer/worker.py:79-166 | An unhindered worker always resolves its delivery, except when the lock key cannot be built |
| WorkerProcess.ProcessLeaves | event_layer/worker.py:79-166 | The protocol's steps of an uninterrupted worker amount to one described outcome: what is published with which fields, acknowledged, put back, stored and counted, for every request and every fault |
| WorkerProcess.OptimizationWorker.Process | event_layer/worker.py:79-166 | `process` on the real fields, with a fault at any stage of the try block and the lock free or taken, leaves exactly that outcome, which is what the protocol's steps leave, up to its return or to where it waits for the lock |
| WorkerProcess.OptimizationWorker.Work | event_layer/worker.py:103-166 | From there, entered at once or once the awaited lock is free, on whatever the others have left meanwhile, the try block with a fault at any stage leaves exactly the described outcome and what the protocol's steps leave |
| WorkerProgress.UnsettledWorkGoesOn | event_layer/worker.py:63-166 | In every reachable state, while a request is unacknowledged some worker can act, unless one crashed on that request's lock key or all have crashed |
| WorkerProgress.WorkerStepsAreBounded | event_layer/worker.py:161-166 | However a run interleaves and fails, its workers take at most eleven steps per delivery the published requests are allowed |
| CoordinatorSafety.RunOwn | agent_layer/graphs/system.py:160-212 | In every run, everything collected is a logged result of the run's own services, and requests, stores and workers agree on whose task is whose |
| CoordinatorRequests.RequestsAskInOrder | agent_layer/graphs/system.py:160-181 | At every point of every run the run's requests in the log are one for each service dispatched so far, in discovery order, with that service's own task, id, namespace, context reference and key |
| CoordinatorRequests.ValidatesExactly | event_layer/worker.py:168-182 | Which events a worker accepts, and as which task |
| CoordinatorRequests.ClaimedRequestIsServed | event_layer/worker.py:79-96 | Whoever claims a delivery of the run goes on to work on that service's own task, if and only if the service has an id, a namespace and a context reference the workers hold for it; otherwise it is given up as invalid |
| CoordinatorVerdict.CountingCoversIffNoRepeat | agent_layer/graphs/system.py:195-206 | In any run, with any service ids: holding as many results as services covers each service exactly once if and only if no task repeats |
| CoordinatorCount.ResultsCountFailedAcks | event_layer/worker.py:151-166 | With distinct service ids, at every point of every run: a task has as many logged results as acknowledgements of it failed, or one more, and one more only once its request is acknowledged or about to be |
| CoordinatorCount.OneResultPerTask | event_layer/worker.py:153-155 | The case of no such failure: a task publishes at most one result, whatever else fails or races |
| CoordinatorVerdict.VerdictIsSound | agent_layer/graphs/system.py:217-258 | If moreover the service ids are distinct, a positive verdict means each discovered service has exactly one result of its own, logged and accepted |
| CoordinatorVerdict.VerdictIsExact | agent_layer/graphs/system.py:227-235 | Then the coordinator passes the system if and only if every service has an accepted, logged result of its own and the end-to-end check agrees |
| CoordinatorDecisions.LoggedIsDecided | event_layer/worker.py:119-154 | In any run a verdict logged for a service is one a graph run on that service reached |
| CoordinatorDecisions.VerdictIsDecided | agent_layer/graphs/system.py:227-235 | The coordinator passes the system if and only if the end-to-end check agrees and for every service a graph run of its own accepted it, as the log reports; where only the services fail it, a graph run rejected one |
| CoordinatorDecisions.SteadyVerdict | agent_layer/graphs/system.py:227-235 | If no service is decided on both ways, it passes if and only if the check agrees and each service was accepted by a graph run |
| CoordinatorReversal.AcceptedOnceIsNotEnough | event_layer/worker.py:153-163 | A concrete run with one store and no failed acknowledgement: a graph run accepts the only service, storing the result fails, the next graph run rejects it, and the verdict is negative |
| CoordinatorLastWord.LoggedIsLast | event_layer/worker.py:79-155 | With distinct services and one store, a verdict logged for a service is that of its last graph run |
| CoordinatorLastWord.LastWordDecides | agent_layer/graphs/system.py:227-235 | Then the coordinator passes the system if and only if the check agrees and the last graph run of every service accepted it |
| CoordinatorVerdict.PassingCoversIffDistinct | agent_layer/graphs/system.py:160-181 | For any discovered services: a passing run without failed acknowledgements covers each exactly once if and only if their ids are distinct |
| CoordinatorTwins.SharedIdFoolsTheCoordinator | context_layer/discovery.py:71 | A concrete run without any failure: two Deployments with one service id, one execution, and a positive verdict |
| CoordinatorMiscount.FailedAckFoolsTheCoordinator | agent_layer/graphs/system.py:227-235 | A concrete run with one failed acknowledgement in which the coordinator passes a system whose second service was never worked on |

## Left out

- The wording of error messages and reasons where it quotes the offending value or exception.
- YAML text, file paths and JSON: `parse_rbac` starts from loaded documents, and keys of mappings are strings.
- Kafka, Redis, SQLite, LangGraph and asyncio internals: the bus, lock and store are the in-memory ones, the workload graph is a step function over its edges without LangGraph's recursion limit, and locks do not expire.
- The Kubernetes adapter, its sandbox guard and log polling; only its round-trip check is stated.
- The failure reasoner's text, trajectories, callbacks, reports and the command line: none of them affects routing.
- Risk scores, `effective_permission_count`, and the report fields of results: a result carries its task, workload and verdict.
- Event identifiers, timestamps, causation links and schema versions; payload fields nobody modelled reads; a missing `repository_ref` is one of the failures inside the try block.
- Exceptions raised by an environment during a workload run: the graph's own errors are modelled, an adapter that raises is not.
- Workload.Run: the run's checkpoints are not modelled.
- WorkloadConvergence.AcceptedIsLeastPrivilege: leastness is about what a policy authorizes, not about its size or risk score.
- WorkerRuns.Inv: the bus stays open during runs, and publishing, acknowledging a duplicate and taking a stored result do not fail outside the try block; `InMemoryEventBus.Close` and publishing on a closed bus are in `Bus`.
- WorkerRuns.RunsExcludeEachOther: says nothing about the policy restore on the exception path, which happens after the lock is released.
- WorkerRuns.NothingIsLostOrCountedTwice: a task requested twice may run twice, because the store is consulted before the lock is taken.
- WorkerProcess.OptimizationWorker.Process: returns to its caller where the original would wait for the lock; what follows the wait is `WorkerProcess.OptimizationWorker.Work`, and when it comes belongs to the interleaved model.
- WorkerProgress.UnsettledWorkGoesOn: says that a step is possible, not that a scheduler takes it.
- CoordinatorVerdict.VerdictIsSound: assumes a run identifier and task identifiers nobody else publishes; and distinct service ids, which discovery does not guarantee (see CoordinatorVerdict.PassingCoversIffDistinct).
- `wait_for_completion` is modelled as steps of receiving and acknowledging rather than one loop, because other parties move between its iterations; its timeout may strike at any of them.
- The two system verification events the coordinator publishes: nobody modelled consumes them.

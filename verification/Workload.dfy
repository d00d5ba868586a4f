/** The verify / diagnose / repair / retry graph for one workload, as a step function over
    its declared nodes and edges. The environment answers verification; everything else
    is deterministic. */
module Workload {
  import opened Ordering
  import opened Models
  import opened Authorization
  import opened Minimizer

  datatype VerificationResult = VerificationResult(
    passed: bool, testsPassed: nat, testsTotal: nat, deniedEvents: seq<KubeEvent>)

  datatype FailureDescription = FailureDescription(missingEvents: seq<KubeEvent>, authorizationDenial: bool)

  datatype FailureType = Rbac | Unrelated | Unrecoverable

  datatype Node =
    | LoadServiceContext | InspectRbac | GatherEvidence | GenerateCandidate | ValidateCandidate
    | ApplyCandidate | Verify | CheckMoreReductions | FinalVerify | DiagnoseFailure | RepairCandidate
    | RestoreLastKnownGood | HumanReview | FinalizeWorkload | PublishResultEvent
    | Finished | Raised(error: GraphError)

  datatype GraphError = ReductionFailed(reason: ReduceError) | CapabilityAbsentFromOriginal

  /** The fields of the workload state that routing, policies and counters depend on. */
  datatype GraphState = GraphState(
    originalPolicy: Policy, currentPolicy: Policy, candidatePolicy: Policy, lastKnownGood: Policy,
    observedEvents: seq<KubeEvent>,
    verification: Option<VerificationResult>, failure: Option<FailureDescription>, failureType: Option<FailureType>,
    retryCount: nat, incorrectRemovals: int,
    reductionsAttempted: nat, reductionsAccepted: nat, reductionsRejected: nat,
    accepted: bool)

  /** What an environment adapter holds: the policy in force, the one `restore_policy`
      returns to, and the usage it has observed. */
  datatype World = World(current: Policy, original: Policy, observed: seq<KubeEvent>)

  /** A run in progress: the node about to execute, graph state, environment, and what has
      happened so far (nodes executed, verifications, policies applied, events repaired). */
  datatype RunState = RunState(
    node: Node, graph: GraphState, world: World,
    steps: nat, verifications: nat, applied: seq<Policy>, repaired: seq<KubeEvent>)

  /** The outcome of `verify_workload`, with what `describe_failure` would say about it. */
  datatype Answer = Answer(result: VerificationResult, failure: FailureDescription)

  /** An environment may answer from anything that happened before: `RunState` carries the
      whole history, so a function of it is an arbitrary adaptive environment. */
  type Environment = RunState -> Answer

  const UNSET: Policy := Policy([], "", "", "")

  function Initial(world: World): RunState {
    RunState(
      LoadServiceContext,
      GraphState(UNSET, UNSET, UNSET, UNSET, [], None, None, None, 0, 0, 0, 0, 0, false),
      world, 0, 0, [], [])
  }

  predicate Terminal(s: RunState) {
    s.node.Finished? || s.node.Raised?
  }

  function Goto(s: RunState, node: Node, graph: GraphState): RunState {
    s.(node := node, graph := graph, steps := s.steps + 1)
  }

  // ---------- The nodes ----------

  function Inspect(s: RunState): RunState {
    var policy := s.world.current;
    Goto(s, GatherEvidence, s.graph.(originalPolicy := policy, currentPolicy := policy, lastKnownGood := policy))
  }

  function Generate(s: RunState): RunState {
    match ObservedOnlyPolicy(s.graph.originalPolicy, s.graph.observedEvents)
    case Err(reason) => Goto(s, Raised(ReductionFailed(reason)), s.graph)
    case Ok(candidate) =>
      Goto(s, ValidateCandidate,
           s.graph.(candidatePolicy := candidate, reductionsAttempted := s.graph.reductionsAttempted + 1))
  }

  /** Every candidate permission, read as an event, is one the original policy authorizes. */
  predicate CandidateAllowed(original: Policy, candidate: Policy) {
    forall q :: q in candidate.permissions ==> IsAuthorized(original, AsEvent(q))
  }

  function Validate(s: RunState): RunState {
    if CandidateAllowed(s.graph.originalPolicy, s.graph.candidatePolicy) then Goto(s, ApplyCandidate, s.graph)
    else Goto(s, Raised(CapabilityAbsentFromOriginal), s.graph)
  }

  function Apply(s: RunState): RunState {
    var candidate := s.graph.candidatePolicy;
    Goto(s, Verify, s.graph.(currentPolicy := candidate))
      .(world := s.world.(current := candidate), applied := s.applied + [candidate])
  }

  function RouteVerification(maxRepairs: nat, g: GraphState): Node {
    if g.verification.Some? && g.verification.value.passed then CheckMoreReductions
    else if g.failureType == Some(Rbac) && g.retryCount < maxRepairs then DiagnoseFailure
    else RestoreLastKnownGood
  }

  function VerifyCandidate(maxRepairs: nat, s: RunState, a: Answer): RunState {
    var failure := if a.result.passed then None else Some(a.failure);
    var failureType :=
      if failure.None? then None else if a.failure.authorizationDenial then Some(Rbac) else Some(Unrelated);
    var g := s.graph.(verification := Some(a.result), failure := failure, failureType := failureType);
    Goto(s, RouteVerification(maxRepairs, g), g).(verifications := s.verifications + 1)
  }

  /** `VerifierAgent.repair`: only an authorization denial that names events is repairable. */
  function AgentRepair(candidate: Policy, failure: FailureDescription, original: Policy): Result<Policy, ReduceError> {
    if !failure.authorizationDenial || failure.missingEvents == [] then Err(NotRepairable)
    else RepairPolicy(candidate, failure.missingEvents, original)
  }

  function GiveUp(s: RunState): RunState {
    Goto(s, RestoreLastKnownGood, s.graph.(failureType := Some(Unrecoverable)))
  }

  function RepairNode(s: RunState): RunState
    requires s.graph.failure.Some?
  {
    var g := s.graph;
    match AgentRepair(g.candidatePolicy, g.failure.value, g.originalPolicy)
    case Err(_) => GiveUp(s)
    case Ok(repaired) =>
      var additions := |repaired.permissions| - |g.candidatePolicy.permissions|;
      if additions <= 0 then GiveUp(s)
      else
        Goto(s, ValidateCandidate,
             g.(candidatePolicy := repaired, retryCount := g.retryCount + 1,
                incorrectRemovals := g.incorrectRemovals + additions))
          .(repaired := s.repaired + g.failure.value.missingEvents)
  }

  function Restore(s: RunState): RunState {
    Goto(s, HumanReview,
         s.graph.(currentPolicy := s.graph.lastKnownGood, accepted := false,
                  reductionsRejected := s.graph.reductionsRejected + 1))
      .(world := s.world.(current := s.world.original))
  }

  // ---------- The graph ----------

  /** The retry guard holds wherever a repair is about to happen. */
  predicate Budgeted(maxRepairs: nat, s: RunState) {
    && s.graph.retryCount <= maxRepairs
    && (s.node.DiagnoseFailure? || s.node.RepairCandidate? ==>
          s.graph.retryCount < maxRepairs && s.graph.failure.Some? && s.graph.failureType == Some(Rbac))
  }

  /** Distance to the end along the edges, not counting the repair loop. */
  function Remaining(node: Node): nat {
    match node
    case LoadServiceContext => 15 case InspectRbac => 14 case GatherEvidence => 13 case GenerateCandidate => 12
    case ValidateCandidate => 11 case ApplyCandidate => 10 case Verify => 9
    case DiagnoseFailure => 8 case RepairCandidate => 7 case RestoreLastKnownGood => 6 case HumanReview => 5
    case CheckMoreReductions => 4 case FinalVerify => 3 case FinalizeWorkload => 2 case PublishResultEvent => 1
    case Finished => 0 case Raised(_) => 0
  }

  function Step(maxRepairs: nat, s: RunState, a: Answer): (r: RunState)
    requires !Terminal(s) && Budgeted(maxRepairs, s)
    ensures Budgeted(maxRepairs, r)
    ensures maxRepairs - r.graph.retryCount < maxRepairs - s.graph.retryCount
         || (r.graph.retryCount == s.graph.retryCount && Remaining(r.node) < Remaining(s.node))
  {
    match s.node
    case LoadServiceContext => Goto(s, InspectRbac, s.graph)
    case InspectRbac => Inspect(s)
    case GatherEvidence => Goto(s, GenerateCandidate, s.graph.(observedEvents := s.world.observed))
    case GenerateCandidate => Generate(s)
    case ValidateCandidate => Validate(s)
    case ApplyCandidate => Apply(s)
    case Verify => VerifyCandidate(maxRepairs, s, a)
    case CheckMoreReductions => Goto(s, FinalVerify, s.graph)
    case FinalVerify => Goto(s, FinalizeWorkload, s.graph.(accepted := true, failureType := None))
    case DiagnoseFailure => Goto(s, RepairCandidate, s.graph)
    case RepairCandidate => RepairNode(s)
    case RestoreLastKnownGood => Restore(s)
    case HumanReview => Goto(s, FinalizeWorkload, s.graph)
    case FinalizeWorkload =>
      Goto(s, PublishResultEvent, s.graph.(reductionsAccepted := if s.graph.accepted then 1 else 0))
    case PublishResultEvent => Goto(s, Finished, s.graph)
  }

  /** The graph run to its end: it always ends, repair budget first, then position. */
  function Run(maxRepairs: nat, env: Environment, s: RunState): RunState
    requires Budgeted(maxRepairs, s)
    decreases maxRepairs - s.graph.retryCount, Remaining(s.node)
  {
    if Terminal(s) then s else Run(maxRepairs, env, Step(maxRepairs, s, env(s)))
  }

  /** The state `n` nodes on, or the last one if the run is over by then. */
  function After(maxRepairs: nat, env: Environment, s: RunState, n: nat): (r: RunState)
    requires Budgeted(maxRepairs, s)
    ensures Budgeted(maxRepairs, r)
    decreases n
  {
    if n == 0 || Terminal(s) then s else After(maxRepairs, env, Step(maxRepairs, s, env(s)), n - 1)
  }

  function Execute(maxRepairs: nat, env: Environment, world: World): RunState {
    Run(maxRepairs, env, Initial(world))
  }

  // ---------- The declared edges ----------

  predicate Edge(from: Node, to: Node) {
    match from
    case LoadServiceContext => to.InspectRbac?
    case InspectRbac => to.GatherEvidence?
    case GatherEvidence => to.GenerateCandidate?
    case GenerateCandidate => to.ValidateCandidate?
    case ValidateCandidate => to.ApplyCandidate?
    case ApplyCandidate => to.Verify?
    case Verify => to.CheckMoreReductions? || to.DiagnoseFailure? || to.RestoreLastKnownGood?
    case CheckMoreReductions => to.FinalVerify?
    case FinalVerify => to.FinalizeWorkload?
    case DiagnoseFailure => to.RepairCandidate?
    case RepairCandidate => to.ValidateCandidate? || to.RestoreLastKnownGood?
    case RestoreLastKnownGood => to.HumanReview?
    case HumanReview => to.FinalizeWorkload?
    case FinalizeWorkload => to.PublishResultEvent?
    case PublishResultEvent => to.Finished?
    case _ => false
  }

  /** A node is left along a declared edge, or by the two nodes that can raise; and where
      there is a choice, the routers decide it. */
  lemma StepFollowsEdges(maxRepairs: nat, s: RunState, a: Answer)
    requires !Terminal(s) && Budgeted(maxRepairs, s)
    ensures var r := Step(maxRepairs, s, a);
      && r.steps == s.steps + 1
      && (Edge(s.node, r.node) || r.node.Raised?)
      && (r.node.Raised? ==> s.node.GenerateCandidate? || s.node.ValidateCandidate?)
      && (s.node.Verify? ==>
            && (r.node.CheckMoreReductions? <==> a.result.passed)
            && (r.node.DiagnoseFailure? <==>
                  !a.result.passed && a.failure.authorizationDenial && s.graph.retryCount < maxRepairs))
      && (s.node.RepairCandidate? ==>
            (r.node.RestoreLastKnownGood? <==> r.graph.failureType == Some(Unrecoverable)))
  {
    hide ObservedOnlyPolicy, AgentRepair, CandidateAllowed;
  }

  /** What `run` reports: the verified candidate if accepted, the original otherwise. */
  function FinalPolicy(s: RunState): Policy {
    if s.graph.accepted then s.graph.currentPolicy else s.graph.originalPolicy
  }
}

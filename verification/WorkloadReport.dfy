/** What a run of the workload graph reports besides its policy: the verification it last saw
    and its three counters. */
module WorkloadReport {
  import opened Ordering
  import opened Models
  import opened Minimizer
  import opened Workload
  import opened WorkloadSafety

  predicate HasRejected(s: RunState) {
    Rejecting(s) && !s.node.RestoreLastKnownGood?
  }

  ghost predicate ReportInv(s: RunState) {
    && s.graph.reductionsAttempted == (if HasCandidate(s.node) then 1 else 0)
    && s.graph.reductionsRejected == (if HasRejected(s) then 1 else 0)
    && s.graph.reductionsAccepted
      == (if (s.node.PublishResultEvent? || s.node.Finished?) && s.graph.accepted then 1 else 0)
    && (s.graph.accepted ==> s.node.FinalizeWorkload? || s.node.PublishResultEvent? || s.node.Finished?)
    && (Offset(s.node) >= 7 && !s.node.Raised? ==>
          s.graph.verification.Some? && (s.graph.verification.value.passed <==> PassedAt(s)))
  }

  /** On the way to acceptance. */
  predicate PassedAt(s: RunState) {
    s.node.CheckMoreReductions? || s.node.FinalVerify? || s.graph.accepted
  }

  lemma ReportStep(maxRepairs: nat, s: RunState, a: Answer)
    requires !Terminal(s) && Budgeted(maxRepairs, s) && ReportInv(s)
    requires s.node.ValidateCandidate? ==> CandidateAllowed(s.graph.originalPolicy, s.graph.candidatePolicy)
    ensures ReportInv(Step(maxRepairs, s, a))
  {
    hide ObservedOnlyPolicy, AgentRepair, CandidateAllowed;
  }

  /** What the environment said at the latest verification within `n` more nodes. */
  function LatestAnswer(maxRepairs: nat, env: Environment, s: RunState, n: nat, before: Option<Answer>): Option<Answer>
    requires Budgeted(maxRepairs, s)
    decreases n
  {
    if n == 0 || Terminal(s) then before
    else
      LatestAnswer(maxRepairs, env, Step(maxRepairs, s, env(s)), n - 1, if s.node.Verify? then Some(env(s)) else before)
  }

  /** The state's verification and diagnosis are those of this answer. */
  predicate Recalls(g: GraphState, answer: Option<Answer>) {
    match answer
    case None => g.verification.None? && g.failure.None?
    case Some(a) =>
      g.verification == Some(a.result) && g.failure == if a.result.passed then None else Some(a.failure)
  }

  lemma RecallsStep(maxRepairs: nat, s: RunState, a: Answer, before: Option<Answer>)
    requires !Terminal(s) && Budgeted(maxRepairs, s) && Recalls(s.graph, before)
    ensures Recalls(Step(maxRepairs, s, a).graph, if s.node.Verify? then Some(a) else before)
  {
    hide ObservedOnlyPolicy, AgentRepair, CandidateAllowed;
  }

  lemma {:induction false} RecallsAfter(maxRepairs: nat, env: Environment, s: RunState, n: nat, before: Option<Answer>)
    requires Budgeted(maxRepairs, s) && Recalls(s.graph, before)
    ensures Recalls(After(maxRepairs, env, s, n).graph, LatestAnswer(maxRepairs, env, s, n, before))
    decreases n
  {
    hide Step, Recalls;
    if n == 0 || Terminal(s) {
    } else {
      RecallsStep(maxRepairs, s, env(s), before);
      RecallsAfter(maxRepairs, env, Step(maxRepairs, s, env(s)), n - 1,
          if s.node.Verify? then Some(env(s)) else before);
    }
  }

  lemma {:induction false} ReportAfter(maxRepairs: nat, env: Environment, w: World, s: RunState, n: nat)
    requires Inv(maxRepairs, w, s) && ReportInv(s) && Budgeted(maxRepairs, s)
    ensures ReportInv(After(maxRepairs, env, s, n))
    decreases n
  {
    hide Inv, ReportInv, Step, Budgeted, CandidateAllowed;
    if n == 0 || Terminal(s) {
    } else {
      assert s.node.ValidateCandidate? ==> CandidateAllowed(s.graph.originalPolicy, s.graph.candidatePolicy) by {
        Validates(maxRepairs, w, s);
      }
      StepInv(maxRepairs, w, s, env(s));
      ReportStep(maxRepairs, s, env(s));
      InvBudgeted(maxRepairs, w, Step(maxRepairs, s, env(s)));
      ReportAfter(maxRepairs, env, w, Step(maxRepairs, s, env(s)), n - 1);
    }
  }

  lemma Validates(maxRepairs: nat, w: World, s: RunState)
    requires Inv(maxRepairs, w, s)
    ensures s.node.ValidateCandidate? ==> CandidateAllowed(s.graph.originalPolicy, s.graph.candidatePolicy)
  {
    if s.node.ValidateCandidate? {
      CandidatePasses(w, s);
    }
  }

  /** A returning run reports one attempted reduction, accepted or rejected; the answer to
      its last verification, which passed exactly if the run was accepted; and in every state
      on the way the verification and the diagnosis are those of the latest answer. */
  lemma RunReports(maxRepairs: nat, env: Environment, w: World, n: nat)
    ensures var s := Execute(maxRepairs, env, w);
      s.node.Finished? ==>
        && s.graph.reductionsAttempted == 1
        && s.graph.reductionsAccepted == (if s.graph.accepted then 1 else 0)
        && s.graph.reductionsRejected == (if s.graph.accepted then 0 else 1)
        && s.graph.verification.Some? && (s.graph.verification.value.passed <==> s.graph.accepted)
    ensures var s := After(maxRepairs, env, Initial(w), n);
      match LatestAnswer(maxRepairs, env, Initial(w), n, None)
      case None => s.graph.verification == None && s.graph.failure == None
      case Some(a) =>
        s.graph.verification == Some(a.result) && s.graph.failure == if a.result.passed then None else Some(a.failure)
  {
    var s := Execute(maxRepairs, env, w);
    InitialInv(maxRepairs, w);
    assert ReportInv(Initial(w));
    hide Inv, Run, Step;
    RunIsAfter(maxRepairs, env, Initial(w));
    ReportAfter(maxRepairs, env, w, Initial(w), s.steps - Initial(w).steps);
    RecallsAfter(maxRepairs, env, Initial(w), n, None);
  }
}

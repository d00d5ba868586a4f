/** What the workload graph achieves when verification is truthful: least privilege,
    convergence under partial denial reports. */
module WorkloadConvergence {
  import opened Ordering
  import opened Models
  import opened Authorization
  import opened Minimizer
  import opened Workload
  import opened WorkloadSafety

  /** Verification passes exactly when everything required is authorized; a failure names
      at least one required call that is truly denied, and nothing else. It may name one of
      many, as a fail-fast live workload does. */
  ghost predicate TruthfulAnswer(required: seq<KubeEvent>, current: Policy, a: Answer) {
    && (a.result.passed <==> AllGranted(current.permissions, required))
    && (!a.result.passed ==> TruthfulFailure(required, current, a.failure))
  }

  ghost predicate TruthfulFailure(required: seq<KubeEvent>, current: Policy, f: FailureDescription) {
    && f.authorizationDenial
    && f.missingEvents != []
    && forall e :: e in f.missingEvents ==> e in required && !Grants(current.permissions, e)
  }

  ghost predicate Truthful(env: Environment, required: seq<KubeEvent>) {
    forall s: RunState :: TruthfulAnswer(required, s.world.current, env(s))
  }

  // ---------- Least privilege ----------

  ghost predicate TruthInv(required: seq<KubeEvent>, s: RunState) {
    && (forall e :: e in s.repaired ==> e in required)
    && (s.node.DiagnoseFailure? || s.node.RepairCandidate? ==>
          s.graph.failure.Some? && TruthfulFailure(required, s.graph.candidatePolicy, s.graph.failure.value))
    && (s.node.CheckMoreReductions? || s.node.FinalVerify? || s.graph.accepted ==>
          AllGranted(s.graph.candidatePolicy.permissions, required))
  }

  lemma TruthVerify(maxRepairs: nat, w: World, required: seq<KubeEvent>, s: RunState, a: Answer)
    requires s.node.Verify? && Inv(maxRepairs, w, s) && TruthInv(required, s)
    requires TruthfulAnswer(required, s.world.current, a)
    ensures TruthInv(required, VerifyCandidate(maxRepairs, s, a))
  {
    hide AllGranted, Grants, PoliciesInv, AppliedInv, Counted, Reducible;
  }

  lemma TruthElsewhere(maxRepairs: nat, w: World, required: seq<KubeEvent>, s: RunState, a: Answer)
    requires !Terminal(s) && !s.node.Verify? && Inv(maxRepairs, w, s) && TruthInv(required, s)
    requires Budgeted(maxRepairs, s)
    ensures TruthInv(required, Step(maxRepairs, s, a))
  {
    hide ObservedOnlyPolicy, RepairPolicy, CandidateAllowed, AllGranted, Grants, PoliciesInv, AppliedInv, Counted;
  }

  lemma TruthStep(maxRepairs: nat, w: World, required: seq<KubeEvent>, s: RunState, a: Answer)
    requires !Terminal(s) && Inv(maxRepairs, w, s) && TruthInv(required, s)
    requires TruthfulAnswer(required, s.world.current, a)
    ensures TruthInv(required, Step(maxRepairs, s, a))
  {
    hide Inv, TruthInv, TruthfulAnswer, VerifyCandidate;
    InvBudgeted(maxRepairs, w, s);
    if s.node.Verify? {
      TruthVerify(maxRepairs, w, required, s, a);
    } else {
      hide Step;
      TruthElsewhere(maxRepairs, w, required, s, a);
    }
  }

  lemma {:induction false} TruthRun(maxRepairs: nat, env: Environment, w: World, required: seq<KubeEvent>, s: RunState)
    requires Truthful(env, required) && Inv(maxRepairs, w, s) && TruthInv(required, s)
    ensures TruthInv(required, Run(maxRepairs, env, s))
    decreases maxRepairs - s.graph.retryCount, Remaining(s.node)
  {
    if Terminal(s) {
    } else {
      assert TruthfulAnswer(required, s.world.current, env(s));
      StepInv(maxRepairs, w, s, env(s));
      TruthStep(maxRepairs, w, required, s, env(s));
      TruthRun(maxRepairs, env, w, required, Step(maxRepairs, s, env(s)));
    }
  }

  lemma ExecuteTruth(maxRepairs: nat, env: Environment, w: World, required: seq<KubeEvent>)
    requires Truthful(env, required)
    ensures TruthInv(required, Execute(maxRepairs, env, w))
  {
    InitialInv(maxRepairs, w);
    TruthRun(maxRepairs, env, w, required, Initial(w));
  }

  lemma GrantedSubset(ps: seq<Permission>, some: seq<KubeEvent>, all: seq<KubeEvent>)
    requires AllGranted(ps, all) && forall e :: e in some ==> e in all
    ensures AllGranted(ps, some)
  {
  }

  /** End-to-end least privilege: an accepted run ends with a policy that authorizes every
      observed and every required call, and that every policy authorizing all of them covers. */
  lemma AcceptedIsLeastPrivilege(maxRepairs: nat, env: Environment, w: World, required: seq<KubeEvent>)
    requires Truthful(env, required)
    ensures var s := Execute(maxRepairs, env, w);
      s.graph.accepted ==>
        && AllGranted(FinalPolicy(s).permissions, w.observed + required)
        && forall ps :: AllGranted(ps, w.observed + required) <==> Covers(ps, FinalPolicy(s).permissions)
  {
    hide Execute, ObservedOnlyPolicy, AllGranted, Covers, CandidateInv, Reducible, AppliedInv, Counted, Truthful;
    ExecuteInv(maxRepairs, env, w);
    InitialInv(maxRepairs, w);
    ExecuteTruth(maxRepairs, env, w, required);
    var s := Execute(maxRepairs, env, w);
    if s.graph.accepted {
      assert FinalPolicy(s) == s.graph.candidatePolicy;
      LeastOfAll(w, s, required);
    }
  }

  lemma LeastOfAll(w: World, s: RunState, required: seq<KubeEvent>)
    requires CandidateInv(w, s) && AllGranted(s.graph.candidatePolicy.permissions, required)
    requires forall e :: e in s.repaired ==> e in required
    ensures var c := s.graph.candidatePolicy.permissions;
      && AllGranted(c, w.observed + required)
      && forall ps :: AllGranted(ps, w.observed + required) <==> Covers(ps, c)
  {
    var c := s.graph.candidatePolicy.permissions;
    var needs, all := w.observed + s.repaired, w.observed + required;
    LeastPolicy(c, needs, c);
    GrantedSubset(c, w.observed, needs);
    AllGrantedConcat(c, w.observed, required);
    forall ps ensures AllGranted(ps, all) <==> Covers(ps, c) {
      LeastPolicy(c, needs, ps);
      if AllGranted(ps, all) {
        GrantedSubset(ps, needs, all);
      }
      if Covers(ps, c) {
        CoveredGrants(ps, c, all);
      }
    }
  }

  lemma CoveredGrants(ps: seq<Permission>, c: seq<Permission>, events: seq<KubeEvent>)
    requires Covers(ps, c) && AllGranted(c, events)
    ensures AllGranted(ps, events)
  {
  }

  // ---------- Segments of a run ----------

  lemma FinishAccepted(maxRepairs: nat, env: Environment, s: RunState)
    requires s.node.CheckMoreReductions? && Budgeted(maxRepairs, s)
    ensures var r := Run(maxRepairs, env, s);
      r.node.Finished? && r.graph.accepted && r.graph.retryCount == s.graph.retryCount
  {
    var s1 := Step(maxRepairs, s, env(s));
    var s2 := Step(maxRepairs, s1, env(s1));
    var s3 := Step(maxRepairs, s2, env(s2));
    var s4 := Step(maxRepairs, s3, env(s3));
    assert Run(maxRepairs, env, s3) == Run(maxRepairs, env, s4) == s4;
    assert Run(maxRepairs, env, s1) == Run(maxRepairs, env, s2) == s4;
  }

  lemma FinishRejected(maxRepairs: nat, env: Environment, s: RunState)
    requires s.node.RestoreLastKnownGood? && Budgeted(maxRepairs, s)
    ensures var r := Run(maxRepairs, env, s);
      r.node.Finished? && !r.graph.accepted && r.graph.retryCount == s.graph.retryCount
  {
    var s1 := Step(maxRepairs, s, env(s));
    var s2 := Step(maxRepairs, s1, env(s1));
    var s3 := Step(maxRepairs, s2, env(s2));
    var s4 := Step(maxRepairs, s3, env(s3));
    assert Run(maxRepairs, env, s3) == Run(maxRepairs, env, s4) == s4;
    assert Run(maxRepairs, env, s1) == Run(maxRepairs, env, s2) == s4;
  }

  /** From validation to the next verification. */
  function ToVerify(s: RunState): RunState {
    Apply(Validate(s))
  }

  lemma ReachVerify(maxRepairs: nat, env: Environment, w: World, s: RunState)
    requires s.node.ValidateCandidate? && Inv(maxRepairs, w, s)
    ensures var v := ToVerify(s);
      && v.node.Verify? && Inv(maxRepairs, w, v)
      && Run(maxRepairs, env, s) == Run(maxRepairs, env, v)
      && v.graph.candidatePolicy == s.graph.candidatePolicy == v.world.current
      && v.graph.retryCount == s.graph.retryCount
  {
    CandidatePasses(w, s);
    hide CandidateAllowed, Inv, PoliciesInv;
    var s1 := Step(maxRepairs, s, env(s));
    StepInv(maxRepairs, w, s, env(s));
    var s2 := Step(maxRepairs, s1, env(s1));
    StepInv(maxRepairs, w, s1, env(s1));
    assert Run(maxRepairs, env, s) == Run(maxRepairs, env, s1) == Run(maxRepairs, env, s2);
  }

  /** The state at the first verification. */
  function FirstVerify(w: World): RunState {
    ToVerify(Generate(Goto(Inspect(Goto(Initial(w), InspectRbac, Initial(w).graph)), GenerateCandidate,
                           Inspect(Goto(Initial(w), InspectRbac,
                               Initial(w).graph)).graph.(observedEvents := w.observed))))
  }

  lemma ReachFirstVerify(maxRepairs: nat, env: Environment, w: World)
    requires Reducible(w)
    ensures var v := FirstVerify(w);
      && v.node.Verify? && Inv(maxRepairs, w, v)
      && Execute(maxRepairs, env, w) == Run(maxRepairs, env, v)
      && v.graph.candidatePolicy == FirstCandidate(w) == v.world.current
      && v.graph.retryCount == 0
  {
    var s0 := Initial(w);
    InitialInv(maxRepairs, w);
    ObservedOnlyIsLeast(w.current, w.observed);
    hide Inv, ObservedOnlyPolicy, Validate, Apply;
    var s1 := Step(maxRepairs, s0, env(s0));
    StepInv(maxRepairs, w, s0, env(s0));
    var s2 := Step(maxRepairs, s1, env(s1));
    StepInv(maxRepairs, w, s1, env(s1));
    var s3 := Step(maxRepairs, s2, env(s2));
    StepInv(maxRepairs, w, s2, env(s2));
    var s4 := Step(maxRepairs, s3, env(s3));
    StepInv(maxRepairs, w, s3, env(s3));
    assert Run(maxRepairs, env, s0) == Run(maxRepairs, env, s1) == Run(maxRepairs, env, s2);
    assert Run(maxRepairs, env, s2) == Run(maxRepairs, env, s3) == Run(maxRepairs, env, s4);
    ReachVerify(maxRepairs, env, w, s4);
    assert ToVerify(s4) == FirstVerify(w);
  }

  // ---------- Convergence ----------

  /** The permission keys required calls still lack under `c`. */
  ghost function Missing(required: seq<KubeEvent>, c: Policy): set<PermKey> {
    set e | e in required && !Grants(c.permissions, e) :: Key(Narrowest(e))
  }

  lemma MissingEmpty(required: seq<KubeEvent>, c: Policy)
    ensures Missing(required, c) == {} <==> AllGranted(c.permissions, required)
  {
    if e :| e in required && !Grants(c.permissions, e) {
      assert Key(Narrowest(e)) in Missing(required, c);
    }
  }

  lemma KeyGrants(ps: seq<Permission>, e: KubeEvent)
    requires Key(Narrowest(e)) in KeySet(ps)
    ensures Grants(ps, e)
  {
  }

  /** Repairing any truly denied call strictly shrinks what is missing. */
  lemma MissingShrinks(required: seq<KubeEvent>, before: Policy, after: Policy, e: KubeEvent)
    requires KeySet(before.permissions) <= KeySet(after.permissions)
    requires e in required && !Grants(before.permissions, e) && Key(Narrowest(e)) in KeySet(after.permissions)
    ensures |Missing(required, after)| < |Missing(required, before)|
  {
    var k := Key(Narrowest(e));
    assert k in Missing(required, before);
    forall k' | k' in Missing(required, after) ensures k' in Missing(required, before) && k' != k {
      var e' :| e' in required && !Grants(after.permissions, e') && Key(Narrowest(e')) == k';
      if Grants(before.permissions, e') {
        GrantsByKeys(before.permissions, after.permissions, e');
      }
      if k' == k {
        KeyGrants(after.permissions, e');
      }
    }
    assert Missing(required, after) <= Missing(required, before) - {k};
    SubsetSize(Missing(required, after), Missing(required, before) - {k});
  }

  /** One round of diagnosis and repair, when everything reported may be restored. */
  lemma RepairRound(maxRepairs: nat, env: Environment, w: World, required: seq<KubeEvent>, s: RunState)
    requires s.node.DiagnoseFailure? && Inv(maxRepairs, w, s)
    requires TruthfulFailure(required, s.graph.candidatePolicy, s.graph.failure.value)
    requires AllGranted(w.current.permissions, s.graph.failure.value.missingEvents)
    requires AllSupported(s.graph.failure.value.missingEvents)
    ensures var missing := s.graph.failure.value.missingEvents;
      var c' := RepairNode(Goto(s, RepairCandidate, s.graph)).graph.candidatePolicy;
      var v := ToVerify(RepairNode(Goto(s, RepairCandidate, s.graph)));
      && v.node.Verify? && Inv(maxRepairs, w, v)
      && Run(maxRepairs, env, s) == Run(maxRepairs, env, v)
      && v.graph.candidatePolicy == c' == v.world.current
      && v.graph.retryCount == s.graph.retryCount + 1
      && KeySet(c'.permissions) == KeySet(s.graph.candidatePolicy.permissions) + Needed(missing)
  {
    hide AllGranted, AllSupported, Needed, KeySet, CandidateInv, InForce, AppliedInv, TruthfulFailure, RepairNode;
    hide Validate, Apply;
    StepInv(maxRepairs, w, s, env(s));
    var s1 := Step(maxRepairs, s, env(s));
    StepInv(maxRepairs, w, s1, env(s1));
    var s2 := Step(maxRepairs, s1, env(s1));
    RepairSucceeds(w, s1, required);
    assert Run(maxRepairs, env, s) == Run(maxRepairs, env, s1) == Run(maxRepairs, env, s2);
    ReachVerify(maxRepairs, env, w, s2);
  }

  /** The `additions <= 0` exit is never taken on a truthful report. */
  lemma RepairSucceeds(w: World, s: RunState, required: seq<KubeEvent>)
    requires s.node.RepairCandidate? && PoliciesInv(w, s) && s.graph.failure.Some?
    requires TruthfulFailure(required, s.graph.candidatePolicy, s.graph.failure.value)
    requires AllGranted(w.current.permissions, s.graph.failure.value.missingEvents)
    requires AllSupported(s.graph.failure.value.missingEvents)
    ensures var r := RepairNode(s);
      && r.node.ValidateCandidate? && r.graph.retryCount == s.graph.retryCount + 1
      && KeySet(r.graph.candidatePolicy.permissions)
          == KeySet(s.graph.candidatePolicy.permissions) + Needed(s.graph.failure.value.missingEvents)
  {
    hide AllGranted, AllSupported, Needed, KeySet, Normal, Grants, AgentRepair, ObservedOnlyPolicy;
    AgentRepairs(s.graph.candidatePolicy, s.graph.failure.value, w.current, required);
  }

  lemma AgentRepairs(c: Policy, f: FailureDescription, original: Policy, required: seq<KubeEvent>)
    requires TruthfulFailure(required, c, f) && Normal(c.permissions)
    requires AllGranted(original.permissions, f.missingEvents) && AllSupported(f.missingEvents)
    ensures AgentRepair(c, f, original).Ok?
    ensures var repaired := AgentRepair(c, f, original).value;
      && |c.permissions| < |repaired.permissions|
      && KeySet(repaired.permissions) == KeySet(c.permissions) + Needed(f.missingEvents)
  {
    hide RepairPolicy;
    RepairAddsOnlyNeeded(c, f.missingEvents, original);
    NewKey(c, f.missingEvents, RepairPolicy(c, f.missingEvents, original).value);
  }

  lemma NewKey(c: Policy, missing: seq<KubeEvent>, repaired: Policy)
    requires missing != [] && !Grants(c.permissions, missing[0])
    requires Normal(c.permissions) && Normal(repaired.permissions)
    requires KeySet(repaired.permissions) == KeySet(c.permissions) + Needed(missing)
    ensures |c.permissions| < |repaired.permissions|
  {
    NormalCount(c.permissions);
    NormalCount(repaired.permissions);
    var k := Key(Narrowest(missing[0]));
    KeyIsNeeded(missing[0], missing);
    if k in KeySet(c.permissions) {
      KeyGrants(c.permissions, missing[0]);
    }
    SubsetSize(KeySet(c.permissions) + {k}, KeySet(repaired.permissions));
  }

  lemma {:induction false} ConvergeFrom(maxRepairs: nat, env: Environment, w: World, required: seq<KubeEvent>,
      s: RunState)
    requires Truthful(env, required) && s.node.Verify? && Inv(maxRepairs, w, s)
    requires s.world.current == s.graph.candidatePolicy
    requires AllGranted(w.current.permissions, required) && AllSupported(required)
    requires s.graph.retryCount + |Missing(required, s.graph.candidatePolicy)| <= maxRepairs
    ensures var r := Run(maxRepairs, env, s);
      && r.node.Finished? && r.graph.accepted
      && r.graph.retryCount <= s.graph.retryCount + |Missing(required, s.graph.candidatePolicy)|
    decreases |Missing(required, s.graph.candidatePolicy)|
  {
    hide Missing, AllGranted, Inv, RepairNode, ToVerify;
    var c := s.graph.candidatePolicy;
    assert TruthfulAnswer(required, s.world.current, env(s));
    MissingEmpty(required, c);
    var s1 := Step(maxRepairs, s, env(s));
    assert Run(maxRepairs, env, s) == Run(maxRepairs, env, s1);
    if env(s).result.passed {
      FinishAccepted(maxRepairs, env, s1);
    } else {
      StepInv(maxRepairs, w, s, env(s));
      var v := ShrinkingRound(maxRepairs, env, w, required, s1);
      ConvergeFrom(maxRepairs, env, w, required, v);
    }
  }

  lemma ShrinkingRound(maxRepairs: nat, env: Environment, w: World, required: seq<KubeEvent>, s: RunState)
    returns (v: RunState)
    requires s.node.DiagnoseFailure? && Inv(maxRepairs, w, s)
    requires TruthfulFailure(required, s.graph.candidatePolicy, s.graph.failure.value)
    requires AllGranted(w.current.permissions, required) && AllSupported(required)
    ensures v.node.Verify? && Inv(maxRepairs, w, v) && v.world.current == v.graph.candidatePolicy
    ensures Run(maxRepairs, env, s) == Run(maxRepairs, env, v)
    ensures v.graph.retryCount == s.graph.retryCount + 1
    ensures |Missing(required, v.graph.candidatePolicy)| < |Missing(required, s.graph.candidatePolicy)|
  {
    var missing := s.graph.failure.value.missingEvents;
    GrantedSubset(w.current.permissions, missing, required);
    assert AllSupported(missing);
    hide Missing, KeySet, Needed, RepairNode, ToVerify, Inv;
    RepairRound(maxRepairs, env, w, required, s);
    v := ToVerify(RepairNode(Goto(s, RepairCandidate, s.graph)));
    KeyIsNeeded(missing[0], missing);
    MissingShrinks(required, s.graph.candidatePolicy, v.graph.candidatePolicy, missing[0]);
  }

  /** Convergence under partial denial reports: if everything required was originally
      authorized and is supported, then however few true denials each failing verification
      reports, a budget of as many repairs as there are missing permission keys suffices. */
  lemma PartialReportsConverge(maxRepairs: nat, env: Environment, w: World, required: seq<KubeEvent>)
    requires Reducible(w) && Truthful(env, required)
    requires AllGranted(w.current.permissions, required) && AllSupported(required)
    requires |Missing(required, FirstCandidate(w))| <= maxRepairs
    ensures var s := Execute(maxRepairs, env, w);
      && s.node.Finished? && s.graph.accepted
      && s.graph.retryCount <= |Missing(required, FirstCandidate(w))|
  {
    ReachFirstVerify(maxRepairs, env, w);
    ConvergeFrom(maxRepairs, env, w, required, FirstVerify(w));
  }
}

/** What every run of the workload graph keeps, whatever its environment answers. */
module WorkloadSafety {
  import opened Ordering
  import opened Models
  import opened Authorization
  import opened Minimizer
  import opened Workload

  // ---------- Counting nodes and verifications ----------

  function Offset(node: Node): nat {
    match node
    case LoadServiceContext => 0 case InspectRbac => 1 case GatherEvidence => 2 case GenerateCandidate => 3
    case ValidateCandidate => 4 case ApplyCandidate => 5 case Verify => 6
    case DiagnoseFailure => 7 case RepairCandidate => 8
    case CheckMoreReductions => 7 case FinalVerify => 8
    case RestoreLastKnownGood => 7 case HumanReview => 8
    case FinalizeWorkload => 9 case PublishResultEvent => 10 case Finished => 11
    case Raised(_) => 4
  }

  predicate GaveUp(s: RunState) {
    s.graph.failureType == Some(Unrecoverable)
  }

  predicate Rejecting(s: RunState) {
    || s.node.RestoreLastKnownGood? || s.node.HumanReview?
    || ((s.node.FinalizeWorkload? || s.node.PublishResultEvent? || s.node.Finished?) && !s.graph.accepted)
  }

  predicate BeforeVerdict(node: Node) {
    Offset(node) <= 6
  }

  ghost predicate Counted(maxRepairs: nat, s: RunState) {
    && Budgeted(maxRepairs, s)
    && (GaveUp(s) ==> Rejecting(s) && s.graph.retryCount < maxRepairs)
    && (s.node.HumanReview? ==> !s.graph.accepted)
    && s.steps == 5 * s.graph.retryCount + Offset(s.node) + (if GaveUp(s) then 2 else 0)
    && s.verifications == s.graph.retryCount + (if BeforeVerdict(s.node) then 0 else 1)
    && (s.node.Raised? && s.node.error.ReductionFailed? ==> s.graph.retryCount == 0)
    && !(s.node.Raised? && s.node.error.CapabilityAbsentFromOriginal?)
  }

  /** The candidate about to be validated passes. */
  ghost predicate PassesValidation(s: RunState) {
    s.node.ValidateCandidate? ==> CandidateAllowed(s.graph.originalPolicy, s.graph.candidatePolicy)
  }

  lemma CountedForward(maxRepairs: nat, s: RunState, a: Answer)
    requires !Terminal(s) && Counted(maxRepairs, s) && PassesValidation(s) && Offset(s.node) < 6
    requires s.node.GenerateCandidate? ==> s.graph.retryCount == 0
    ensures Counted(maxRepairs, Step(maxRepairs, s, a))
  {
    hide ObservedOnlyPolicy, CandidateAllowed;
  }

  lemma CountedVerify(maxRepairs: nat, s: RunState, a: Answer)
    requires Counted(maxRepairs, s) && s.node.Verify?
    ensures Counted(maxRepairs, VerifyCandidate(maxRepairs, s, a))
  {
  }

  lemma CountedRepair(maxRepairs: nat, s: RunState)
    requires Counted(maxRepairs, s) && s.node.RepairCandidate?
    ensures Counted(maxRepairs, RepairNode(s))
  {
    hide AgentRepair;
  }

  lemma CountedOnward(maxRepairs: nat, s: RunState, a: Answer)
    requires !Terminal(s) && Counted(maxRepairs, s) && Offset(s.node) > 6 && !s.node.RepairCandidate?
    ensures Counted(maxRepairs, Step(maxRepairs, s, a))
  {
  }

  lemma CountedStep(maxRepairs: nat, s: RunState, a: Answer)
    requires !Terminal(s) && Counted(maxRepairs, s) && PassesValidation(s)
    requires s.node.GenerateCandidate? ==> s.graph.retryCount == 0
    ensures Counted(maxRepairs, Step(maxRepairs, s, a))
  {
    hide Counted, PassesValidation, VerifyCandidate, RepairNode;
    if Offset(s.node) < 6 {
      CountedForward(maxRepairs, s, a);
    } else if s.node.Verify? {
      CountedVerify(maxRepairs, s, a);
    } else if s.node.RepairCandidate? {
      CountedRepair(maxRepairs, s);
    } else {
      CountedOnward(maxRepairs, s, a);
    }
  }

  // ---------- Policies ----------

  /** Reduction is possible at all: the policy found in force authorizes the observed calls
      and they are supported. A run calls that policy the original one; the adapter may have
      another to restore, when it was used before. */
  ghost predicate Reducible(w: World) {
    AllGranted(w.current.permissions, w.observed) && AllSupported(w.observed)
  }

  function FirstCandidate(w: World): Policy {
    match ObservedOnlyPolicy(w.current, w.observed)
    case Ok(candidate) => candidate
    case Err(_) => UNSET
  }

  /** The candidate is the least policy for the observed calls and the denials repaired so
      far, all of which the original authorizes; the removal counter is its growth. */
  ghost predicate CandidateInv(w: World, s: RunState) {
    var needs := w.observed + s.repaired;
    var c := s.graph.candidatePolicy;
    && Reducible(w)
    && AllGranted(w.current.permissions, needs) && AllSupported(needs)
    && KeySet(c.permissions) == Needed(needs)
    && Normal(c.permissions)
    && s.graph.incorrectRemovals == |c.permissions| - |FirstCandidate(w).permissions|
    && s.graph.incorrectRemovals >= s.graph.retryCount
  }

  predicate HasOriginal(node: Node) {
    !node.LoadServiceContext? && !node.InspectRbac?
  }

  predicate HasCandidate(node: Node) {
    Offset(node) >= 4 && !node.Raised?
  }

  ghost predicate PoliciesInv(w: World, s: RunState) {
    && s.world.original == w.original && s.world.observed == w.observed
    && (HasOriginal(s.node) ==> s.graph.originalPolicy == w.current && s.graph.lastKnownGood == w.current)
    && (s.node.GenerateCandidate? ==> s.graph.observedEvents == w.observed)
    && (s.node.Raised? ==> !Reducible(w))
    && (HasCandidate(s.node) ==> CandidateInv(w, s))
    && (!HasCandidate(s.node) ==>
          s.graph.retryCount == 0 && s.graph.incorrectRemovals == 0 && s.repaired == [] && s.applied == []
              && !s.graph.accepted)
  }

  lemma NeededOfConcat(xs: seq<KubeEvent>, ys: seq<KubeEvent>)
    ensures Needed(xs + ys) == Needed(xs) + Needed(ys)
  {
  }

  lemma CandidatePasses(w: World, s: RunState)
    requires PoliciesInv(w, s) && HasCandidate(s.node)
    ensures CandidateAllowed(s.graph.originalPolicy, s.graph.candidatePolicy)
  {
    var needs := w.observed + s.repaired;
    var c := s.graph.candidatePolicy;
    forall q | q in c.permissions ensures IsAuthorized(w.current, AsEvent(q)) {
      assert Key(q) in KeySet(c.permissions);
      var e :| e in needs && Key(Narrowest(e)) == Key(q);
      NarrowestPassesCheck(w.current.permissions, e);
      assert AsEvent(q) == AsEvent(Narrowest(e));
      AuthorizeMeaning(w.current, AsEvent(q));
    }
  }

  lemma GenerateStep(w: World, s: RunState)
    requires s.node.GenerateCandidate? && PoliciesInv(w, s)
    ensures PoliciesInv(w, Generate(s))
  {
    ObservedOnlyIsLeast(w.current, w.observed);
    assert w.observed + [] == w.observed;
  }

  lemma AllGrantedConcat(ps: seq<Permission>, xs: seq<KubeEvent>, ys: seq<KubeEvent>)
    requires AllGranted(ps, xs) && AllGranted(ps, ys)
    ensures AllGranted(ps, xs + ys)
  {
  }

  lemma AllSupportedConcat(xs: seq<KubeEvent>, ys: seq<KubeEvent>)
    requires AllSupported(xs) && AllSupported(ys)
    ensures AllSupported(xs + ys)
  {
  }

  /** One repair: still the least policy for what is needed, with strictly more keys. */
  lemma RepairGrows(original: Policy, needs: seq<KubeEvent>, candidate: Policy, missing: seq<KubeEvent>,
      repaired: Policy)
    requires AllGranted(original.permissions, needs) && AllSupported(needs)
    requires KeySet(candidate.permissions) == Needed(needs) && Normal(candidate.permissions)
    requires RepairPolicy(candidate, missing, original) == Ok(repaired)
    ensures AllGranted(original.permissions, needs + missing) && AllSupported(needs + missing)
    ensures KeySet(repaired.permissions) == Needed(needs + missing) && Normal(repaired.permissions)
    ensures KeySet(candidate.permissions) <= KeySet(repaired.permissions)
    ensures |candidate.permissions| < |repaired.permissions| ==>
        KeySet(candidate.permissions) < KeySet(repaired.permissions)
  {
    hide RepairPolicy, AllGranted, AllSupported, Needed, Normal;
    RepairAddsOnlyNeeded(candidate, missing, original);
    NeededOfConcat(needs, missing);
    AllGrantedConcat(original.permissions, needs, missing);
    AllSupportedConcat(needs, missing);
    NormalCount(candidate.permissions);
    NormalCount(repaired.permissions);
    var before, after := KeySet(candidate.permissions), KeySet(repaired.permissions);
    assert after <= before ==> after == before;
  }

  lemma RepairStep(maxRepairs: nat, w: World, s: RunState)
    requires s.node.RepairCandidate? && PoliciesInv(w, s) && Budgeted(maxRepairs, s)
    ensures PoliciesInv(w, RepairNode(s))
    ensures RepairNode(s).node.ValidateCandidate? ==>
      KeySet(s.graph.candidatePolicy.permissions) < KeySet(RepairNode(s).graph.candidatePolicy.permissions)
  {
    hide RepairPolicy, ObservedOnlyPolicy, Grants, AllGranted, AllSupported, Needed, KeySet, Normal;
    var missing := s.graph.failure.value.missingEvents;
    var r := RepairNode(s);
    if r.node.ValidateCandidate? {
      var needs := w.observed + s.repaired;
      assert w.observed + (s.repaired + missing) == needs + missing;
      RepairGrows(w.current, needs, s.graph.candidatePolicy, missing, r.graph.candidatePolicy);
    }
  }

  lemma PoliciesStep(maxRepairs: nat, w: World, s: RunState, a: Answer)
    requires !Terminal(s) && Budgeted(maxRepairs, s) && PoliciesInv(w, s)
    requires s.node.InspectRbac? ==> s.world.current == w.current
    ensures PoliciesInv(w, Step(maxRepairs, s, a))
  {
    hide ObservedOnlyPolicy, RepairPolicy, CandidateAllowed, Grants, AllGranted, AllSupported, Needed, KeySet, Normal;
    if s.node.GenerateCandidate? {
      GenerateStep(w, s);
    } else if s.node.RepairCandidate? {
      RepairStep(maxRepairs, w, s);
    } else if s.node.ValidateCandidate? {
      CandidatePasses(w, s);
    }
  }

  // ---------- What is in force ----------

  /** The policy in force is the last one applied, the one found before the first
      application, and the one the adapter keeps after a restore. */
  ghost predicate InForce(w: World, s: RunState) {
    && (Rejecting(s) && !s.node.RestoreLastKnownGood? ==>
          s.world.current == w.original && s.graph.currentPolicy == w.current && !s.graph.accepted)
    && (!Rejecting(s) ==> s.world.current == if s.applied == [] then w.current else s.applied[|s.applied| - 1])
    && (Offset(s.node) >= 6 ==> s.applied != [] && s.applied[|s.applied| - 1] == s.graph.candidatePolicy)
    && (Offset(s.node) >= 6 && !Rejecting(s) ==> s.graph.currentPolicy == s.graph.candidatePolicy)
    && (s.node.CheckMoreReductions? || s.node.FinalVerify? || s.graph.accepted ==>
          s.graph.verification.Some? && s.graph.verification.value.passed)
    && (s.graph.accepted ==> s.node.FinalizeWorkload? || s.node.PublishResultEvent? || s.node.Finished?)
  }

  lemma InForceBefore(maxRepairs: nat, w: World, s: RunState, a: Answer)
    requires !Terminal(s) && Budgeted(maxRepairs, s) && PoliciesInv(w, s) && InForce(w, s) && Offset(s.node) < 6
    ensures InForce(w, Step(maxRepairs, s, a))
  {
    hide CandidateInv, Reducible, Unauthorized, EventPermissions, Additions;
    hide ObservedOnlyPolicy, RepairPolicy, CandidateAllowed, Grants, AllGranted, AllSupported, Needed, KeySet, Normal;
  }

  lemma InForceRepair(maxRepairs: nat, w: World, s: RunState)
    requires Budgeted(maxRepairs, s) && InForce(w, s) && s.node.RepairCandidate?
    ensures InForce(w, RepairNode(s))
  {
    hide RepairPolicy;
  }

  lemma InForceAfter(maxRepairs: nat, w: World, s: RunState, a: Answer)
    requires !Terminal(s) && Budgeted(maxRepairs, s) && PoliciesInv(w, s) && InForce(w, s)
    requires Offset(s.node) >= 6 && !s.node.RepairCandidate?
    ensures InForce(w, Step(maxRepairs, s, a))
  {
    hide CandidateInv, Reducible, Unauthorized, EventPermissions, Additions;
    hide ObservedOnlyPolicy, RepairPolicy, CandidateAllowed, Grants, AllGranted, AllSupported, Needed, KeySet, Normal;
  }

  lemma InForceStep(maxRepairs: nat, w: World, s: RunState, a: Answer)
    requires !Terminal(s) && Budgeted(maxRepairs, s) && PoliciesInv(w, s) && InForce(w, s)
    ensures InForce(w, Step(maxRepairs, s, a))
  {
    hide InForce, PoliciesInv, RepairNode, VerifyCandidate;
    if s.node.RepairCandidate? {
      InForceRepair(maxRepairs, w, s);
    } else if Offset(s.node) < 6 {
      InForceBefore(maxRepairs, w, s, a);
    } else {
      InForceAfter(maxRepairs, w, s, a);
    }
  }

  // ---------- Everything applied ----------

  /** Candidates only grow: each one applied holds strictly more keys than the one before. */
  ghost predicate Growing(ps: seq<Policy>) {
    forall i, j :: 0 <= i < j < |ps| ==> KeySet(ps[i].permissions) < KeySet(ps[j].permissions)
  }

  ghost predicate AppliedInv(w: World, s: RunState) {
    && (forall c :: c in s.applied ==>
        Covers(w.current.permissions, c.permissions) && AllGranted(c.permissions, w.observed))
    && Growing(s.applied)
    && |s.applied| == s.graph.retryCount + (if Offset(s.node) >= 6 then 1 else 0)
    && (Offset(s.node) < 6 && HasCandidate(s.node) && s.applied != [] ==>
          KeySet(s.applied[|s.applied| - 1].permissions) < KeySet(s.graph.candidatePolicy.permissions))
  }

  lemma CandidateWithinOriginal(w: World, s: RunState)
    requires HasCandidate(s.node) && CandidateInv(w, s)
    ensures Covers(w.current.permissions, s.graph.candidatePolicy.permissions)
    ensures AllGranted(s.graph.candidatePolicy.permissions, w.observed)
  {
    var needs := w.observed + s.repaired;
    var c := s.graph.candidatePolicy.permissions;
    LeastPolicy(c, needs, w.current.permissions);
    assert forall e :: e in w.observed ==> e in needs;
  }

  lemma GrowingExtends(ps: seq<Policy>, p: Policy)
    requires Growing(ps)
    requires ps != [] ==> KeySet(ps[|ps| - 1].permissions) < KeySet(p.permissions)
    ensures Growing(ps + [p])
  {
  }

  lemma ApplyGrows(w: World, s: RunState)
    requires s.node.ApplyCandidate? && PoliciesInv(w, s) && AppliedInv(w, s)
    ensures AppliedInv(w, Apply(s))
  {
    hide Covers, AllGranted, KeySet, CandidateInv;
    CandidateWithinOriginal(w, s);
    GrowingExtends(s.applied, s.graph.candidatePolicy);
    hide Growing;
  }

  lemma AppliedSame(w: World, s: RunState, r: RunState)
    requires AppliedInv(w, s) && r.applied == s.applied && r.graph.retryCount == s.graph.retryCount
    requires (Offset(r.node) >= 6) == (Offset(s.node) >= 6)
    requires Offset(r.node) < 6 && HasCandidate(r.node) && s.applied != [] ==>
      HasCandidate(s.node) && r.graph.candidatePolicy == s.graph.candidatePolicy
    ensures AppliedInv(w, r)
  {
    hide Covers, AllGranted, Growing, KeySet;
  }

  lemma RepairKeepsApplied(s: RunState)
    requires s.node.RepairCandidate? && s.graph.failure.Some?
    ensures var r := RepairNode(s);
      && r.applied == s.applied && (r.node.RestoreLastKnownGood? || r.node.ValidateCandidate?)
      && r.graph.retryCount == s.graph.retryCount + (if r.node.ValidateCandidate? then 1 else 0)
  {
    hide AgentRepair;
  }

  lemma AppliedAfterRepair(w: World, s: RunState, r: RunState)
    requires AppliedInv(w, s) && s.node.RepairCandidate? && r.node.ValidateCandidate? && r.applied == s.applied
    requires r.graph.retryCount == s.graph.retryCount + 1
    requires s.applied != [] && s.applied[|s.applied| - 1] == s.graph.candidatePolicy
    requires KeySet(s.graph.candidatePolicy.permissions) < KeySet(r.graph.candidatePolicy.permissions)
    ensures AppliedInv(w, r)
  {
    hide Covers, AllGranted, Growing, KeySet;
  }

  lemma LastApplied(w: World, s: RunState)
    requires InForce(w, s) && Offset(s.node) >= 6
    ensures s.applied != [] && s.applied[|s.applied| - 1] == s.graph.candidatePolicy
  {
  }

  lemma RepairApplied(w: World, s: RunState)
    requires s.node.RepairCandidate? && s.graph.failure.Some? && AppliedInv(w, s)
    requires s.applied != [] && s.applied[|s.applied| - 1] == s.graph.candidatePolicy
    requires RepairNode(s).node.ValidateCandidate? ==>
      KeySet(s.graph.candidatePolicy.permissions) < KeySet(RepairNode(s).graph.candidatePolicy.permissions)
    ensures AppliedInv(w, RepairNode(s))
  {
    hide AppliedInv, RepairNode, KeySet;
    RepairKeepsApplied(s);
    if RepairNode(s).node.ValidateCandidate? {
      AppliedAfterRepair(w, s, RepairNode(s));
    } else {
      AppliedSame(w, s, RepairNode(s));
    }
  }

  lemma RepairAdvances(maxRepairs: nat, w: World, s: RunState)
    requires s.node.RepairCandidate? && PoliciesInv(w, s) && Budgeted(maxRepairs, s) && InForce(w, s)
        && AppliedInv(w, s)
    ensures AppliedInv(w, RepairNode(s))
  {
    hide PoliciesInv, InForce, AppliedInv, RepairNode, KeySet;
    LastApplied(w, s);
    RepairStep(maxRepairs, w, s);
    RepairApplied(w, s);
  }

  lemma AppliedStep(maxRepairs: nat, w: World, s: RunState, a: Answer)
    requires !Terminal(s) && Budgeted(maxRepairs, s) && PoliciesInv(w, s) && InForce(w, s) && AppliedInv(w, s)
    ensures AppliedInv(w, Step(maxRepairs, s, a))
  {
    hide AppliedInv, PoliciesInv, InForce, RepairNode, Apply;
    if s.node.ApplyCandidate? {
      ApplyGrows(w, s);
    } else if s.node.RepairCandidate? {
      RepairAdvances(maxRepairs, w, s);
    } else {
      hide Step;
      NothingApplied(maxRepairs, w, s, a);
      AppliedSame(w, s, Step(maxRepairs, s, a));
    }
  }

  predicate AppliesNothing(s: RunState, r: RunState) {
    && r.applied == s.applied && r.graph.retryCount == s.graph.retryCount
    && (Offset(r.node) >= 6) == (Offset(s.node) >= 6)
    && (Offset(r.node) < 6 && HasCandidate(r.node) && s.applied != [] ==>
          HasCandidate(s.node) && r.graph.candidatePolicy == s.graph.candidatePolicy)
  }

  lemma NothingApplied(maxRepairs: nat, w: World, s: RunState, a: Answer)
    requires !Terminal(s) && Budgeted(maxRepairs, s) && PoliciesInv(w, s) && !s.node.ApplyCandidate?
        && !s.node.RepairCandidate?
    ensures AppliesNothing(s, Step(maxRepairs, s, a))
  {
    assert !HasCandidate(s.node) ==> s.applied == [];
    hide PoliciesInv, Step, AppliesNothing;
    if Offset(s.node) < 6 {
      BeforeApplying(maxRepairs, s, a);
    } else {
      AfterApplying(maxRepairs, s, a);
    }
  }

  lemma BeforeApplying(maxRepairs: nat, s: RunState, a: Answer)
    requires !Terminal(s) && Budgeted(maxRepairs, s) && Offset(s.node) < 6 && !s.node.ApplyCandidate?
    requires !HasCandidate(s.node) ==> s.applied == []
    ensures AppliesNothing(s, Step(maxRepairs, s, a))
  {
    hide ObservedOnlyPolicy, CandidateAllowed;
  }

  lemma AfterApplying(maxRepairs: nat, s: RunState, a: Answer)
    requires !Terminal(s) && Budgeted(maxRepairs, s) && Offset(s.node) >= 6 && !s.node.RepairCandidate?
    ensures AppliesNothing(s, Step(maxRepairs, s, a))
  {
    hide AgentRepair;
  }

  // ---------- Whole runs ----------

  ghost predicate Inv(maxRepairs: nat, w: World, s: RunState) {
    Counted(maxRepairs, s) && PoliciesInv(w, s) && InForce(w, s) && AppliedInv(w, s)
  }

  lemma InitialInv(maxRepairs: nat, w: World)
    ensures Inv(maxRepairs, w, Initial(w))
  {
  }

  lemma StepInv(maxRepairs: nat, w: World, s: RunState, a: Answer)
    requires !Terminal(s) && Inv(maxRepairs, w, s)
    ensures Inv(maxRepairs, w, Step(maxRepairs, s, a))
  {
    if s.node.ValidateCandidate? {
      CandidatePasses(w, s);
    }
    CountedStep(maxRepairs, s, a);
    PoliciesStep(maxRepairs, w, s, a);
    InForceStep(maxRepairs, w, s, a);
    AppliedStep(maxRepairs, w, s, a);
  }

  lemma {:induction false} RunInv(maxRepairs: nat, env: Environment, w: World, s: RunState)
    requires Inv(maxRepairs, w, s)
    ensures Inv(maxRepairs, w, Run(maxRepairs, env, s)) && Terminal(Run(maxRepairs, env, s))
    decreases maxRepairs - s.graph.retryCount, Remaining(s.node)
  {
    if Terminal(s) {
    } else {
      StepInv(maxRepairs, w, s, env(s));
      RunInv(maxRepairs, env, w, Step(maxRepairs, s, env(s)));
    }
  }

  lemma ExecuteInv(maxRepairs: nat, env: Environment, w: World)
    ensures Inv(maxRepairs, w, Execute(maxRepairs, env, w)) && Terminal(Execute(maxRepairs, env, w))
  {
    InitialInv(maxRepairs, w);
    RunInv(maxRepairs, env, w, Initial(w));
  }

  /** However verification answers, no policy applied authorizes an event the policy found
      in force does not, and none else is left behind but the one the adapter restores;
      validation never raises; and every policy applied authorizes every observed call. */
  lemma RunNeverEscalates(maxRepairs: nat, env: Environment, w: World)
    ensures var s := Execute(maxRepairs, env, w);
      && (forall c :: c in s.applied ==>
          Covers(w.current.permissions, c.permissions) && AllGranted(c.permissions, w.observed))
      && (s.graph.accepted || s.node.Raised? ==> Covers(w.current.permissions, s.world.current.permissions))
      && (!s.graph.accepted && !s.node.Raised? ==> s.world.current == w.original)
      && (s.node.Raised? <==> !Reducible(w))
      && (s.node.Raised? ==> s.node.error.ReductionFailed? && s.applied == [] && s.world.current == w.current)
  {
    ExecuteInv(maxRepairs, env, w);
    var s := Execute(maxRepairs, env, w);
    if s.applied != [] {
      assert s.applied[|s.applied| - 1] in s.applied;
    }
  }

  /** Every run stops within 11 + 5 * maxRepairs nodes and maxRepairs + 1 verifications; the
      counts are exact functions of the number of repairs and of whether it gave up. */
  lemma RunIsBounded(maxRepairs: nat, env: Environment, w: World)
    ensures var s := Execute(maxRepairs, env, w);
      && s.steps <= 11 + 5 * maxRepairs
      && s.verifications <= maxRepairs + 1
      && (s.node.Finished? ==>
            && s.steps == 11 + 5 * s.graph.retryCount + (if GaveUp(s) then 2 else 0)
            && s.verifications == s.graph.retryCount + 1 == |s.applied|
            && (GaveUp(s) ==> !s.graph.accepted && s.graph.retryCount < maxRepairs))
  {
    hide ObservedOnlyPolicy, RepairPolicy, CandidateAllowed, Grants, AllGranted, AllSupported, Needed, KeySet, Normal;
    ExecuteInv(maxRepairs, env, w);
  }

  /** A returning run leaves in force the policy it reports, the last candidate applied and
      verified if accepted and the policy it found otherwise, except that a rejected run on
      an adapter used before restores what the adapter keeps, which may be another. */
  lemma RunCommitsOrRollsBack(maxRepairs: nat, env: Environment, w: World)
    ensures var s := Execute(maxRepairs, env, w);
      s.node.Finished? ==>
        && (s.world.current == FinalPolicy(s) <==> s.graph.accepted || w.current == w.original)
        && s.graph.originalPolicy == w.current
        && (s.graph.accepted ==>
              && s.applied != [] && FinalPolicy(s) == s.applied[|s.applied| - 1]
              && s.graph.verification.Some? && s.graph.verification.value.passed)
        && (!s.graph.accepted ==> FinalPolicy(s) == w.current && s.world.current == w.original)
  {
    hide ObservedOnlyPolicy, RepairPolicy, CandidateAllowed, Grants, AllGranted, AllSupported, Needed, KeySet, Normal;
    ExecuteInv(maxRepairs, env, w);
  }

  lemma InvBudgeted(maxRepairs: nat, w: World, s: RunState)
    requires Inv(maxRepairs, w, s)
    ensures Budgeted(maxRepairs, s)
  {
  }

  lemma {:induction false} AfterInv(maxRepairs: nat, env: Environment, w: World, s: RunState, n: nat)
    requires Inv(maxRepairs, w, s)
    ensures Budgeted(maxRepairs, s)
    ensures Inv(maxRepairs, w, After(maxRepairs, env, s, n))
    decreases n
  {
    hide Inv, Step, Budgeted;
    InvBudgeted(maxRepairs, w, s);
    if n == 0 || Terminal(s) {
    } else {
      StepInv(maxRepairs, w, s, env(s));
      AfterInv(maxRepairs, env, w, Step(maxRepairs, s, env(s)), n - 1);
    }
  }

  /** A run ends after as many nodes as it counts. */
  lemma {:induction false} RunIsAfter(maxRepairs: nat, env: Environment, s: RunState)
    requires Budgeted(maxRepairs, s)
    ensures var r := Run(maxRepairs, env, s); s.steps <= r.steps && After(maxRepairs, env, s, r.steps - s.steps) == r
    decreases maxRepairs - s.graph.retryCount, Remaining(s.node)
  {
    hide Step;
    if Terminal(s) {
    } else {
      StepFollowsEdges(maxRepairs, s, env(s));
      RunIsAfter(maxRepairs, env, Step(maxRepairs, s, env(s)));
    }
  }

  lemma InitialSteps(w: World)
    ensures Initial(w).steps == 0
  {
  }

  /** In every state of a run `incorrect_removals` is exactly how many permissions the
      candidate has beyond the first one, at least one per repair; the candidate holds just
      the keys needed so far; and the candidates applied only grow. */
  lemma RunAccounting(maxRepairs: nat, env: Environment, w: World, n: nat)
    ensures var s := After(maxRepairs, env, Initial(w), n);
      && (!HasCandidate(s.node) ==> s.graph.incorrectRemovals == 0 && s.graph.retryCount == 0 && s.applied == [])
      && (HasCandidate(s.node) ==>
            && s.graph.incorrectRemovals == |s.graph.candidatePolicy.permissions| - |FirstCandidate(w).permissions|
            && s.graph.incorrectRemovals >= s.graph.retryCount
            && KeySet(s.graph.candidatePolicy.permissions) == Needed(w.observed + s.repaired))
      && Growing(s.applied)
      && (Offset(s.node) >= 6 ==> s.applied != [] && s.applied[|s.applied| - 1] == s.graph.candidatePolicy)
    ensures var f := Execute(maxRepairs, env, w); After(maxRepairs, env, Initial(w), f.steps) == f
  {
    hide After, Run, ObservedOnlyPolicy, Needed, KeySet, Growing, AllGranted, AllSupported, Normal, Covers, Initial,
        Counted;
    InitialInv(maxRepairs, w);
    AfterInv(maxRepairs, env, w, Initial(w), n);
    RunIsAfter(maxRepairs, env, Initial(w));
    assert Initial(w).steps == 0 by { InitialSteps(w); }
  }

  /** The check on candidates, for any candidate at all, wildcards included: it lets one
      through exactly when the original grants every wildcard-free event of each of its
      permissions (names on verbs that cannot honour them aside), and what it lets through
      never authorizes anything the original does not. */
  lemma ValidationDecidesCoverage(original: Policy, candidate: Policy)
    ensures CandidateAllowed(original, candidate) <==>
      forall q :: q in candidate.permissions ==> CoversLiteral(original.permissions, Asked(q))
    ensures CandidateAllowed(original, candidate) ==> Covers(original.permissions, candidate.permissions)
  {
    hide Grants, CoversLiteral, CoversPermission, Covers, IsAuthorized, Asked;
    forall q
      ensures IsAuthorized(original, AsEvent(q)) <==> CoversLiteral(original.permissions, Asked(q))
      ensures IsAuthorized(original, AsEvent(q)) ==> CoversPermission(original.permissions, q)
    {
      AuthorizeMeaning(original, AsEvent(q));
      AsEventDecidesCoverage(original.permissions, q);
    }
    CoversEach(original.permissions, candidate.permissions);
  }
}

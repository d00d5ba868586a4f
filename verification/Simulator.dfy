/** The RBAC behaviour simulator, and the workload graph driving it. */
module Simulator {
  import opened Ordering
  import opened Models
  import opened Authorization
  import opened Minimizer
  import opened Workload
  import opened WorkloadSafety
  import opened WorkloadConvergence

  /** A verification test is the calls it makes. */
  type Test = seq<KubeEvent>

  function AllEvents(tests: seq<Test>): seq<KubeEvent> {
    if tests == [] then [] else tests[0] + AllEvents(tests[1..])
  }

  function AllDenied(policy: Policy, tests: seq<Test>): seq<KubeEvent> {
    if tests == [] then [] else Unauthorized(policy, tests[0]) + AllDenied(policy, tests[1..])
  }

  function PassedCount(policy: Policy, tests: seq<Test>): nat {
    if tests == [] then 0
    else (if Unauthorized(policy, tests[0]) == [] then 1 else 0) + PassedCount(policy, tests[1..])
  }

  function Verification(policy: Policy, tests: seq<Test>): VerificationResult {
    VerificationResult(AllDenied(policy, tests) == [], PassedCount(policy, tests), |tests|,
                       FirstSeen(AllDenied(policy, tests)))
  }

  function DescribeFailure(result: VerificationResult): FailureDescription {
    if result.deniedEvents != [] then FailureDescription(result.deniedEvents, true)
    else FailureDescription([], false)
  }

  function SimulatedAnswer(policy: Policy, tests: seq<Test>): Answer {
    Answer(Verification(policy, tests), DescribeFailure(Verification(policy, tests)))
  }

  function Simulated(tests: seq<Test>): Environment {
    (s: RunState) => SimulatedAnswer(s.world.current, tests)
  }

  // ---------- The simulator as an object ----------

  class SimulatorEnvironment {
    const tests: seq<Test>
    const observedEvents: seq<KubeEvent>
    const originalPolicy: Policy
    var currentPolicy: Policy

    constructor (initialPolicy: Policy, observedEvents: seq<KubeEvent>, tests: seq<Test>)
      ensures this.tests == tests && this.observedEvents == observedEvents
      ensures originalPolicy == currentPolicy == initialPolicy
    {
      this.tests := tests;
      this.observedEvents := observedEvents;
      originalPolicy := initialPolicy;
      currentPolicy := initialPolicy;
    }

    function View(): World
      reads this
    {
      World(currentPolicy, originalPolicy, observedEvents)
    }

    method ApplyPolicy(policy: Policy)
      modifies this
      ensures View() == old(View()).(current := policy)
    {
      currentPolicy := policy;
    }

    method RestorePolicy()
      modifies this
      ensures View() == old(View()).(current := old(View()).original)
    {
      currentPolicy := originalPolicy;
    }

    method DeniedIn(test: Test) returns (denials: seq<KubeEvent>)
      ensures denials == Unauthorized(currentPolicy, test)
    {
      denials := [];
      var i := 0;
      assert forall xs: seq<KubeEvent> :: [] + xs == xs;
      while i < |test|
        invariant 0 <= i <= |test|
        invariant denials + Unauthorized(currentPolicy, test[i..]) == Unauthorized(currentPolicy, test)
      {
        assert test[i..][1..] == test[i + 1..];
        if !IsAuthorized(currentPolicy, test[i]) {
          denials := denials + [test[i]];
        }
        i := i + 1;
      }
    }

    /** Runs every test even after a failure, so all denials are reported, each once. */
    method VerifyWorkload() returns (result: VerificationResult)
      ensures result == Verification(currentPolicy, tests)
    {
      var denied: seq<KubeEvent> := [];
      var passed := 0;
      var i := 0;
      assert forall xs: seq<KubeEvent> :: [] + xs == xs;
      while i < |tests|
        invariant 0 <= i <= |tests|
        invariant denied + AllDenied(currentPolicy, tests[i..]) == AllDenied(currentPolicy, tests)
        invariant passed + PassedCount(currentPolicy, tests[i..]) == PassedCount(currentPolicy, tests)
      {
        assert tests[i..][1..] == tests[i + 1..];
        var testDenials := DeniedIn(tests[i]);
        if testDenials != [] {
          denied := denied + testDenials;
        } else {
          passed := passed + 1;
        }
        i := i + 1;
      }
      assert denied == AllDenied(currentPolicy, tests);
      return VerificationResult(denied == [], passed, |tests|, FirstSeen(denied));
    }
  }

  /** The graph driver: nodes compute state, and the environment is asked, changed and
      restored only where the graph says so. */
  class WorkloadOptimizationGraph {
    const maxRepairIterations: nat

    constructor (maxRepairIterations: nat)
      ensures this.maxRepairIterations == maxRepairIterations
    {
      this.maxRepairIterations := maxRepairIterations;
    }

    method RunNode(environment: SimulatorEnvironment, s: RunState) returns (r: RunState)
      requires !Terminal(s) && Budgeted(maxRepairIterations, s) && s.world == environment.View()
      modifies environment
      ensures r == Step(maxRepairIterations, s, SimulatedAnswer(s.world.current, environment.tests))
      ensures r.world == environment.View()
    {
      hide ObservedOnlyPolicy, AgentRepair, CandidateAllowed, Verification, DescribeFailure;
      var answer := SimulatedAnswer(s.world.current, environment.tests);
      match s.node {
        case ApplyCandidate => environment.ApplyPolicy(s.graph.candidatePolicy);
        case RestoreLastKnownGood => environment.RestorePolicy();
        case Verify =>
          var result := environment.VerifyWorkload();
          answer := Answer(result, DescribeFailure(result));
        case _ =>
      }
      r := Step(maxRepairIterations, s, answer);
    }

    method Run(environment: SimulatorEnvironment) returns (final: RunState)
      modifies environment
      ensures final == Execute(maxRepairIterations, Simulated(environment.tests), old(environment.View()))
      ensures environment.View() == final.world
    {
      var env := Simulated(environment.tests);
      final := Initial(environment.View());
      while !Terminal(final)
        invariant Budgeted(maxRepairIterations, final)
        invariant final.world == environment.View()
        invariant Workload.Run(maxRepairIterations, env, final)
          == Execute(maxRepairIterations, env, old(environment.View()))
        decreases maxRepairIterations - final.graph.retryCount, Remaining(final.node)
      {
        final := RunNode(environment, final);
      }
    }
  }

  // ---------- The simulator tells the whole truth ----------

  lemma {:induction false} AllDeniedMembers(policy: Policy, tests: seq<Test>)
    ensures forall e :: e in AllDenied(policy, tests) <==> e in AllEvents(tests) && !Grants(policy.permissions, e)
  {
    if tests == [] {
    } else {
      AllDeniedMembers(policy, tests[1..]);
      UnauthorizedEmpty(policy, tests[0]);
    }
  }

  /** The reported denials are exactly the required calls the policy in force denies. */
  lemma SimulatorReportsAllDenials(policy: Policy, tests: seq<Test>)
    ensures forall e :: e in Verification(policy, tests).deniedEvents <==>
        e in AllEvents(tests) && !Grants(policy.permissions, e)
    ensures Distinct(Verification(policy, tests).deniedEvents)
    ensures Verification(policy, tests).passed <==> AllGranted(policy.permissions, AllEvents(tests))
  {
    AllDeniedMembers(policy, tests);
    FirstSeenFacts(AllDenied(policy, tests));
    var denied := AllDenied(policy, tests);
    if denied != [] {
      assert denied[0] in denied;
    }
  }

  lemma {:induction false} AllDeniedInOrder(policy: Policy, tests: seq<Test>)
    ensures AllDenied(policy, tests) == Kept(e => !Grants(policy.permissions, e), AllEvents(tests))
  {
    if tests == [] {
    } else {
      AllDeniedInOrder(policy, tests[1..]);
      UnauthorizedKept(policy, tests[0]);
      KeptConcat(e => !Grants(policy.permissions, e), tests[0], AllEvents(tests[1..]));
      hide Kept, Grants;
    }
  }

  /** Denials are reported in the order in which the tests first make the calls. */
  lemma DenialsInOrder(policy: Policy, tests: seq<Test>, i: nat, j: nat) returns (k: nat)
    requires i < j < |Verification(policy, tests).deniedEvents|
    ensures var calls := Kept(e => !Grants(policy.permissions, e), AllEvents(tests));
      var denied := Verification(policy, tests).deniedEvents;
      k < |calls| && calls[k] == denied[i] && denied[j] !in calls[..k + 1]
  {
    AllDeniedInOrder(policy, tests);
    k := FirstSeenOrder(AllDenied(policy, tests), i, j);
  }

  /** The tests a policy lets through: those whose calls it grants, every one. */
  ghost function PassingTests(policy: Policy, tests: seq<Test>): set<int> {
    set i | 0 <= i < |tests| && AllGranted(policy.permissions, tests[i])
  }

  lemma {:induction false} PassedCountAppend(policy: Policy, tests: seq<Test>, test: Test)
    ensures PassedCount(policy, tests + [test])
      == PassedCount(policy, tests) + if Unauthorized(policy, test) == [] then 1 else 0
  {
    if tests == [] {
      assert [test][1..] == [];
    } else {
      assert (tests + [test])[1..] == tests[1..] + [test];
      PassedCountAppend(policy, tests[1..], test);
    }
  }

  lemma {:induction false} CountsPassingTests(policy: Policy, tests: seq<Test>)
    ensures PassedCount(policy, tests) == |PassingTests(policy, tests)|
    decreases |tests|
  {
    if tests == [] {
    } else {
      var n := |tests| - 1;
      var before, passing := PassingTests(policy, tests[..n]), PassingTests(policy, tests);
      assert tests == tests[..n] + [tests[n]];
      PassedCountAppend(policy, tests[..n], tests[n]);
      CountsPassingTests(policy, tests[..n]);
      UnauthorizedEmpty(policy, tests[n]);
      assert passing == if AllGranted(policy.permissions, tests[n]) then before + {n} else before;
    }
  }

  /** What a verification reports of its tests: how many there are, how many of them passed,
      and that it passed exactly when they all did. */
  lemma VerificationCountsTests(policy: Policy, tests: seq<Test>)
    ensures var v := Verification(policy, tests);
      && v.testsTotal == |tests|
      && v.testsPassed == |PassingTests(policy, tests)|
      && (v.passed <==> v.testsPassed == v.testsTotal)
      && (v.passed <==> forall i :: 0 <= i < |tests| ==> AllGranted(policy.permissions, tests[i]))
  {
    var passing, all := PassingTests(policy, tests), Below(|tests|);
    CountsPassingTests(policy, tests);
    AllDeniedPerTest(policy, tests);
    SubsetSize(passing, all);
    hide AllGranted, AllDenied;
    assert passing == all <==> forall i :: i in all ==> i in passing;
    assert forall i :: i in passing <==> 0 <= i < |tests| && AllGranted(policy.permissions, tests[i]);
  }

  ghost function Below(n: nat): (s: set<int>)
    ensures |s| == n && forall i :: i in s <==> 0 <= i < n
  {
    if n == 0 then {} else Below(n - 1) + {n - 1}
  }

  lemma {:induction false} AllDeniedPerTest(policy: Policy, tests: seq<Test>)
    ensures AllDenied(policy, tests) == [] <==>
      forall i :: 0 <= i < |tests| ==> AllGranted(policy.permissions, tests[i])
  {
    if tests == [] {
    } else {
      AllDeniedPerTest(policy, tests[1..]);
      UnauthorizedEmpty(policy, tests[0]);
      hide AllGranted, Unauthorized;
      assert forall i :: 1 <= i < |tests| ==> tests[i] == tests[1..][i - 1];
    }
  }

  lemma SimulatorIsTruthful(tests: seq<Test>)
    ensures Truthful(Simulated(tests), AllEvents(tests))
  {
    forall s: RunState ensures TruthfulAnswer(AllEvents(tests), s.world.current, Simulated(tests)(s)) {
      SimulatorReportsAllDenials(s.world.current, tests);
      FirstSeenFacts(AllDenied(s.world.current, tests));
      var denied := AllDenied(s.world.current, tests);
      if denied != [] {
        assert denied[0] in denied;
        assert denied[0] in FirstSeen(denied);
      }
    }
  }

  // ---------- Exactly when a simulated run is accepted ----------

  /** Each verification call is authorized by the first candidate, or may be restored: the
      original authorizes it, it is supported, and at least one repair is allowed. */
  ghost predicate Recoverable(maxRepairs: nat, w: World, required: seq<KubeEvent>) {
    forall e :: e in required ==>
      Grants(FirstCandidate(w).permissions, e) || (maxRepairs >= 1 && Grants(w.current.permissions, e) && Supported(e))
  }

  /** An environment that reports every true denial at once. */
  ghost predicate Complete(env: Environment, required: seq<KubeEvent>) {
    forall s: RunState, e :: !env(s).result.passed && e in required && !Grants(s.world.current.permissions, e) ==>
      e in env(s).failure.missingEvents
  }

  lemma SimulatorIsComplete(tests: seq<Test>)
    ensures Complete(Simulated(tests), AllEvents(tests))
  {
    forall s: RunState, e | !Simulated(tests)(s).result.passed && e in AllEvents(tests)
        && !Grants(s.world.current.permissions, e)
      ensures e in Simulated(tests)(s).failure.missingEvents
    {
      SimulatorReportsAllDenials(s.world.current, tests);
    }
  }

  lemma PassingRun(maxRepairs: nat, env: Environment, w: World, required: seq<KubeEvent>, s: RunState)
    requires Truthful(env, required) && s.node.Verify? && Inv(maxRepairs, w, s)
    requires AllGranted(s.world.current.permissions, required)
    ensures var r := Run(maxRepairs, env, s);
      r.node.Finished? && r.graph.accepted && r.graph.retryCount == s.graph.retryCount
  {
    hide AllGranted, PoliciesInv, InForce, AppliedInv;
    assert TruthfulAnswer(required, s.world.current, env(s));
    FinishAccepted(maxRepairs, env, Step(maxRepairs, s, env(s)));
  }

  lemma HopelessRun(maxRepairs: nat, env: Environment, w: World, required: seq<KubeEvent>, s: RunState)
    requires Truthful(env, required) && s.node.Verify? && Inv(maxRepairs, w, s)
    requires s.world.current == s.graph.candidatePolicy
    requires !AllGranted(s.world.current.permissions, required)
    requires s.graph.retryCount < maxRepairs ==>
      var missing := env(s).failure.missingEvents;
      !AllGranted(w.current.permissions, missing) || !AllSupported(missing)
    ensures var r := Run(maxRepairs, env, s);
      r.node.Finished? && !r.graph.accepted && r.graph.retryCount == s.graph.retryCount
  {
    hide AllGranted, AllSupported, CandidateInv, InForce, AppliedInv;
    assert TruthfulAnswer(required, s.world.current, env(s));
    var s1 := Step(maxRepairs, s, env(s));
    if s.graph.retryCount < maxRepairs {
      RepairAddsOnlyNeeded(s.graph.candidatePolicy, env(s).failure.missingEvents, w.current);
      hide RepairPolicy;
      var s2 := Step(maxRepairs, s1, env(s1));
      var s3 := Step(maxRepairs, s2, env(s2));
      assert Run(maxRepairs, env, s) == Run(maxRepairs, env, s1) == Run(maxRepairs, env, s2);
      FinishRejected(maxRepairs, env, s3);
    } else {
      FinishRejected(maxRepairs, env, s1);
    }
  }

  /** A denial while the budget lasts is handed to the diagnosis as it was reported. */
  lemma DenialDiagnosed(maxRepairs: nat, env: Environment, w: World, required: seq<KubeEvent>, s: RunState)
    requires Truthful(env, required) && Complete(env, required) && s.node.Verify? && Inv(maxRepairs, w, s)
    requires s.world.current == s.graph.candidatePolicy && s.graph.retryCount < maxRepairs
    requires !AllGranted(s.world.current.permissions, required)
    ensures Budgeted(maxRepairs, s)
    ensures var r := Step(maxRepairs, s, env(s));
      && r.node.DiagnoseFailure? && Inv(maxRepairs, w, r) && r.graph.retryCount == s.graph.retryCount
      && r.graph.candidatePolicy == s.graph.candidatePolicy && r.graph.failure == Some(env(s).failure)
    ensures TruthfulFailure(required, s.graph.candidatePolicy, env(s).failure)
    ensures forall e :: e in required && !Grants(s.graph.candidatePolicy.permissions, e) ==>
        e in env(s).failure.missingEvents
  {
    assert TruthfulAnswer(required, s.world.current, env(s));
    DenialStep(maxRepairs, env, w, required, s);
    hide AllGranted, AllSupported, Grants, Truthful, TruthfulFailure, Step, Inv;
  }

  lemma DenialStep(maxRepairs: nat, env: Environment, w: World, required: seq<KubeEvent>, s: RunState)
    requires TruthfulAnswer(required, s.world.current, env(s)) && s.node.Verify? && Inv(maxRepairs, w, s)
    requires s.graph.retryCount < maxRepairs && !AllGranted(s.world.current.permissions, required)
    ensures Budgeted(maxRepairs, s)
    ensures var r := Step(maxRepairs, s, env(s));
      && r.node.DiagnoseFailure? && Inv(maxRepairs, w, r) && r.graph.retryCount == s.graph.retryCount
      && r.graph.candidatePolicy == s.graph.candidatePolicy && r.graph.failure == Some(env(s).failure)
  {
    hide AllGranted, AllSupported, Grants, PoliciesInv, InForce, AppliedInv;
    StepInv(maxRepairs, w, s, env(s));
    hide Inv;
  }

  /** One complete repair settles the run. */
  lemma OneRepairSuffices(maxRepairs: nat, env: Environment, w: World, required: seq<KubeEvent>, s: RunState)
    requires Truthful(env, required) && Complete(env, required) && s.node.Verify? && Inv(maxRepairs, w, s)
    requires s.world.current == s.graph.candidatePolicy && s.graph.retryCount < maxRepairs
    requires !AllGranted(s.world.current.permissions, required)
    requires AllGranted(w.current.permissions, env(s).failure.missingEvents)
        && AllSupported(env(s).failure.missingEvents)
    ensures var r := Run(maxRepairs, env, s);
      r.node.Finished? && r.graph.accepted && r.graph.retryCount == s.graph.retryCount + 1
  {
    hide AllGranted, AllSupported, Grants, Inv, TruthfulFailure;
    DenialDiagnosed(maxRepairs, env, w, required, s);
    hide Truthful, Complete;
    var s1 := Step(maxRepairs, s, env(s));
    hide Step;
    assert Run(maxRepairs, env, s) == Run(maxRepairs, env, s1);
    var v := CompleteRound(maxRepairs, env, w, required, s1);
    PassingRun(maxRepairs, env, w, required, v);
  }

  lemma CompleteRound(maxRepairs: nat, env: Environment, w: World, required: seq<KubeEvent>, s: RunState)
    returns (v: RunState)
    requires s.node.DiagnoseFailure? && Inv(maxRepairs, w, s)
    requires TruthfulFailure(required, s.graph.candidatePolicy, s.graph.failure.value)
    requires forall e :: e in required && !Grants(s.graph.candidatePolicy.permissions, e) ==>
        e in s.graph.failure.value.missingEvents
    requires AllGranted(w.current.permissions, s.graph.failure.value.missingEvents)
    requires AllSupported(s.graph.failure.value.missingEvents)
    ensures v.node.Verify? && Inv(maxRepairs, w, v) && v.graph.retryCount == s.graph.retryCount + 1
    ensures Run(maxRepairs, env, s) == Run(maxRepairs, env, v)
    ensures AllGranted(v.world.current.permissions, required)
  {
    hide AllGranted, AllSupported, Grants, Needed, KeySet, Inv, RepairNode, ToVerify, TruthfulFailure;
    RepairRound(maxRepairs, env, w, required, s);
    v := ToVerify(RepairNode(Goto(s, RepairCandidate, s.graph)));
    GrantedAfterRepair(s.graph.candidatePolicy, s.graph.failure.value.missingEvents, v.graph.candidatePolicy, required);
  }

  lemma GrantedAfterRepair(c: Policy, missing: seq<KubeEvent>, repaired: Policy, required: seq<KubeEvent>)
    requires KeySet(repaired.permissions) == KeySet(c.permissions) + Needed(missing)
    requires forall e :: e in required && !Grants(c.permissions, e) ==> e in missing
    ensures AllGranted(repaired.permissions, required)
  {
    forall e | e in required ensures Grants(repaired.permissions, e) {
      if Grants(c.permissions, e) {
        GrantsByKeys(c.permissions, repaired.permissions, e);
      } else {
        KeyIsNeeded(e, missing);
        KeyGrants(repaired.permissions, e);
      }
    }
  }

  lemma DenialsAreRecoverable(maxRepairs: nat, w: World, required: seq<KubeEvent>, missing: seq<KubeEvent>)
    requires maxRepairs >= 1
    requires forall e :: e in missing <==> e in required && !Grants(FirstCandidate(w).permissions, e)
    ensures Recoverable(maxRepairs, w, required)
      <==> AllGranted(w.current.permissions, missing) && AllSupported(missing)
  {
  }

  /** A truthful and complete environment accepts exactly when every required call is
      granted by the first candidate or recoverable; it never needs two repairs. */
  lemma AcceptedIffRecoverable(maxRepairs: nat, env: Environment, w: World, required: seq<KubeEvent>)
    requires Reducible(w) && Truthful(env, required) && Complete(env, required)
    ensures var s := Execute(maxRepairs, env, w);
      && s.node.Finished?
      && (s.graph.accepted <==> Recoverable(maxRepairs, w, required))
      && s.graph.retryCount ==
           (if s.graph.accepted && !AllGranted(FirstCandidate(w).permissions, required) then 1 else 0)
  {
    ReachFirstVerify(maxRepairs, env, w);
    var v := FirstVerify(w);
    hide FirstVerify, FirstCandidate, Inv;
    if AllGranted(FirstCandidate(w).permissions, required) {
      PassingRun(maxRepairs, env, w, required, v);
    } else if maxRepairs == 0 {
      HopelessRun(maxRepairs, env, w, required, v);
    } else {
      var missing := env(v).failure.missingEvents;
      assert TruthfulAnswer(required, v.world.current, env(v));
      DenialsAreRecoverable(maxRepairs, w, required, missing);
      if AllGranted(w.current.permissions, missing) && AllSupported(missing) {
        OneRepairSuffices(maxRepairs, env, w, required, v);
      } else {
        HopelessRun(maxRepairs, env, w, required, v);
      }
    }
  }

  /** The exact outcome of a simulator run: it raises exactly when the observed calls are not
      all authorized and supported; otherwise it is accepted exactly when each verification
      call is granted by the first candidate or may be restored, after at most one repair,
      and then ends with the least policy for the observed and verification calls. */
  lemma SimulatorAcceptsExactly(maxRepairs: nat, tests: seq<Test>, w: World)
    ensures var s := Execute(maxRepairs, Simulated(tests), w);
      && (s.node.Raised? <==> !Reducible(w))
      && (s.node.Finished? ==>
            && (s.graph.accepted <==> Recoverable(maxRepairs, w, AllEvents(tests)))
            && s.graph.retryCount <= 1
            && (s.graph.accepted ==>
                  forall ps :: AllGranted(ps, w.observed + AllEvents(tests)) <==>
                      Covers(ps, s.world.current.permissions)))
  {
    SimulatorIsTruthful(tests);
    SimulatorIsComplete(tests);
    var env := Simulated(tests);
    hide Simulated, Execute, Covers, AllGranted, Reducible, Recoverable, Truthful, Complete;
    RunNeverEscalates(maxRepairs, env, w);
    RunCommitsOrRollsBack(maxRepairs, env, w);
    AcceptedIsLeastPrivilege(maxRepairs, env, w, AllEvents(tests));
    if Reducible(w) {
      AcceptedIffRecoverable(maxRepairs, env, w, AllEvents(tests));
    }
  }
}

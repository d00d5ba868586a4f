/** A simulator adapter used twice: the second run is rejected and puts back a policy wider
    than the one it found and reports. */
module SimulatorReuse {
  import opened Ordering
  import opened Models
  import opened Authorization
  import opened Canonicalizer
  import opened Minimizer
  import opened Workload
  import opened WorkloadSafety
  import opened WorkloadConvergence
  import opened Simulator

  function OnPods(verb: string): KubeEvent {
    KubeEvent("", "pods", verb, Some("shop"), None, None)
  }

  /** The adapter is created with every verb on the pods of one namespace, has observed one
      call and verifies another. */
  const CREATED := Policy([Permission("", "pods", "*", Some("shop"), None, None)], "shop-policy", "shop-sa", "shop")
  const FRESH := World(CREATED, CREATED, [OnPods("get")])
  const TESTS: seq<Test> := [[OnPods("list")]]

  lemma Calls()
    ensures AllEvents(TESTS) == [OnPods("list")]
    ensures forall verb :: Grants(CREATED.permissions, OnPods(verb))
    ensures Supported(OnPods("get")) && Supported(OnPods("list"))
  {
    assert AllEvents(TESTS[1..]) == [];
    assert forall verb :: Matches(CREATED.permissions[0], OnPods(verb));
  }

  /** The least policy for some calls on pods allows no other verb on pods. */
  lemma NothingElse(events: seq<KubeEvent>, least: seq<Permission>, verb: string)
    requires forall ps :: AllGranted(ps, events) ==> Covers(ps, least)
    requires forall e :: e in events ==> e.verb != verb && e.verb != "*"
    ensures !Grants(least, OnPods(verb))
  {
    var ps := Map(Narrowest, events);
    NarrowestKeys(events);
    LeastPolicy(ps, events, ps);
    assert Covers(ps, least);
    hide AllGranted, KeySet, Needed, Map;
    forall p | p in ps ensures !Matches(p, OnPods(verb)) {
      var i :| 0 <= i < |ps| && ps[i] == p;
      assert p == Narrowest(events[i]);
    }
  }

  /** A run changes nothing of the adapter but the policy in force. */
  lemma AdapterKept(maxRepairs: nat, env: Environment, w: World)
    ensures var s := Execute(maxRepairs, env, w); s.world == w.(current := s.world.current)
  {
    ExecuteInv(maxRepairs, env, w);
  }

  /** The first candidate authorizes the observed call only. */
  lemma ListIsMissing(w: World)
    requires w.observed == [OnPods("get")] && Reducible(w)
    ensures !Grants(FirstCandidate(w).permissions, OnPods("list"))
  {
    ObservedOnlyIsLeast(w.current, w.observed);
    hide Grants, Covers, AllGranted, AllSupported, ObservedOnlyPolicy, Needed, KeySet, Normal;
    NothingElse(w.observed, FirstCandidate(w).permissions, "list");
  }

  /** One repair is allowed and needed. */
  lemma FirstRunAccepted()
    ensures Reducible(FRESH)
    ensures var s := Execute(1, Simulated(TESTS), FRESH);
      s.node.Finished? && s.graph.accepted && s.graph.retryCount == 1
  {
    Calls();
    SimulatorIsTruthful(TESTS);
    SimulatorIsComplete(TESTS);
    hide Execute, Simulated, Grants, Truthful, Complete, FirstCandidate, Supported;
    ListIsMissing(FRESH);
    AcceptedIffRecoverable(1, Simulated(TESTS), FRESH, AllEvents(TESTS));
  }

  lemma BothCalls()
    ensures FRESH.observed + AllEvents(TESTS) == [OnPods("get"), OnPods("list")]
  {
    Calls();
  }

  /** The first run, accepted, ends with the least policy for both calls. */
  lemma FirstRunIsLeast()
    ensures var s := Execute(1, Simulated(TESTS), FRESH);
      forall ps :: AllGranted(ps, [OnPods("get"), OnPods("list")]) <==> Covers(ps, s.world.current.permissions)
  {
    hide Execute, Simulated, AllGranted, Covers, Recoverable, Reducible, AllEvents, OnPods;
    BothCalls();
    FirstRunAccepted();
    SimulatorAcceptsExactly(1, TESTS, FRESH);
  }

  /** What the first run leaves in the adapter. */
  lemma FirstRun()
    ensures var s := Execute(1, Simulated(TESTS), FRESH);
      && AllGranted(s.world.current.permissions, [OnPods("get"), OnPods("list")])
      && !Grants(s.world.current.permissions, OnPods("delete"))
      && s.world == FRESH.(current := s.world.current)
  {
    hide Execute, Simulated, Grants, Covers, AllGranted;
    var s := Execute(1, Simulated(TESTS), FRESH);
    AdapterKept(1, Simulated(TESTS), FRESH);
    FirstRunIsLeast();
    CoversItself(s.world.current);
    NothingElse([OnPods("get"), OnPods("list")], s.world.current.permissions, "delete");
  }

  lemma CoversItself(policy: Policy)
    ensures Covers(policy.permissions, policy.permissions)
  {
  }

  /** The next graph to use the adapter allows no repair, is rejected, reports the policy it
      found and leaves the wider one of the adapter's creation in force. */
  lemma RejectionWidensReusedAdapter()
    ensures var first := Execute(1, Simulated(TESTS), FRESH);
      var second := Execute(0, Simulated(TESTS), first.world);
      && first.node.Finished? && first.graph.accepted && first.graph.retryCount == 1
      && second.node.Finished? && !second.graph.accepted
      && FinalPolicy(second) == first.world.current && second.world.current == CREATED
      && IsAuthorized(second.world.current, OnPods("delete"))
      && !IsAuthorized(FinalPolicy(second), OnPods("delete"))
  {
    SimulatorIsTruthful(TESTS);
    SimulatorIsComplete(TESTS);
    hide Execute, Simulated, Grants, IsAuthorized, Supported, FirstCandidate, Truthful, Complete;
    FirstRunAccepted();
    FirstRun();
    Calls();
    var w := Execute(1, Simulated(TESTS), FRESH).world;
    ListIsMissing(w);
    AcceptedIffRecoverable(0, Simulated(TESTS), w, AllEvents(TESTS));
    RunCommitsOrRollsBack(0, Simulated(TESTS), w);
    AuthorizeMeaning(CREATED, OnPods("delete"));
    AuthorizeMeaning(w.current, OnPods("delete"));
  }
}

/** The workload graph on a live adapter: when everything a run applies survives the round
    trip through documents that the adapter checks first. */
module WorkloadCompilation {
  import opened Ordering
  import opened Models
  import opened Authorization
  import opened Canonicalizer
  import opened Minimizer
  import opened Parser
  import opened RoundTrip
  import opened Workload
  import opened WorkloadSafety

  /** A call whose narrowest grant can be written down and bound to the account. */
  predicate ExpressibleEvent(found: Policy, account: ServiceAccountRef, e: KubeEvent) {
    && e.namespace != Some("")
    && (e.verb in RESOURCE_NAME_SAFE_VERBS ==> e.resourceName != Some(""))
    && SubjectIn(found, e.namespace) == account
  }

  predicate Expressible(found: Policy, account: ServiceAccountRef, events: seq<KubeEvent>) {
    events == [] ||
    (&& account.name != "" && account.namespace != ""
     && forall e :: e in events ==> ExpressibleEvent(found, account, e))
  }

  /** For the account of the policy found, if it has both parts, empty strings are the only
      thing in the way. */
  lemma EmptyPartsDecide(found: Policy, events: seq<KubeEvent>)
    requires found.serviceAccount != "" && found.serviceAccountNamespace != ""
    ensures Expressible(found, AccountOf(found), events) <==>
      forall e :: e in events ==>
        e.namespace != Some("") && (e.verb in RESOURCE_NAME_SAFE_VERBS ==> e.resourceName != Some(""))
  {
  }

  /** Candidates keep the account of the policy found. */
  ghost predicate AccountInv(w: World, s: RunState) {
    && (HasCandidate(s.node) ==> AccountOf(s.graph.candidatePolicy) == AccountOf(w.current))
    && (forall c :: c in s.applied ==> AccountOf(c) == AccountOf(w.current))
  }

  lemma GeneratedAccount(w: World, s: RunState)
    requires s.graph.originalPolicy == w.current && AccountInv(w, s)
    ensures AccountInv(w, Generate(s))
  {
    hide Unauthorized, EventPermissions, Normalize;
  }

  lemma RepairedAccount(w: World, s: RunState)
    requires s.node.RepairCandidate? && s.graph.failure.Some? && AccountInv(w, s)
    ensures AccountInv(w, RepairNode(s))
  {
    hide Additions, Normalize;
  }

  lemma MovedAccount(maxRepairs: nat, w: World, s: RunState, a: Answer)
    requires !Terminal(s) && Budgeted(maxRepairs, s) && AccountInv(w, s)
    requires !s.node.GenerateCandidate? && !s.node.RepairCandidate?
    ensures AccountInv(w, Step(maxRepairs, s, a))
  {
    hide CandidateAllowed, AccountOf;
  }

  lemma AccountStep(maxRepairs: nat, w: World, s: RunState, a: Answer)
    requires !Terminal(s) && Inv(maxRepairs, w, s) && AccountInv(w, s) && Budgeted(maxRepairs, s)
    ensures AccountInv(w, Step(maxRepairs, s, a))
  {
    assert HasOriginal(s.node) ==> s.graph.originalPolicy == w.current;
    hide Inv, AccountInv, Generate, RepairNode;
    if s.node.GenerateCandidate? {
      GeneratedAccount(w, s);
    } else if s.node.RepairCandidate? {
      RepairedAccount(w, s);
    } else {
      hide Step;
      MovedAccount(maxRepairs, w, s, a);
    }
  }

  lemma {:induction false} AccountAfter(maxRepairs: nat, env: Environment, w: World, s: RunState, n: nat)
    requires Inv(maxRepairs, w, s) && AccountInv(w, s) && Budgeted(maxRepairs, s)
    ensures AccountInv(w, After(maxRepairs, env, s, n))
    decreases n
  {
    hide Inv, AccountInv, Step, Budgeted;
    if n == 0 || Terminal(s) {
    } else {
      StepInv(maxRepairs, w, s, env(s));
      AccountStep(maxRepairs, w, s, env(s));
      InvBudgeted(maxRepairs, w, Step(maxRepairs, s, env(s)));
      AccountAfter(maxRepairs, env, w, Step(maxRepairs, s, env(s)), n - 1);
    }
  }

  lemma GrantCompilesIff(found: Policy, account: ServiceAccountRef, e: KubeEvent, c: Policy, p: Permission)
    requires AccountOf(c) == AccountOf(found) && Supported(e) && Key(p) == Key(Narrowest(e))
    ensures CompilablePermission(p) && SubjectIn(c, p.namespace) == account <==> ExpressibleEvent(found, account, e)
  {
  }

  /** A least policy compiles for an account exactly when the calls it was built from can be
      expressed for it. */
  lemma LeastCompilesIff(found: Policy, account: ServiceAccountRef, events: seq<KubeEvent>, c: Policy)
    requires AccountOf(c) == AccountOf(found) && AllSupported(events) && KeySet(c.permissions) == Needed(events)
    ensures Compilable(c, account) <==> Expressible(found, account, events)
  {
    hide CompilablePermission, ExpressibleEvent, SubjectIn, AccountOf, Supported, Key, Narrowest;
    forall e | e in events
      ensures exists p :: p in c.permissions && Key(p) == Key(Narrowest(e))
      ensures Compilable(c, account) ==> ExpressibleEvent(found, account, e)
    {
      KeyIsNeeded(e, events);
      var p :| p in c.permissions && Key(p) == Key(Narrowest(e));
      GrantCompilesIff(found, account, e, c, p);
    }
    forall p | p in c.permissions
      ensures exists e :: e in events && Key(p) == Key(Narrowest(e))
      ensures Expressible(found, account, events) ==> CompilablePermission(p) && SubjectIn(c, p.namespace) == account
    {
      assert Key(p) in KeySet(c.permissions);
      var e :| e in events && Key(p) == Key(Narrowest(e));
      GrantCompilesIff(found, account, e, c, p);
    }
    if events != [] {
      assert events[0] in events;
    }
    if c.permissions != [] {
      assert c.permissions[0] in c.permissions;
    }
  }

  /** In every state of every run with a candidate, the adapter's round-trip check passes for
      the candidate exactly when every call observed or repaired so far can be expressed. */
  lemma CandidateCompilesIff(maxRepairs: nat, env: Environment, w: World, n: nat, account: ServiceAccountRef)
    ensures var s := After(maxRepairs, env, Initial(w), n);
      HasCandidate(s.node) ==>
        && AccountOf(s.graph.candidatePolicy) == AccountOf(w.current)
        && (GivesBack(s.graph.candidatePolicy, account) <==> Expressible(w.current, account, w.observed + s.repaired))
  {
    var s := After(maxRepairs, env, Initial(w), n);
    InitialInv(maxRepairs, w);
    InitialAccount(w);
    AfterInv(maxRepairs, env, w, Initial(w), n);
    AccountAfter(maxRepairs, env, w, Initial(w), n);
    hide After, Initial, GivesBack, Compilable, Expressible, AllGranted, AllSupported, Needed, KeySet, Normal, Counted,
        InForce, AppliedInv, AccountOf;
    if HasCandidate(s.node) {
      LeastCompilesIff(w.current, account, w.observed + s.repaired, s.graph.candidatePolicy);
      RoundTripExactly(s.graph.candidatePolicy, account);
    }
  }

  lemma InitialAccount(w: World)
    ensures AccountInv(w, Initial(w))
  {
  }

  /** Fewer keys are no harder to compile. */
  lemma SmallerCompiles(c: Policy, larger: Policy, account: ServiceAccountRef)
    requires AccountOf(c) == AccountOf(larger) && KeySet(c.permissions) <= KeySet(larger.permissions)
    requires Compilable(larger, account)
    ensures Compilable(c, account)
  {
    forall p | p in c.permissions ensures CompilablePermission(p) && SubjectIn(c, p.namespace) == account {
      assert Key(p) in KeySet(c.permissions);
      var q :| q in larger.permissions && Key(q) == Key(p);
    }
    if c.permissions != [] {
      assert Key(c.permissions[0]) in KeySet(c.permissions);
    }
  }

  /** The policies applied so far all pass the check exactly when the last one does. */
  lemma LastDecides(ps: seq<Policy>, account: ServiceAccountRef)
    requires Growing(ps) && ps != [] && forall c :: c in ps ==> AccountOf(c) == AccountOf(ps[0])
    ensures (forall c :: c in ps ==> Compilable(c, account)) <==> Compilable(ps[|ps| - 1], account)
  {
    hide Compilable, AccountOf, KeySet;
    var last := ps[|ps| - 1];
    forall c | c in ps && Compilable(last, account) ensures Compilable(c, account) {
      var i :| 0 <= i < |ps| && ps[i] == c;
      if i < |ps| - 1 {
        SmallerCompiles(c, last, account);
      }
    }
  }

  lemma ExecuteAccount(maxRepairs: nat, env: Environment, w: World)
    ensures AccountInv(w, Execute(maxRepairs, env, w))
  {
    var s := Execute(maxRepairs, env, w);
    InitialInv(maxRepairs, w);
    InitialAccount(w);
    hide Inv, Run, Initial, AccountInv;
    InvBudgeted(maxRepairs, w, Initial(w));
    RunIsAfter(maxRepairs, env, Initial(w));
    AccountAfter(maxRepairs, env, w, Initial(w), s.steps - Initial(w).steps);
  }

  /** What a returning run applied, the last candidate among it. */
  lemma FinishedRun(maxRepairs: nat, env: Environment, w: World)
    ensures var s := Execute(maxRepairs, env, w); var needs := w.observed + s.repaired;
      s.node.Finished? ==>
        && AccountInv(w, s) && Growing(s.applied)
        && s.applied != [] && s.applied[|s.applied| - 1] == s.graph.candidatePolicy
        && AllSupported(needs) && KeySet(s.graph.candidatePolicy.permissions) == Needed(needs)
  {
    hide Execute, AllGranted, AllSupported, Needed, KeySet, Normal, AccountInv, Growing, Covers, Counted;
    ExecuteInv(maxRepairs, env, w);
    ExecuteAccount(maxRepairs, env, w);
  }

  /** However verification answers: the check passes for everything a returning run applies
      exactly when every call observed or repaired in it can be expressed for the account. */
  lemma EveryApplicationCompilesIff(maxRepairs: nat, env: Environment, w: World, account: ServiceAccountRef)
    ensures var s := Execute(maxRepairs, env, w);
      s.node.Finished? ==>
        ((forall c :: c in s.applied ==> GivesBack(c, account))
          <==> Expressible(w.current, account, w.observed + s.repaired))
  {
    var s := Execute(maxRepairs, env, w);
    FinishedRun(maxRepairs, env, w);
    hide Execute, GivesBack, Compilable, Expressible, AllSupported, Needed, KeySet, AccountOf, Growing;
    if s.node.Finished? {
      LeastCompilesIff(w.current, account, w.observed + s.repaired, s.graph.candidatePolicy);
      LastDecides(s.applied, account);
      forall c ensures GivesBack(c, account) <==> Compilable(c, account) {
        RoundTripExactly(c, account);
      }
    }
  }
}

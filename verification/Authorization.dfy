/** What a policy means: the set of events it authorizes, and when one grant covers another. */
module Authorization {
  import opened Ordering
  import opened Models

  const RESOURCE_NAME_VERBS: set<string> := {"get", "update", "patch", "delete"}

  datatype AuthorizationDecision = AuthorizationDecision(
    allowed: bool, matchingPermission: Option<Permission>, reason: string)

  predicate Matches(p: Permission, e: KubeEvent) {
    && (p.apiGroup == "*" || p.apiGroup == e.apiGroup)
    && (p.resource == "*" || p.resource == e.resource)
    && (p.verb == "*" || p.verb == e.verb)
    && (p.namespace.Some? ==> p.namespace == e.namespace)
    && (p.resourceName.Some? ==> e.verb in RESOURCE_NAME_VERBS && e.resourceName == p.resourceName)
  }

  function FirstMatch(ps: seq<Permission>, e: KubeEvent): Option<Permission> {
    if ps == [] then None
    else if Matches(ps[0], e) then Some(ps[0])
    else FirstMatch(ps[1..], e)
  }

  function Authorize(policy: Policy, e: KubeEvent): AuthorizationDecision {
    match FirstMatch(policy.permissions, e)
    case Some(p) => AuthorizationDecision(true, Some(p), "matched deterministic RBAC rule")
    case None => AuthorizationDecision(false, None, "no matching permission")
  }

  predicate IsAuthorized(policy: Policy, e: KubeEvent) {
    Authorize(policy, e).allowed
  }

  /** Some permission of `ps` matches `e`: authorization with no order and no multiplicity. */
  predicate Grants(ps: seq<Permission>, e: KubeEvent) {
    exists p :: p in ps && Matches(p, e)
  }

  lemma {:induction false} FirstMatchIsGrant(ps: seq<Permission>, e: KubeEvent)
    ensures FirstMatch(ps, e).Some? <==> Grants(ps, e)
    ensures FirstMatch(ps, e).Some? ==>
      exists i :: 0 <= i < |ps| && FirstMatch(ps, e) == Some(ps[i]) && Matches(ps[i], e)
                  && forall j :: 0 <= j < i ==> !Matches(ps[j], e)
  {
    if ps == [] {
    } else {
      FirstMatchIsGrant(ps[1..], e);
      assert ps == [ps[0]] + ps[1..];
      if !Matches(ps[0], e) && FirstMatch(ps[1..], e).Some? {
        var i :| 0 <= i < |ps[1..]| && FirstMatch(ps[1..], e) == Some(ps[1..][i]) && Matches(ps[1..][i], e)
          && forall j :: 0 <= j < i ==> !Matches(ps[1..][j], e);
        assert forall j :: 0 < j < i + 1 ==> ps[j] == ps[1..][j - 1];
        assert FirstMatch(ps, e) == Some(ps[i + 1]);
      }
    }
  }

  /** A decision is positive exactly when some permission matches, and then it names the
      first one that does. */
  lemma AuthorizeMeaning(policy: Policy, e: KubeEvent)
    ensures IsAuthorized(policy, e) <==> Grants(policy.permissions, e)
    ensures IsAuthorized(policy, e) ==>
      var ps := policy.permissions;
      exists i :: 0 <= i < |ps| && Matches(ps[i], e) && Authorize(policy, e).matchingPermission == Some(ps[i])
                  && forall j :: 0 <= j < i ==> !Matches(ps[j], e)
    ensures !IsAuthorized(policy, e) ==> Authorize(policy, e).matchingPermission.None?
  {
    FirstMatchIsGrant(policy.permissions, e);
  }

  /** Matching looks at the key only. */
  lemma MatchesByKey(p: Permission, q: Permission, e: KubeEvent)
    requires Key(p) == Key(q)
    ensures Matches(p, e) <==> Matches(q, e)
  {
  }

  lemma GrantsByKeys(ps: seq<Permission>, qs: seq<Permission>, e: KubeEvent)
    requires KeySet(ps) <= KeySet(qs) && Grants(ps, e)
    ensures Grants(qs, e)
  {
    var p :| p in ps && Matches(p, e);
    assert Key(p) in KeySet(ps);
    var q :| q in qs && Key(q) == Key(p);
    MatchesByKey(p, q, e);
  }

  /** Authorization does not see normalization, order or duplicates: it is a function of
      the key set. */
  lemma AuthorizationDependsOnKeySet(ps: seq<Permission>, qs: seq<Permission>, e: KubeEvent)
    requires KeySet(ps) == KeySet(qs)
    ensures Grants(ps, e) <==> Grants(qs, e)
    ensures Grants(Normalize(ps), e) <==> Grants(qs, e)
  {
    NormalizeKeySet(ps);
    if Grants(ps, e) { GrantsByKeys(ps, qs, e); }
    if Grants(qs, e) { GrantsByKeys(qs, ps, e); GrantsByKeys(qs, Normalize(ps), e); }
    if Grants(Normalize(ps), e) { GrantsByKeys(Normalize(ps), qs, e); }
  }

  // ---------- Coverage ----------

  /** Every event `q` matches is granted by `ps`. */
  ghost predicate CoversPermission(ps: seq<Permission>, q: Permission) {
    forall e :: Matches(q, e) ==> Grants(ps, e)
  }

  /** `wide` authorizes whatever `narrow` authorizes. */
  ghost predicate Covers(wide: seq<Permission>, narrow: seq<Permission>) {
    forall e :: Grants(narrow, e) ==> Grants(wide, e)
  }

  lemma CoversEach(wide: seq<Permission>, narrow: seq<Permission>)
    ensures Covers(wide, narrow) <==> forall q :: q in narrow ==> CoversPermission(wide, q)
  {
  }

  /** The event `validate_candidate` asks about for a permission. */
  function AsEvent(q: Permission): KubeEvent {
    KubeEvent(q.apiGroup, q.resource, q.verb, q.namespace, q.resourceName, None)
  }

  /** A name restriction only means something on verbs that address one object. */
  predicate NameIsMeaningful(q: Permission) {
    q.resourceName.Some? ==> q.verb in RESOURCE_NAME_VERBS
  }

  /** If one permission matches another read as an event, it covers it entirely. */
  lemma MatchingAsEventCovers(p: Permission, q: Permission)
    requires Matches(p, AsEvent(q))
    ensures forall e :: Matches(q, e) ==> Matches(p, e)
  {
  }

  function Longest(ss: seq<string>): nat {
    if ss == [] then 2
    else
      var rest := Longest(ss[1..]);
      if |ss[0]| > rest then |ss[0]| else rest
  }

  lemma {:induction false} LongestBounds(ss: seq<string>)
    ensures Longest(ss) >= 2
    ensures forall s :: s in ss ==> |s| <= Longest(ss)
  {
    if ss == [] {
    } else {
      LongestBounds(ss[1..]);
      assert ss == [ss[0]] + ss[1..];
    }
  }

  /** A string of the given length, used as a name no policy mentions. */
  function Fresh(n: nat): (s: string)
    ensures |s| == n + 1
  {
    seq(n + 1, _ => 'x')
  }

  function ApiGroupOf(p: Permission): string { p.apiGroup }
  function ResourceOf(p: Permission): string { p.resource }
  function VerbOf(p: Permission): string { p.verb }

  /** A wildcard part is filled with a name no permission of `ps` mentions. */
  function GenericPart(f: Permission -> string, ps: seq<Permission>, own: string): string {
    if own == "*" then Fresh(Longest(Map(f, ps))) else own
  }

  /** An event matched by `q` that only a permission as wide as `q` can match. */
  function GenericEvent(ps: seq<Permission>, q: Permission): KubeEvent {
    KubeEvent(
      GenericPart(ApiGroupOf, ps, q.apiGroup),
      GenericPart(ResourceOf, ps, q.resource),
      GenericPart(VerbOf, ps, q.verb),
      q.namespace, q.resourceName, None)
  }

  lemma GenericPartForces(f: Permission -> string, ps: seq<Permission>, p: Permission, own: string)
    requires p in ps && (f(p) == "*" || f(p) == GenericPart(f, ps, own))
    ensures f(p) == "*" || f(p) == own
  {
    LongestBounds(Map(f, ps));
    var i :| 0 <= i < |ps| && ps[i] == p;
    assert Map(f, ps)[i] in Map(f, ps);
  }

  lemma NameNeedsConcreteVerb(q: Permission)
    requires NameIsMeaningful(q)
    ensures q.verb == "*" ==> q.resourceName.None?
  {
  }

  lemma GenericEventForces(ps: seq<Permission>, q: Permission, p: Permission)
    requires NameIsMeaningful(q) && p in ps && Matches(p, GenericEvent(ps, q))
    ensures Matches(p, AsEvent(q))
  {
    GenericPartForces(ApiGroupOf, ps, p, q.apiGroup);
    GenericPartForces(ResourceOf, ps, p, q.resource);
    GenericPartForces(VerbOf, ps, p, q.verb);
    NameNeedsConcreteVerb(q);
  }

  /** What the question "is this permission, read as an event, authorized?" really asks
      about: a name on a verb that cannot honour names is dropped. */
  function Asked(q: Permission): Permission {
    if NameIsMeaningful(q) then q else q.(resourceName := None)
  }

  lemma AskedMatchesAlike(p: Permission, q: Permission)
    ensures Matches(p, AsEvent(q)) <==> Matches(p, AsEvent(Asked(q)))
  {
  }

  /** An event as a request makes it: no part is the literal wildcard. */
  predicate Literal(e: KubeEvent) {
    e.apiGroup != "*" && e.resource != "*" && e.verb != "*"
  }

  /** `ps` grants every wildcard-free event `q` matches. */
  ghost predicate CoversLiteral(ps: seq<Permission>, q: Permission) {
    forall e :: Literal(e) && Matches(q, e) ==> Grants(ps, e)
  }

  lemma GenericEventIsLiteral(ps: seq<Permission>, q: Permission)
    requires NameIsMeaningful(q)
    ensures Literal(GenericEvent(ps, q)) && Matches(q, GenericEvent(ps, q))
  {
    NameNeedsConcreteVerb(q);
    LongestBounds(Map(ApiGroupOf, ps));
    LongestBounds(Map(ResourceOf, ps));
    LongestBounds(Map(VerbOf, ps));
  }

  lemma AskedMatchesAll(q: Permission)
    ensures forall e :: Matches(q, e) ==> Matches(Asked(q), e)
  {
  }

  /** Asking whether a permission read as an event is authorized decides coverage: the
      answer is yes exactly when the policy grants every wildcard-free event the permission
      (less a meaningless name) stands for, and it then grants all its events. No union of
      narrower grants can make up a wildcard. */
  lemma AsEventDecidesCoverage(ps: seq<Permission>, q: Permission)
    ensures Grants(ps, AsEvent(q)) <==> CoversLiteral(ps, Asked(q))
    ensures Grants(ps, AsEvent(q)) ==> CoversPermission(ps, q)
  {
    var a := Asked(q);
    AskedMatchesAll(q);
    if Grants(ps, AsEvent(q)) {
      var p :| p in ps && Matches(p, AsEvent(q));
      AskedMatchesAlike(p, q);
      MatchingAsEventCovers(p, a);
    }
    if CoversLiteral(ps, a) {
      var e := GenericEvent(ps, a);
      GenericEventIsLiteral(ps, a);
      assert Grants(ps, e);
      var p :| p in ps && Matches(p, e);
      GenericEventForces(ps, a, p);
      AskedMatchesAlike(p, q);
    }
  }
}

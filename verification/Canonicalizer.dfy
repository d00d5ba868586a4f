/** The catalog of supported resources and verbs, and wildcard expansion over it. */
module Canonicalizer {
  import opened Ordering
  import opened Models
  import opened Authorization

  const SUPPORTED_RESOURCES: Dict<string, seq<string>> := [
    ("", ["pods", "configmaps", "secrets", "services"]),
    ("apps", ["deployments"]),
    ("batch", ["jobs"]),
    ("coordination.k8s.io", ["leases"])]

  const SUPPORTED_VERBS: seq<string> := ["get", "list", "watch", "create", "update", "patch", "delete"]

  /** The resources catalogued under a group, none for an unknown group. */
  function Catalogued(group: string): seq<string> {
    var found := Lookup(SUPPORTED_RESOURCES, group);
    if found.Some? then found.value else []
  }

  predicate IsSupportedResource(apiGroup: string, resource: string) {
    if apiGroup == "*" then
      resource == "*" || exists entry :: entry in SUPPORTED_RESOURCES && resource in entry.1
    else if Lookup(SUPPORTED_RESOURCES, apiGroup).None? then false
    else resource == "*" || resource in Catalogued(apiGroup)
  }

  /** What the catalog comes to: seven resources in four groups and seven verbs; a wildcard
      stands for anything catalogued, in the group given or in some group. */
  lemma CatalogIs(group: string, resource: string)
    ensures IsSupportedResource(group, resource) <==>
      if group == "*" then
        resource in ["*", "pods", "configmaps", "secrets", "services", "deployments", "jobs", "leases"]
      else if resource == "*" then group in ["", "apps", "batch", "coordination.k8s.io"]
      else
        || (group == "" && resource in ["pods", "configmaps", "secrets", "services"])
        || (group == "apps" && resource == "deployments")
        || (group == "batch" && resource == "jobs")
        || (group == "coordination.k8s.io" && resource == "leases")
    ensures resource in SUPPORTED_VERBS <==>
      resource in {"create", "delete", "get", "list", "patch", "update", "watch"}
  {
    var rest := SUPPORTED_RESOURCES[1..];
    assert rest[0] == ("apps", ["deployments"]) && rest[1..][0] == ("batch", ["jobs"]);
    assert rest[1..][1..][0] == ("coordination.k8s.io", ["leases"]) && rest[1..][1..][1..] == [];
    if group == "*" {
      assert SUPPORTED_RESOURCES[0] in SUPPORTED_RESOURCES && SUPPORTED_RESOURCES[1] in SUPPORTED_RESOURCES;
      assert SUPPORTED_RESOURCES[2] in SUPPORTED_RESOURCES && SUPPORTED_RESOURCES[3] in SUPPORTED_RESOURCES;
    }
  }

  // ---------- Expansion ----------

  function GroupsListing(d: Dict<string, seq<string>>, resource: string): seq<string> {
    if d == [] then []
    else (if resource in d[0].1 then [d[0].0] else []) + GroupsListing(d[1..], resource)
  }

  function GroupName(entry: (string, seq<string>)): string { entry.0 }

  function ExpandedGroups(p: Permission): seq<string> {
    if p.apiGroup == "*" && p.resource != "*" then GroupsListing(SUPPORTED_RESOURCES, p.resource)
    else if p.apiGroup == "*" then Map(GroupName, SUPPORTED_RESOURCES)
    else [p.apiGroup]
  }

  function ExpandedResources(p: Permission, group: string): seq<string> {
    if p.resource == "*" then Catalogued(group) else [p.resource]
  }

  function ExpandedVerbs(p: Permission): seq<string> {
    if p.verb == "*" then SUPPORTED_VERBS else [p.verb]
  }

  function Concrete(p: Permission, group: string, resource: string, verb: string): Permission {
    Permission(group, resource, verb, p.namespace, p.resourceName, p.source)
  }

  function OverVerbs(p: Permission, group: string, resource: string, verbs: seq<string>): seq<Permission> {
    if verbs == [] then []
    else [Concrete(p, group, resource, verbs[0])] + OverVerbs(p, group, resource, verbs[1..])
  }

  function OverResources(p: Permission, group: string, resources: seq<string>): seq<Permission> {
    if resources == [] then []
    else OverVerbs(p, group, resources[0], ExpandedVerbs(p)) + OverResources(p, group, resources[1..])
  }

  function OverGroups(p: Permission, groups: seq<string>): seq<Permission> {
    if groups == [] then []
    else OverResources(p, groups[0], ExpandedResources(p, groups[0])) + OverGroups(p, groups[1..])
  }

  function Expansion(p: Permission): seq<Permission> {
    OverGroups(p, ExpandedGroups(p))
  }

  method AppendVerbs(p: Permission, group: string, resource: string, before: seq<Permission>)
    returns (expanded: seq<Permission>)
    ensures expanded == before + OverVerbs(p, group, resource, ExpandedVerbs(p))
  {
    var verbs := ExpandedVerbs(p);
    expanded := before;
    var k := 0;
    while k < |verbs|
      invariant 0 <= k <= |verbs|
      invariant expanded + OverVerbs(p, group, resource, verbs[k..]) == before + OverVerbs(p, group, resource, verbs)
    {
      expanded := expanded + [Concrete(p, group, resource, verbs[k])];
      k := k + 1;
    }
  }

  method AppendResources(p: Permission, group: string, before: seq<Permission>) returns (expanded: seq<Permission>)
    ensures expanded == before + OverResources(p, group, ExpandedResources(p, group))
  {
    var resources := ExpandedResources(p, group);
    expanded := before;
    var j := 0;
    while j < |resources|
      invariant 0 <= j <= |resources|
      invariant expanded + OverResources(p, group, resources[j..]) == before + OverResources(p, group, resources)
    {
      assert resources[j..][1..] == resources[j + 1..];
      expanded := AppendVerbs(p, group, resources[j], expanded);
      j := j + 1;
    }
  }

  /** `expand_permission`: loops over groups, resources and verbs appending to one list. */
  method ExpandPermission(p: Permission) returns (expanded: seq<Permission>)
    ensures expanded == Expansion(p)
  {
    var groups := ExpandedGroups(p);
    expanded := [];
    hide ExpandedGroups, ExpandedResources, OverResources;
    var i := 0;
    while i < |groups|
      invariant 0 <= i <= |groups|
      invariant expanded + OverGroups(p, groups[i..]) == Expansion(p)
    {
      assert groups[i..][1..] == groups[i + 1..];
      expanded := AppendResources(p, groups[i], expanded);
      i := i + 1;
    }
  }

  function ExpandAll(ps: seq<Permission>): seq<Permission> {
    if ps == [] then [] else Expansion(ps[0]) + ExpandAll(ps[1..])
  }

  function ExpandPolicy(policy: Policy): Policy {
    WithPermissions(policy, ExpandAll(policy.permissions))
  }

  // ---------- What expansion contains ----------

  lemma {:induction false} OverVerbsMembers(p: Permission, g: string, r: string, verbs: seq<string>, q: Permission)
    ensures q in OverVerbs(p, g, r, verbs) <==> exists v :: v in verbs && q == Concrete(p, g, r, v)
  {
    if verbs == [] {
    } else {
      OverVerbsMembers(p, g, r, verbs[1..], q);
      assert verbs == [verbs[0]] + verbs[1..];
    }
  }

  lemma {:induction false} OverResourcesMembers(p: Permission, g: string, rs: seq<string>, q: Permission)
    ensures q in OverResources(p, g, rs) <==>
      q.resource in rs && q.verb in ExpandedVerbs(p) && q == Concrete(p, g, q.resource, q.verb)
  {
    if rs == [] {
    } else {
      OverResourcesMembers(p, g, rs[1..], q);
      OverVerbsMembers(p, g, rs[0], ExpandedVerbs(p), q);
      assert rs == [rs[0]] + rs[1..];
    }
  }

  lemma {:induction false} OverGroupsMembers(p: Permission, gs: seq<string>, q: Permission)
    ensures q in OverGroups(p, gs) <==>
      q.apiGroup in gs && q.resource in ExpandedResources(p, q.apiGroup) && q.verb in ExpandedVerbs(p)
      && q == Concrete(p, q.apiGroup, q.resource, q.verb)
  {
    if gs == [] {
    } else {
      OverGroupsMembers(p, gs[1..], q);
      OverResourcesMembers(p, gs[0], ExpandedResources(p, gs[0]), q);
      assert gs == [gs[0]] + gs[1..];
    }
  }

  lemma {:induction false} GroupsListingMembers(d: Dict<string, seq<string>>, resource: string, g: string)
    ensures g in GroupsListing(d, resource) <==> exists entry :: entry in d && entry.0 == g && resource in entry.1
  {
    if d == [] {
    } else {
      GroupsListingMembers(d[1..], resource, g);
      assert d == [d[0]] + d[1..];
    }
  }

  lemma CatalogIsDict()
    ensures IsDict(SUPPORTED_RESOURCES)
    ensures forall g, r :: r in Catalogued(g) <==>
        exists entry :: entry in SUPPORTED_RESOURCES && entry.0 == g && r in entry.1
    ensures forall g :: g in Map(GroupName, SUPPORTED_RESOURCES) <==> Lookup(SUPPORTED_RESOURCES, g).Some?
  {
    var d := SUPPORTED_RESOURCES;
    assert IsDict(d);
    forall g, r ensures r in Catalogued(g) <==> exists entry :: entry in d && entry.0 == g && r in entry.1 {
      LookupItem(d, g);
    }
    forall g ensures g in Map(GroupName, d) <==> Lookup(d, g).Some? {
      LookupItem(d, g);
      assert Map(GroupName, d) == ["", "apps", "batch", "coordination.k8s.io"];
    }
  }

  /** Group, resource and verb are all in the catalog, with no wildcard. */
  predicate InCatalog(e: KubeEvent) {
    e.resource in Catalogued(e.apiGroup) && e.verb in SUPPORTED_VERBS
  }

  predicate Wildcard(p: Permission) {
    p.apiGroup == "*" || p.resource == "*" || p.verb == "*"
  }

  lemma NoStarInCatalog()
    ensures "*" !in SUPPORTED_VERBS
    ensures Lookup(SUPPORTED_RESOURCES, "*").None?
    ensures forall g :: "*" !in Catalogued(g)
  {
  }

  lemma ExpansionMembers(p: Permission, q: Permission)
    ensures q in Expansion(p) <==>
      && q == Concrete(p, q.apiGroup, q.resource, q.verb)
      && (p.apiGroup != "*" ==> q.apiGroup == p.apiGroup)
      && (p.resource != "*" ==> q.resource == p.resource)
      && (p.verb != "*" ==> q.verb == p.verb)
      && (p.apiGroup == "*" || p.resource == "*" ==> q.resource in Catalogued(q.apiGroup))
      && (p.verb == "*" ==> q.verb in SUPPORTED_VERBS)
  {
    OverGroupsMembers(p, ExpandedGroups(p), q);
    CatalogIsDict();
    GroupsListingMembers(SUPPORTED_RESOURCES, p.resource, q.apiGroup);
  }

  /** Expanding leaves no wildcard behind and never widens a permission. */
  lemma ExpansionShrinks(p: Permission, q: Permission)
    requires q in Expansion(p)
    ensures !Wildcard(q)
    ensures forall e :: Matches(q, e) ==> Matches(p, e)
  {
    ExpansionMembers(p, q);
    NoStarInCatalog();
    CatalogIsDict();
    LookupItem(SUPPORTED_RESOURCES, "*");
    hide Expansion;
    if p.apiGroup == "*" {
      assert Catalogued("*") == [];
    }
  }

  /** On events the catalog knows, an expanded permission grants exactly what it granted. */
  lemma ExpansionKeepsCatalogEvents(p: Permission, e: KubeEvent)
    requires InCatalog(e)
    ensures Grants(Expansion(p), e) <==> Matches(p, e)
  {
    if Grants(Expansion(p), e) {
      var q :| q in Expansion(p) && Matches(q, e);
      ExpansionShrinks(p, q);
    }
    if Matches(p, e) {
      var q := Concrete(p, e.apiGroup, e.resource, e.verb);
      ExpansionMembers(p, q);
      assert q in Expansion(p) && Matches(q, e);
    }
  }

  lemma {:induction false} ExpandAllMembers(ps: seq<Permission>, q: Permission)
    ensures q in ExpandAll(ps) <==> exists p :: p in ps && q in Expansion(p)
  {
    if ps == [] {
    } else {
      ExpandAllMembers(ps[1..], q);
      assert ps == [ps[0]] + ps[1..];
    }
  }

  lemma ExpandAllGrants(ps: seq<Permission>, e: KubeEvent)
    ensures Grants(ExpandAll(ps), e) <==> exists p :: p in ps && Grants(Expansion(p), e)
  {
  }

  /** Expansion preserves a policy's meaning on every catalog event, can only lose authority
      on any other event, and leaves no wildcard. */
  lemma ExpansionPreservesMeaning(policy: Policy, e: KubeEvent)
    ensures InCatalog(e) ==> (IsAuthorized(ExpandPolicy(policy), e) <==> IsAuthorized(policy, e))
    ensures IsAuthorized(ExpandPolicy(policy), e) ==> IsAuthorized(policy, e)
    ensures forall q :: q in ExpandPolicy(policy).permissions ==> !Wildcard(q)
  {
    var ps := policy.permissions;
    AuthorizeMeaning(policy, e);
    AuthorizeMeaning(ExpandPolicy(policy), e);
    AuthorizationDependsOnKeySet(ExpandAll(ps), ExpandAll(ps), e);
    ExpandAllGrants(ps, e);
    forall p | p in ps && Grants(Expansion(p), e) ensures Matches(p, e) {
      var q :| q in Expansion(p) && Matches(q, e);
      ExpansionShrinks(p, q);
    }
    if InCatalog(e) {
      forall p | p in ps && Matches(p, e) ensures Grants(Expansion(p), e) {
        ExpansionKeepsCatalogEvents(p, e);
      }
    }
    NormalizeKeepsLast(ExpandAll(ps));
    forall q | q in ExpandPolicy(policy).permissions ensures !Wildcard(q) {
      assert LastOfItsKey(ExpandAll(ps), q);
      ExpandAllMembers(ps, q);
      var p :| p in ps && q in Expansion(p);
      ExpansionShrinks(p, q);
    }
  }

  /** A permission without wildcards expands to itself alone. */
  lemma ConcreteIsFixed(p: Permission)
    requires !Wildcard(p)
    ensures Expansion(p) == [p]
  {
    assert OverVerbs(p, p.apiGroup, p.resource, [p.verb]) == [p];
    assert OverResources(p, p.apiGroup, [p.resource]) == [p];
    assert OverGroups(p, [p.apiGroup]) == [p];
  }

  lemma {:induction false} ConcreteAllFixed(ps: seq<Permission>)
    requires forall p :: p in ps ==> !Wildcard(p)
    ensures ExpandAll(ps) == ps
  {
    if ps == [] {
    } else {
      ConcreteIsFixed(ps[0]);
      ConcreteAllFixed(ps[1..]);
    }
  }

  /** Expanding twice is expanding once. */
  lemma ExpansionIsIdempotent(policy: Policy)
    ensures ExpandPolicy(ExpandPolicy(policy)) == ExpandPolicy(policy)
  {
    ExpansionPreservesMeaning(policy, KubeEvent("", "", "", None, None, None));
    var ps := ExpandPolicy(policy).permissions;
    ConcreteAllFixed(ps);
    NormalizeIsNormal(ExpandAll(policy.permissions));
    NormalizeFixedIffNormal(ps);
  }
}

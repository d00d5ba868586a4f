/** Joining bindings to roles, and flattening rules back into permissions. */
module Resolver {
  import opened Ordering
  import opened Models
  import opened Authorization
  import opened Documents
  import opened Parser

  predicate Selects(binding: RbacObject, role: RbacObject)
    requires binding.BindingObject? && role.RoleObject?
  {
    && role.name == binding.roleName
    && (|| (binding.roleKind == "ClusterRole" && role.clusterRole)
        || (binding.roleKind == "Role" && !role.clusterRole && role.namespace == binding.namespace))
  }

  ghost predicate WellKinded(parsed: ParsedRbac) {
    (forall o :: o in parsed.roles ==> o.RoleObject?) && (forall o :: o in parsed.bindings ==> o.BindingObject?)
  }

  /** The first role a binding refers to. */
  function SelectedRole(roles: seq<RbacObject>, binding: RbacObject): Option<RbacObject>
    requires binding.BindingObject? && forall o :: o in roles ==> o.RoleObject?
  {
    if roles == [] then None
    else if Selects(binding, roles[0]) then Some(roles[0])
    else SelectedRole(roles[1..], binding)
  }

  function BindingScope(binding: RbacObject): Option<string>
    requires binding.BindingObject?
  {
    if binding.clusterBinding then None else binding.namespace
  }

  function SourceOf(binding: RbacObject): Option<string>
    requires binding.BindingObject?
  {
    Some((if binding.clusterBinding then "ClusterRoleBinding" else "RoleBinding") + "/" + binding.name)
  }

  function AsSome(name: string): Option<string> {
    Some(name)
  }

  /** The names a rule is restricted to, or a single absent name. */
  function RuleNames(rule: PolicyRule): seq<Option<string>> {
    if rule.resourceNames == [] then [None] else Map(AsSome, rule.resourceNames)
  }

  // ---------- The four-way product ----------

  function OverNames(g: string, r: string, v: string, names: seq<Option<string>>, scope: Option<string>,
      source: Option<string>): seq<Permission> {
    if names == [] then [] else [Permission(g, r, v, scope, names[0], source)] + OverNames(g, r, v, names[1..], scope,
        source)
  }

  function OverVerbs(g: string, r: string, vs: seq<string>, names: seq<Option<string>>, scope: Option<string>,
      source: Option<string>): seq<Permission> {
    if vs == [] then [] else OverNames(g, r, vs[0], names, scope, source) + OverVerbs(g, r, vs[1..], names, scope,
        source)
  }

  function OverResources(g: string, rs: seq<string>, vs: seq<string>, names: seq<Option<string>>, scope: Option<string>,
      source: Option<string>): seq<Permission> {
    if rs == [] then [] else OverVerbs(g, rs[0], vs, names, scope, source) + OverResources(g, rs[1..], vs, names,
        scope, source)
  }

  function OverGroups(gs: seq<string>, rs: seq<string>, vs: seq<string>, names: seq<Option<string>>,
      scope: Option<string>, source: Option<string>): seq<Permission> {
    if gs == [] then [] else OverResources(gs[0], rs, vs, names, scope, source) + OverGroups(gs[1..], rs, vs, names,
        scope, source)
  }

  function RulePermissions(rule: PolicyRule, scope: Option<string>, source: Option<string>): seq<Permission> {
    OverGroups(rule.apiGroups, rule.resources, rule.verbs, RuleNames(rule), scope, source)
  }

  function OverRules(rules: seq<PolicyRule>, scope: Option<string>, source: Option<string>): seq<Permission> {
    if rules == [] then [] else RulePermissions(rules[0], scope, source) + OverRules(rules[1..], scope, source)
  }

  /** What one binding contributes for a service account. */
  function BindingPermissions(roles: seq<RbacObject>, binding: RbacObject, account: ServiceAccountRef): seq<Permission>
    requires binding.BindingObject? && forall o :: o in roles ==> o.RoleObject?
  {
    if account !in binding.subjects then []
    else
      match SelectedRole(roles, binding)
      case Some(RoleObject(_, _, rules, _)) => OverRules(rules, BindingScope(binding), SourceOf(binding))
      case _ => []
  }

  function OverBindings(roles: seq<RbacObject>, bindings: seq<RbacObject>, account: ServiceAccountRef): seq<Permission>
    requires (forall o :: o in roles ==> o.RoleObject?) && (forall o :: o in bindings ==> o.BindingObject?)
  {
    if bindings == [] then []
    else BindingPermissions(roles, bindings[0], account) + OverBindings(roles, bindings[1..], account)
  }

  function ResolveEffectivePolicy(parsed: ParsedRbac, account: ServiceAccountRef): Policy
    requires WellKinded(parsed)
  {
    MakePolicy(OverBindings(parsed.roles, parsed.bindings, account), account.name + "-effective", account.name,
        account.namespace)
  }

  // ---------- The loops ----------

  method AppendRule(rule: PolicyRule, scope: Option<string>, source: Option<string>, before: seq<Permission>)
    returns (permissions: seq<Permission>)
    ensures permissions == before + RulePermissions(rule, scope, source)
  {
    hide RuleNames, OverNames;
    var names := RuleNames(rule);
    permissions := before;
    for i := 0 to |rule.apiGroups|
      invariant permissions + OverGroups(rule.apiGroups[i..], rule.resources, rule.verbs, names, scope, source)
        == before + RulePermissions(rule, scope, source)
    {
      assert rule.apiGroups[i..][1..] == rule.apiGroups[i + 1..];
      permissions := AppendGroup(rule, rule.apiGroups[i], scope, source, permissions);
    }
  }

  method AppendGroup(rule: PolicyRule, group: string, scope: Option<string>, source: Option<string>,
      before: seq<Permission>)
    returns (permissions: seq<Permission>)
    ensures permissions == before + OverResources(group, rule.resources, rule.verbs, RuleNames(rule), scope, source)
  {
    hide OverVerbs, RuleNames;
    var names := RuleNames(rule);
    permissions := before;
    for i := 0 to |rule.resources|
      invariant permissions + OverResources(group, rule.resources[i..], rule.verbs, names, scope, source)
        == before + OverResources(group, rule.resources, rule.verbs, names, scope, source)
    {
      assert rule.resources[i..][1..] == rule.resources[i + 1..];
      permissions := AppendResource(rule, group, rule.resources[i], scope, source, permissions);
    }
  }

  method AppendResource(rule: PolicyRule, group: string, resource: string, scope: Option<string>,
      source: Option<string>, before: seq<Permission>)
    returns (permissions: seq<Permission>)
    ensures permissions == before + OverVerbs(group, resource, rule.verbs, RuleNames(rule), scope, source)
  {
    hide RuleNames, OverNames;
    var names := RuleNames(rule);
    permissions := before;
    for i := 0 to |rule.verbs|
      invariant permissions + OverVerbs(group, resource, rule.verbs[i..], names, scope, source)
        == before + OverVerbs(group, resource, rule.verbs, names, scope, source)
    {
      assert rule.verbs[i..][1..] == rule.verbs[i + 1..];
      permissions := AppendVerb(group, resource, rule.verbs[i], names, scope, source, permissions);
    }
  }

  method AppendVerb(group: string, resource: string, verb: string, names: seq<Option<string>>, scope: Option<string>,
      source: Option<string>, before: seq<Permission>)
    returns (permissions: seq<Permission>)
    ensures permissions == before + OverNames(group, resource, verb, names, scope, source)
  {
    permissions := before;
    for i := 0 to |names|
      invariant permissions + OverNames(group, resource, verb, names[i..], scope, source)
        == before + OverNames(group, resource, verb, names, scope, source)
    {
      assert names[i..][1..] == names[i + 1..];
      permissions := permissions + [Permission(group, resource, verb, scope, names[i], source)];
    }
  }

  /** `resolve_effective_policy`: bindings of the account, their selected role, its rules. */
  method Resolve(parsed: ParsedRbac, account: ServiceAccountRef) returns (policy: Policy)
    requires WellKinded(parsed)
    ensures policy == ResolveEffectivePolicy(parsed, account)
  {
    hide BindingPermissions, MakePolicy;
    var permissions: seq<Permission> := [];
    for i := 0 to |parsed.bindings|
      invariant permissions + OverBindings(parsed.roles, parsed.bindings[i..], account)
        == OverBindings(parsed.roles, parsed.bindings, account)
    {
      assert parsed.bindings[i..][1..] == parsed.bindings[i + 1..];
      permissions := AppendBinding(parsed.roles, parsed.bindings[i], account, permissions);
    }
    assert permissions == OverBindings(parsed.roles, parsed.bindings, account);
    policy := MakePolicy(permissions, account.name + "-effective", account.name, account.namespace);
  }

  method AppendBinding(roles: seq<RbacObject>, binding: RbacObject, account: ServiceAccountRef, before: seq<Permission>)
    returns (permissions: seq<Permission>)
    requires binding.BindingObject? && forall o :: o in roles ==> o.RoleObject?
    ensures permissions == before + BindingPermissions(roles, binding, account)
  {
    hide OverRules;
    if account !in binding.subjects {
      return before;
    }
    var role := SelectedRole(roles, binding);
    if role.None? {
      return before;
    }
    SelectedRoleIsRole(roles, binding);
    permissions := AppendRules(role.value.rules, BindingScope(binding), SourceOf(binding), before);
  }

  method AppendRules(rules: seq<PolicyRule>, scope: Option<string>, source: Option<string>, before: seq<Permission>)
    returns (permissions: seq<Permission>)
    ensures permissions == before + OverRules(rules, scope, source)
  {
    hide RulePermissions;
    permissions := before;
    for j := 0 to |rules|
      invariant permissions + OverRules(rules[j..], scope, source) == before + OverRules(rules, scope, source)
    {
      assert rules[j..][1..] == rules[j + 1..];
      permissions := AppendRule(rules[j], scope, source, permissions);
    }
  }

  lemma {:induction false} SelectedRoleIsRole(roles: seq<RbacObject>, binding: RbacObject)
    requires binding.BindingObject? && forall o :: o in roles ==> o.RoleObject?
    ensures var s := SelectedRole(roles, binding); s.Some? ==>
        s.value in roles && s.value.RoleObject? && Selects(binding, s.value)
  {
    if roles == [] {
    } else {
      SelectedRoleIsRole(roles[1..], binding);
    }
  }

  // ---------- What the product contains ----------

  lemma {:induction false} OverNamesMembers(g: string, r: string, v: string, names: seq<Option<string>>,
      scope: Option<string>, source: Option<string>, p: Permission)
    ensures p in OverNames(g, r, v, names, scope, source)
      <==> p.resourceName in names && p == Permission(g, r, v, scope, p.resourceName, source)
  {
    if names == [] {
    } else {
      OverNamesMembers(g, r, v, names[1..], scope, source, p);
      assert names == [names[0]] + names[1..];
    }
  }

  lemma {:induction false} OverVerbsMembers(g: string, r: string, vs: seq<string>, names: seq<Option<string>>,
      scope: Option<string>, source: Option<string>, p: Permission)
    ensures p in OverVerbs(g, r, vs, names, scope, source)
      <==> p.verb in vs && p.resourceName in names && p == Permission(g, r, p.verb, scope, p.resourceName, source)
  {
    if vs == [] {
    } else {
      OverVerbsMembers(g, r, vs[1..], names, scope, source, p);
      OverNamesMembers(g, r, vs[0], names, scope, source, p);
      assert vs == [vs[0]] + vs[1..];
    }
  }

  lemma {:induction false} OverResourcesMembers(g: string, rs: seq<string>, vs: seq<string>, names: seq<Option<string>>,
      scope: Option<string>, source: Option<string>, p: Permission)
    ensures p in OverResources(g, rs, vs, names, scope, source)
      <==> p.resource in rs && p.verb in vs && p.resourceName in names
           && p == Permission(g, p.resource, p.verb, scope, p.resourceName, source)
  {
    if rs == [] {
    } else {
      OverResourcesMembers(g, rs[1..], vs, names, scope, source, p);
      OverVerbsMembers(g, rs[0], vs, names, scope, source, p);
      assert rs == [rs[0]] + rs[1..];
    }
  }

  lemma {:induction false} OverGroupsMembers(gs: seq<string>, rs: seq<string>, vs: seq<string>,
      names: seq<Option<string>>, scope: Option<string>, source: Option<string>, p: Permission)
    ensures p in OverGroups(gs, rs, vs, names, scope, source)
      <==> p.apiGroup in gs && p.resource in rs && p.verb in vs && p.resourceName in names
           && p.namespace == scope && p.source == source
  {
    if gs == [] {
    } else {
      OverGroupsMembers(gs[1..], rs, vs, names, scope, source, p);
      OverResourcesMembers(gs[0], rs, vs, names, scope, source, p);
      assert gs == [gs[0]] + gs[1..];
    }
  }

  lemma {:induction false} OverRulesMembers(rules: seq<PolicyRule>, scope: Option<string>, source: Option<string>,
      p: Permission)
    ensures p in OverRules(rules, scope, source) <==>
        exists rule :: rule in rules && p in RulePermissions(rule, scope, source)
  {
    hide RulePermissions;
    if rules == [] {
    } else {
      OverRulesMembers(rules[1..], scope, source, p);
      assert rules == [rules[0]] + rules[1..];
    }
  }

  lemma {:induction false} OverBindingsMembers(roles: seq<RbacObject>, bindings: seq<RbacObject>,
      account: ServiceAccountRef, p: Permission)
    requires (forall o :: o in roles ==> o.RoleObject?) && (forall o :: o in bindings ==> o.BindingObject?)
    ensures p in OverBindings(roles, bindings, account)
      <==> exists b :: b in bindings && p in BindingPermissions(roles, b, account)
  {
    hide BindingPermissions;
    if bindings == [] {
    } else {
      OverBindingsMembers(roles, bindings[1..], account, p);
      assert bindings == [bindings[0]] + bindings[1..];
    }
  }

  // ---------- The meaning of resolution ----------

  /** A rule allows an event: wildcards in groups, resources and verbs, and a name
      restriction that only named verbs can satisfy. */
  predicate RuleAllows(rule: PolicyRule, e: KubeEvent) {
    && ("*" in rule.apiGroups || e.apiGroup in rule.apiGroups)
    && ("*" in rule.resources || e.resource in rule.resources)
    && ("*" in rule.verbs || e.verb in rule.verbs)
    && (rule.resourceNames == []
        || (e.verb in RESOURCE_NAME_VERBS && e.resourceName.Some? && e.resourceName.value in rule.resourceNames))
  }

  /** A RoleBinding reaches its own namespace only; a ClusterRoleBinding reaches all. */
  predicate InScope(binding: RbacObject, e: KubeEvent)
    requires binding.BindingObject?
  {
    binding.clusterBinding || (binding.namespace.Some? && e.namespace == binding.namespace)
  }

  /** A `Role` reference: the namespaced role of that name in the binding's own namespace. */
  predicate NamesRole(binding: RbacObject, role: RbacObject)
    requires binding.BindingObject? && role.RoleObject?
  {
    binding.roleKind == "Role" && !role.clusterRole && role.name == binding.roleName
    && role.namespace == binding.namespace
  }

  /** A `ClusterRole` reference: the cluster role of that name. */
  predicate NamesClusterRole(binding: RbacObject, role: RbacObject)
    requires binding.BindingObject? && role.RoleObject?
  {
    binding.roleKind == "ClusterRole" && role.clusterRole && role.name == binding.roleName
  }

  predicate RefersTo(binding: RbacObject, role: RbacObject)
    requires binding.BindingObject? && role.RoleObject?
  {
    NamesRole(binding, role) || NamesClusterRole(binding, role)
  }

  /** The role a binding grants: of several with the name it refers to, the first listed. */
  ghost predicate Reaches(roles: seq<RbacObject>, binding: RbacObject, i: int)
    requires binding.BindingObject? && forall o :: o in roles ==> o.RoleObject?
  {
    0 <= i < |roles| && RefersTo(binding, roles[i]) && forall j :: 0 <= j < i ==> !RefersTo(binding, roles[j])
  }

  /** Kubernetes-style meaning, binding by binding. */
  ghost predicate BindingAllows(roles: seq<RbacObject>, binding: RbacObject, account: ServiceAccountRef, e: KubeEvent)
    requires binding.BindingObject? && forall o :: o in roles ==> o.RoleObject?
  {
    && account in binding.subjects
    && InScope(binding, e)
    && exists i :: Reaches(roles, binding, i) && exists rule :: rule in roles[i].rules && RuleAllows(rule, e)
  }

  /** The first role in the list the binding refers to, or none if it refers to none. */
  lemma {:induction false} SelectedRoleReached(roles: seq<RbacObject>, binding: RbacObject)
    requires binding.BindingObject? && forall o :: o in roles ==> o.RoleObject?
    ensures var s := SelectedRole(roles, binding);
      && (s.None? ==> forall i :: !Reaches(roles, binding, i))
      && (s.Some? ==> exists i :: Reaches(roles, binding, i))
      && (forall i :: Reaches(roles, binding, i) ==> s == Some(roles[i]))
  {
    if roles == [] {
    } else if RefersTo(binding, roles[0]) {
      assert Reaches(roles, binding, 0);
    } else {
      SelectedRoleReached(roles[1..], binding);
      forall i | Reaches(roles, binding, i) ensures Reaches(roles[1..], binding, i - 1) {
        assert forall j :: 0 <= j < i - 1 ==> roles[1..][j] == roles[j + 1];
      }
      forall i | Reaches(roles[1..], binding, i) ensures Reaches(roles, binding, i + 1) {
        assert forall j :: 1 <= j <= i + 1 ==> roles[j] == roles[1..][j - 1];
      }
    }
  }

  lemma RuleNamesMembers(rule: PolicyRule, name: Option<string>)
    ensures name in RuleNames(rule) <==>
      if rule.resourceNames == [] then name == None else name.Some? && name.value in rule.resourceNames
  {
  }

  lemma ProductAllowed(rule: PolicyRule, scope: Option<string>, source: Option<string>, p: Permission, e: KubeEvent)
    requires p in RulePermissions(rule, scope, source) && Matches(p, e)
    ensures RuleAllows(rule, e) && (scope.Some? ==> e.namespace == scope)
  {
    OverGroupsMembers(rule.apiGroups, rule.resources, rule.verbs, RuleNames(rule), scope, source, p);
    RuleNamesMembers(rule, p.resourceName);
    hide RuleNames, OverGroups;
  }

  /** The permission of the product that grants an allowed event. */
  function Granting(rule: PolicyRule, scope: Option<string>, source: Option<string>, e: KubeEvent): Permission {
    Permission(
      if "*" in rule.apiGroups then "*" else e.apiGroup,
      if "*" in rule.resources then "*" else e.resource,
      if "*" in rule.verbs then "*" else e.verb,
      scope, if rule.resourceNames == [] then None else e.resourceName, source)
  }

  lemma AllowedIsInProduct(rule: PolicyRule, scope: Option<string>, source: Option<string>, e: KubeEvent)
    requires RuleAllows(rule, e) && (scope.Some? ==> e.namespace == scope)
    ensures Granting(rule, scope, source, e) in RulePermissions(rule, scope, source)
    ensures Matches(Granting(rule, scope, source, e), e)
  {
    var p := Granting(rule, scope, source, e);
    RuleNamesMembers(rule, p.resourceName);
    OverGroupsMembers(rule.apiGroups, rule.resources, rule.verbs, RuleNames(rule), scope, source, p);
    hide RuleNames, OverGroups;
  }

  /** The product of a rule grants exactly what the rule allows, within the scope. */
  lemma RuleMeaning(rule: PolicyRule, scope: Option<string>, source: Option<string>, e: KubeEvent)
    ensures Grants(RulePermissions(rule, scope, source), e)
      <==> RuleAllows(rule, e) && (scope.Some? ==> e.namespace == scope)
  {
    hide RuleAllows, Matches, RulePermissions, Granting;
    if Grants(RulePermissions(rule, scope, source), e) {
      var p :| p in RulePermissions(rule, scope, source) && Matches(p, e);
      ProductAllowed(rule, scope, source, p, e);
    }
    if RuleAllows(rule, e) && (scope.Some? ==> e.namespace == scope) {
      AllowedIsInProduct(rule, scope, source, e);
    }
  }

  lemma RulesMeaning(rules: seq<PolicyRule>, scope: Option<string>, source: Option<string>, e: KubeEvent)
    ensures Grants(OverRules(rules, scope, source), e)
      <==> (exists rule :: rule in rules && RuleAllows(rule, e)) && (scope.Some? ==> e.namespace == scope)
  {
    hide RulePermissions, RuleAllows, Matches;
    var ps := OverRules(rules, scope, source);
    if Grants(ps, e) {
      var p :| p in ps && Matches(p, e);
      OverRulesMembers(rules, scope, source, p);
      var rule :| rule in rules && p in RulePermissions(rule, scope, source);
      assert Grants(RulePermissions(rule, scope, source), e);
      RuleMeaning(rule, scope, source, e);
    }
    if (exists rule :: rule in rules && RuleAllows(rule, e)) && (scope.Some? ==> e.namespace == scope) {
      var rule :| rule in rules && RuleAllows(rule, e);
      RuleMeaning(rule, scope, source, e);
      var p :| p in RulePermissions(rule, scope, source) && Matches(p, e);
      OverRulesMembers(rules, scope, source, p);
    }
  }

  lemma BindingMeaning(roles: seq<RbacObject>, binding: RbacObject, account: ServiceAccountRef, e: KubeEvent)
    requires binding.BindingObject? && SoundObject(binding) && forall o :: o in roles ==> o.RoleObject?
    ensures Grants(BindingPermissions(roles, binding, account), e) <==> BindingAllows(roles, binding, account, e)
  {
    SelectedRoleIsRole(roles, binding);
    SelectedRoleReached(roles, binding);
    hide Reaches, OverRules, Grants, SelectedRole, RuleAllows;
    if SelectedRole(roles, binding).Some? {
      RulesMeaning(SelectedRole(roles, binding).value.rules, BindingScope(binding), SourceOf(binding), e);
    } else {
      assert !Grants([], e) by { NothingGranted(e); }
    }
  }

  lemma NothingGranted(e: KubeEvent)
    ensures !Grants([], e)
  {
  }

  /** Resolution means what the documents say: after a successful parse, an event is
      authorized by the resolved policy exactly when some binding of the service account,
      in scope for the event, has a selected role with a rule allowing it. */
  lemma ResolutionMeaning(documents: seq<Value>, account: ServiceAccountRef, e: KubeEvent)
    requires Parse(documents).Ok?
    ensures WellKinded(Parse(documents).value)
    ensures var parsed := Parse(documents).value;
      IsAuthorized(ResolveEffectivePolicy(parsed, account), e)
      <==> (exists b :: b in parsed.bindings && BindingAllows(parsed.roles, b, account, e))
  {
    hide Parse, SoundObject, BindingAllows, BindingPermissions, Normalize, Matches;
    ParseIsSound(documents);
    var parsed := Parse(documents).value;
    var ps := OverBindings(parsed.roles, parsed.bindings, account);
    AuthorizeMeaning(ResolveEffectivePolicy(parsed, account), e);
    AuthorizationDependsOnKeySet(ps, ps, e);
    if Grants(ps, e) {
      var p :| p in ps && Matches(p, e);
      OverBindingsMembers(parsed.roles, parsed.bindings, account, p);
      var b :| b in parsed.bindings && p in BindingPermissions(parsed.roles, b, account);
      assert Grants(BindingPermissions(parsed.roles, b, account), e);
      BindingMeaning(parsed.roles, b, account, e);
    }
    if b :| b in parsed.bindings && BindingAllows(parsed.roles, b, account, e) {
      BindingMeaning(parsed.roles, b, account, e);
      var p :| p in BindingPermissions(parsed.roles, b, account) && Matches(p, e);
      OverBindingsMembers(parsed.roles, parsed.bindings, account, p);
    }
  }

  // ---------- Which roles matter to a binding ----------

  /** Cluster roles, and the roles of one namespace. */
  function VisibleIn(namespace: Option<string>): RbacObject -> bool {
    (o: RbacObject) => o.RoleObject? && (o.clusterRole || o.namespace == namespace)
  }

  lemma VisibleRoles(roles: seq<RbacObject>, namespace: Option<string>)
    ensures forall o :: o in Kept(VisibleIn(namespace), roles) ==> o.RoleObject?
  {
    forall o | o in Kept(VisibleIn(namespace), roles) ensures o.RoleObject? {
      KeptMembers(VisibleIn(namespace), roles, o);
    }
  }

  lemma {:induction false} SelectedIsVisible(roles: seq<RbacObject>, binding: RbacObject)
    requires binding.BindingObject? && forall o :: o in roles ==> o.RoleObject?
    requires forall o :: o in Kept(VisibleIn(binding.namespace), roles) ==> o.RoleObject?
    ensures SelectedRole(roles, binding) == SelectedRole(Kept(VisibleIn(binding.namespace), roles), binding)
  {
    if roles == [] {
    } else {
      var visible := Kept(VisibleIn(binding.namespace), roles);
      var rest := Kept(VisibleIn(binding.namespace), roles[1..]);
      VisibleRoles(roles[1..], binding.namespace);
      SelectedIsVisible(roles[1..], binding);
      if VisibleIn(binding.namespace)(roles[0]) {
        assert visible == [roles[0]] + rest && visible[1..] == rest;
      } else {
        assert visible == rest;
      }
    }
  }

  /** Roles of other namespaces may be added, removed or moved about without any effect on
      what a binding grants. */
  lemma OtherNamespacesDoNotMatter(roles: seq<RbacObject>, roles': seq<RbacObject>, binding: RbacObject,
      account: ServiceAccountRef)
    requires binding.BindingObject?
    requires (forall o :: o in roles ==> o.RoleObject?) && (forall o :: o in roles' ==> o.RoleObject?)
    requires Kept(VisibleIn(binding.namespace), roles) == Kept(VisibleIn(binding.namespace), roles')
    ensures BindingPermissions(roles, binding, account) == BindingPermissions(roles', binding, account)
  {
    VisibleRoles(roles, binding.namespace);
    SelectedIsVisible(roles, binding);
    SelectedIsVisible(roles', binding);
  }

  // ---------- Where each resolved permission comes from ----------

  /** The key is one the binding spells out for the account: a combination from one rule of
      the role it grants, in the namespace of the binding or in all of them. */
  ghost predicate SpellsOut(roles: seq<RbacObject>, binding: RbacObject, account: ServiceAccountRef, k: PermKey)
    requires binding.BindingObject? && forall o :: o in roles ==> o.RoleObject?
  {
    && account in binding.subjects
    && k.namespace == (if binding.clusterBinding then None else binding.namespace)
    && exists i :: Reaches(roles, binding, i) && exists rule :: rule in roles[i].rules && RuleLists(rule, k)
  }

  predicate RuleLists(rule: PolicyRule, k: PermKey) {
    && k.apiGroup in rule.apiGroups && k.resource in rule.resources && k.verb in rule.verbs
    && if rule.resourceNames == [] then k.resourceName.None?
       else k.resourceName.Some? && k.resourceName.value in rule.resourceNames
  }

  /** The permission a binding contributes under a key. */
  function Contribution(binding: RbacObject, k: PermKey): Permission
    requires binding.BindingObject?
  {
    Permission(k.apiGroup, k.resource, k.verb, k.namespace, k.resourceName,
               Some(if binding.clusterBinding then "ClusterRoleBinding/" + binding.name
                    else "RoleBinding/" + binding.name))
  }

  lemma RuleContributes(rule: PolicyRule, binding: RbacObject, p: Permission)
    requires binding.BindingObject?
    ensures p in RulePermissions(rule, BindingScope(binding), SourceOf(binding)) <==>
      && RuleLists(rule, Key(p)) && p == Contribution(binding, Key(p))
      && p.namespace == if binding.clusterBinding then None else binding.namespace
  {
    OverGroupsMembers(rule.apiGroups, rule.resources, rule.verbs, RuleNames(rule), BindingScope(binding),
        SourceOf(binding), p);
    RuleNamesMembers(rule, p.resourceName);
    hide RuleNames, OverGroups;
    assert SourceOf(binding) == Contribution(binding, Key(p)).source by {
      assert "ClusterRoleBinding" + "/" == "ClusterRoleBinding/" && "RoleBinding" + "/" == "RoleBinding/";
    }
  }

  lemma RulesContribute(rules: seq<PolicyRule>, binding: RbacObject, p: Permission)
    requires binding.BindingObject?
    ensures p in OverRules(rules, BindingScope(binding), SourceOf(binding)) <==>
      && (exists rule :: rule in rules && RuleLists(rule, Key(p)))
      && p == Contribution(binding, Key(p))
      && p.namespace == if binding.clusterBinding then None else binding.namespace
  {
    OverRulesMembers(rules, BindingScope(binding), SourceOf(binding), p);
    forall rule
      ensures p in RulePermissions(rule, BindingScope(binding), SourceOf(binding)) <==>
        && RuleLists(rule, Key(p)) && p == Contribution(binding, Key(p))
        && p.namespace == if binding.clusterBinding then None else binding.namespace
    {
      RuleContributes(rule, binding, p);
    }
    hide RulePermissions, RuleLists, Contribution, Key, BindingScope, SourceOf, OverRules;
    if rule :| rule in rules && RuleLists(rule, Key(p)) {
      assert p in RulePermissions(rule, BindingScope(binding), SourceOf(binding)) <==>
        && p == Contribution(binding, Key(p))
        && p.namespace == if binding.clusterBinding then None else binding.namespace;
    }
  }

  lemma BindingContributes(roles: seq<RbacObject>, binding: RbacObject, account: ServiceAccountRef, p: Permission)
    requires binding.BindingObject? && forall o :: o in roles ==> o.RoleObject?
    ensures p in BindingPermissions(roles, binding, account)
      <==> SpellsOut(roles, binding, account, Key(p)) && p == Contribution(binding, Key(p))
  {
    SelectedRoleIsRole(roles, binding);
    SelectedRoleReached(roles, binding);
    hide Reaches, OverRules, SelectedRole, RuleLists, Contribution;
    if account in binding.subjects && SelectedRole(roles, binding).Some? {
      RulesContribute(SelectedRole(roles, binding).value.rules, binding, p);
    }
  }

  /** The resolved policy spells out exactly what the bindings do, says of each permission
      which binding it came from, and is the account's own. */
  lemma ResolvedPermissions(parsed: ParsedRbac, account: ServiceAccountRef)
    requires WellKinded(parsed)
    ensures var policy := ResolveEffectivePolicy(parsed, account);
      && (forall k :: k in KeySet(policy.permissions) <==>
            exists b :: b in parsed.bindings && SpellsOut(parsed.roles, b, account, k))
      && (forall p :: p in policy.permissions ==>
            exists b :: b in parsed.bindings && SpellsOut(parsed.roles, b, account, Key(p))
              && p == Contribution(b, Key(p)))
      && policy.name == account.name + "-effective"
      && policy.serviceAccount == account.name && policy.serviceAccountNamespace == account.namespace
  {
    var ps := OverBindings(parsed.roles, parsed.bindings, account);
    var policy := ResolveEffectivePolicy(parsed, account);
    NormalizeFacts(ps);
    hide Normalize, OverBindings, BindingPermissions, SpellsOut;
    forall p ensures p in ps <==>
      exists b :: b in parsed.bindings && SpellsOut(parsed.roles, b, account, Key(p)) && p == Contribution(b, Key(p))
    {
      OverBindingsMembers(parsed.roles, parsed.bindings, account, p);
      forall b | b in parsed.bindings
        ensures p in BindingPermissions(parsed.roles, b, account)
          <==> SpellsOut(parsed.roles, b, account, Key(p)) && p == Contribution(b, Key(p))
      {
        BindingContributes(parsed.roles, b, account, p);
      }
    }
    forall k ensures k in KeySet(policy.permissions) <==>
      exists b :: b in parsed.bindings && SpellsOut(parsed.roles, b, account, k)
    {
      if b :| b in parsed.bindings && SpellsOut(parsed.roles, b, account, k) {
        assert Key(Contribution(b, k)) == k;
        assert Contribution(b, k) in ps;
      }
    }
  }

  lemma {:induction false} FirstReached(roles: seq<RbacObject>, binding: RbacObject, i: int) returns (first: int)
    requires binding.BindingObject? && forall o :: o in roles ==> o.RoleObject?
    requires 0 <= i < |roles| && RefersTo(binding, roles[i])
    ensures Reaches(roles, binding, first)
    decreases i
  {
    if j :| 0 <= j < i && RefersTo(binding, roles[j]) {
      first := FirstReached(roles, binding, j);
    } else {
      first := i;
    }
  }

  /** A reference to a listed role is never empty-handed: if all roles it may mean have
      rules, the account gets something. */
  lemma ReferenceGrants(roles: seq<RbacObject>, binding: RbacObject, account: ServiceAccountRef, i: int)
    requires binding.BindingObject? && account in binding.subjects
    requires forall o :: o in roles ==> o.RoleObject? && SoundObject(o)
    requires 0 <= i < |roles| && RefersTo(binding, roles[i])
    requires forall o :: o in roles && RefersTo(binding, o) ==> o.rules != []
    ensures BindingPermissions(roles, binding, account) != []
  {
    hide BindingPermissions, RefersTo;
    var first := FirstReached(roles, binding, i);
    var rule := roles[first].rules[0];
    assert roles[first] in roles && rule in roles[first].rules && SoundRule(rule);
    var k := PermKey(rule.apiGroups[0], rule.resources[0], rule.verbs[0],
      if binding.clusterBinding then None else binding.namespace,
      if rule.resourceNames == [] then None else Some(rule.resourceNames[0]));
    assert RuleLists(rule, k);
    BindingContributes(roles, binding, account, Contribution(binding, k));
  }
}

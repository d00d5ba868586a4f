/** Generating documents, parsing them and resolving them for a service account: exactly
    when that gives the policy back. */
module RoundTrip {
  import opened Ordering
  import opened Models
  import opened Authorization
  import opened Canonicalizer
  import opened Documents
  import opened Parser
  import opened Generator
  import Resolver

  function AccountOf(policy: Policy): ServiceAccountRef {
    ServiceAccountRef(policy.serviceAccount, policy.serviceAccountNamespace)
  }

  /** What the live adapter compares a policy with before letting it reach the cluster: the
      generated documents, parsed and resolved for the adapter's own account. */
  function Recompiled(policy: Policy, account: ServiceAccountRef): Result<Policy, ParseError> {
    match Parse(PolicyDocuments(policy))
    case Err(e) => Err(e)
    case Ok(parsed) =>
      ParseIsSound(PolicyDocuments(policy));
      Ok(Resolver.ResolveEffectivePolicy(parsed, account))
  }

  predicate CompilablePermission(p: Permission) {
    && KnownVerb(p.verb) && IsSupportedResource(p.apiGroup, p.resource)
    && p.namespace != Some("") && p.resourceName != Some("")
  }

  /** Who a binding generated for a scope names: an empty service account namespace is read
      as the binding's own. */
  function SubjectIn(policy: Policy, scope: Option<string>): ServiceAccountRef {
    ServiceAccountRef(policy.serviceAccount,
                      if policy.serviceAccountNamespace != "" then policy.serviceAccountNamespace else OrEmpty(scope))
  }

  /** Supported verbs and resources, optional parts absent or non-empty, and every grant
      bound to `account`, which has a name and a namespace; an empty policy needs nothing. */
  predicate Compilable(policy: Policy, account: ServiceAccountRef) {
    policy.permissions == [] ||
    (&& account.name != "" && account.namespace != ""
     && forall p :: p in policy.permissions ==> CompilablePermission(p) && SubjectIn(policy, p.namespace) == account)
  }

  // ---------- Decoding one rule ----------

  predicate GroupOk(item: RuleGroup) {
    IsSupportedResource(item.0.0, item.0.1) && forall p :: p in item.1 ==> KnownVerb(p.verb)
  }

  function RuleOf(item: RuleGroup): PolicyRule {
    PolicyRule([item.0.0], [item.0.1], SortedVerbs(item.1), if OrEmpty(item.0.2) != "" then [OrEmpty(item.0.2)] else [])
  }

  lemma {:induction false} TextsOfStrings(ss: seq<string>)
    ensures AllStrings(Map(AsStr, ss)) && Texts(Map(AsStr, ss)) == ss
  {
    if ss == [] {
    } else {
      TextsOfStrings(ss[1..]);
      assert Map(AsStr, ss) == [Str(ss[0])] + Map(AsStr, ss[1..]);
    }
  }

  lemma StringsOfList(ss: seq<string>, field: string, allowEmpty: bool)
    ensures Strings(StrList(ss), field, allowEmpty).Ok? <==> ss != [] && (allowEmpty || "" !in ss)
    ensures Strings(StrList(ss), field, allowEmpty).Ok? ==> Strings(StrList(ss), field, allowEmpty).value == ss
  {
    TextsOfStrings(ss);
  }

  lemma SortedVerbsMembers(ps: seq<Permission>)
    ensures forall v :: v in SortedVerbs(ps) <==> exists p :: p in ps && p.verb == v
    ensures ps != [] ==> SortedVerbs(ps) != []
  {
    var vs := Map(VerbOf, ps);
    FirstSeenFacts(vs);
    SortByIsSorted(Itself, FirstSeen(vs));
    forall v ensures v in SortedVerbs(ps) <==> exists p :: p in ps && p.verb == v {
      assert v in SortedVerbs(ps) <==> v in vs;
      if v in vs {
        var i :| 0 <= i < |vs| && vs[i] == v;
        assert ps[i] in ps && ps[i].verb == v;
      }
      if p :| p in ps && p.verb == v {
        var i :| 0 <= i < |ps| && ps[i] == p;
        assert vs[i] == v;
      }
    }
    if ps != [] {
      assert vs[0] in vs;
    }
  }

  lemma EmptyIsUnsupported()
    ensures !KnownVerb("") && forall g :: !IsSupportedResource(g, "")
  {
  }

  lemma NamesOfRule(item: RuleGroup)
    ensures ResourceNames(GetOr(RuleValue(item).fields, "resourceNames", List([]))) == Ok(RuleOf(item).resourceNames)
  {
    var names := RuleOf(item).resourceNames;
    TextsOfStrings(names);
    assert Texts([]) == [];
  }

  lemma FieldsOfRule(item: RuleGroup)
    ensures RuleValue(item).Mapping?
    ensures var f := RuleValue(item).fields;
      && GetOr(f, "apiGroups", List([Str("")])) == StrList([item.0.0])
      && Get(f, "resources") == StrList([item.0.1])
      && Get(f, "verbs") == StrList(SortedVerbs(item.1))
  {
  }

  /** A generated rule parses exactly when its verbs and resource are supported. */
  lemma RuleDecodes(item: RuleGroup)
    requires item.1 != []
    ensures Rule(RuleValue(item)).Ok? <==> GroupOk(item)
    ensures Rule(RuleValue(item)).Ok? ==> Rule(RuleValue(item)).value == RuleOf(item)
  {
    FieldsOfRule(item);
    NamesOfRule(item);
    SortedVerbsMembers(item.1);
    EmptyIsUnsupported();
    var verbs := SortedVerbs(item.1);
    StringsOfList([item.0.0], "apiGroups", true);
    StringsOfList([item.0.1], "resources", false);
    StringsOfList(verbs, "verbs", false);
    FirstUnknownVerbFacts(verbs);
    FirstUnsupportedFacts([item.0.0], [item.0.1]);
    hide RuleValue, IsSupportedResource, Strings, SortedVerbs, KnownVerb, FirstUnknownVerb, FirstUnsupported;
    assert forall x: string, y: string :: x in [y] <==> x == y;
    assert FirstUnsupported([item.0.0], [item.0.1]).None? <==> IsSupportedResource(item.0.0, item.0.1);
    if "" in verbs {
      var p :| p in item.1 && p.verb == "";
      assert !KnownVerb(p.verb);
    }
    assert (forall v :: v in verbs ==> KnownVerb(v)) <==> forall p :: p in item.1 ==> KnownVerb(p.verb);
  }

  lemma {:induction false} RuleListDecodes(items: seq<RuleGroup>)
    requires forall item :: item in items ==> item.1 != []
    ensures RuleList(Map(RuleValue, items)).Ok? <==> forall item :: item in items ==> GroupOk(item)
    ensures RuleList(Map(RuleValue, items)).Ok? ==> RuleList(Map(RuleValue, items)).value == Map(RuleOf, items)
  {
    hide Rule, RuleOf, RuleValue, GroupOk;
    if items == [] {
    } else {
      assert items[0] in items;
      assert forall item :: item in items <==> item == items[0] || item in items[1..];
      RuleDecodes(items[0]);
      RuleListDecodes(items[1..]);
      assert Map(RuleValue, items)[1..] == Map(RuleValue, items[1..]);
    }
  }

  lemma RuleGroupsFacts(ps: seq<Permission>)
    ensures forall item :: item in RuleGroups(ps) ==> item.1 != []
    ensures forall item, p :: item in RuleGroups(ps) ==> (p in item.1 <==> p in ps && RuleKeyOf(p) == item.0)
    ensures forall p :: p in ps ==> exists item :: item in RuleGroups(ps) && item.0 == RuleKeyOf(p) && p in item.1
  {
    var d := GroupBy(RuleKeyOf, ps);
    hide SortBy, GroupBy;
    GroupsPartition(RuleKeyOf, ps);
    GroupsNonEmpty(RuleKeyOf, ps);
    forall item ensures item in RuleGroups(ps) <==> item in d {
      SortByMember(RuleSortKey, d, item);
    }
  }

  predicate RulesOk(ps: seq<Permission>) {
    forall p :: p in ps ==> KnownVerb(p.verb) && IsSupportedResource(p.apiGroup, p.resource)
  }

  lemma RulesDecode(ps: seq<Permission>)
    ensures Rules(List(RuleValues(ps))).Ok? <==> RulesOk(ps)
    ensures Rules(List(RuleValues(ps))).Ok? ==> Rules(List(RuleValues(ps))).value == Map(RuleOf, RuleGroups(ps))
  {
    hide RuleGroups, RuleOf, RuleValue, RuleList, RulesOk, GroupOk;
    RuleGroupsFacts(ps);
    RuleListDecodes(RuleGroups(ps));
    GroupsOkIff(ps);
  }

  lemma GroupsOkIff(ps: seq<Permission>)
    ensures RulesOk(ps) <==> forall item :: item in RuleGroups(ps) ==> GroupOk(item)
  {
    hide RuleGroups, KnownVerb, IsSupportedResource;
    RuleGroupsFacts(ps);
    if RulesOk(ps) {
      forall item | item in RuleGroups(ps) ensures GroupOk(item) {
        assert item.1[0] in item.1;
        assert RuleKeyOf(item.1[0]) == item.0;
      }
    }
    if forall item :: item in RuleGroups(ps) ==> GroupOk(item) {
      forall p | p in ps ensures KnownVerb(p.verb) && IsSupportedResource(p.apiGroup, p.resource) {
        var item :| item in RuleGroups(ps) && item.0 == RuleKeyOf(p) && p in item.1;
        assert GroupOk(item);
      }
    }
  }

  // ---------- Decoding one scope ----------

  function RoleOf(policy: Policy, scope: Scope): (role: RbacObject)
    ensures role.RoleObject?
  {
    RoleObject(RoleName(policy, scope), scope.0, Map(RuleOf, RuleGroups(scope.1)), scope.0.None?)
  }

  function SubjectOf(policy: Policy, scope: Scope): ServiceAccountRef {
    SubjectIn(policy, scope.0)
  }

  function BindingOf(policy: Policy, scope: Scope): (binding: RbacObject)
    ensures binding.BindingObject?
  {
    BindingObject(RoleName(policy, scope) + "-binding", scope.0, RoleName(policy, scope), RoleKind(scope),
                  [SubjectOf(policy, scope)], scope.0.None?)
  }

  lemma MetadataDecodes(f: Fields, name: string, namespace: Option<string>)
    requires name != "" && Get(f, "metadata") == MetadataValue(name, namespace)
    ensures Metadata(f) == Ok((name, if OrEmpty(namespace) != "" then namespace else None))
  {
  }

  lemma RoleDecodes(policy: Policy, scope: Scope)
    ensures Decode(RoleFields(policy, scope)).Ok? <==> scope.0 != Some("") && RulesOk(scope.1)
    ensures Decode(RoleFields(policy, scope)).Ok? ==> Decode(RoleFields(policy, scope)).value == RoleOf(policy, scope)
  {
    RulesDecode(scope.1);
    hide RuleValues, Rules, RulesOk, RuleOf, RuleGroups;
    var f := RoleFields(policy, scope);
    assert RoleName(policy, scope)[|policy.name|] == '-';
    MetadataDecodes(f, RoleName(policy, scope), scope.0);
    assert Get(f, "kind") == Str(RoleKind(scope));
    assert GetOr(f, "rules", List([])) == List(RuleValues(scope.1));
  }

  lemma SubjectsDecode(policy: Policy, scope: Scope, namespace: Option<string>)
    requires scope.0 != Some("") && namespace == scope.0
    ensures var r := SubjectList(BindingFields(policy, scope)["subjects"].items, namespace);
      && (r.Ok? <==> SubjectOf(policy, scope).name != "" && SubjectOf(policy, scope).namespace != "")
      && (r.Ok? ==> r.value == [SubjectOf(policy, scope)])
  {
  }

  lemma RoleRefDecodes(policy: Policy, scope: Scope)
    ensures RoleRef(Get(BindingFields(policy, scope), "roleRef")) == Ok((RoleKind(scope), RoleName(policy, scope)))
  {
  }

  lemma BindingDecodes(policy: Policy, scope: Scope)
    ensures Decode(BindingFields(policy, scope)).Ok? <==>
      scope.0 != Some("") && SubjectOf(policy, scope).name != "" && SubjectOf(policy, scope).namespace != ""
    ensures Decode(BindingFields(policy, scope)).Ok? ==>
        Decode(BindingFields(policy, scope)).value == BindingOf(policy, scope)
  {
    hide Metadata, RoleRef, SubjectList, RoleName, SubjectOf, MetadataValue;
    var f := BindingFields(policy, scope);
    BindingFieldsRead(policy, scope);
    RoleRefDecodes(policy, scope);
    if scope.0 != Some("") {
      SubjectsDecode(policy, scope, scope.0);
    }
  }

  lemma BindingFieldsRead(policy: Policy, scope: Scope)
    ensures var f := BindingFields(policy, scope);
      && Get(f, "kind") == Str(if scope.0.None? then "ClusterRoleBinding" else "RoleBinding")
      && "subjects" in f && f["subjects"].List? && GetOr(f, "subjects", List([])) == f["subjects"]
      && Metadata(f) == Ok((RoleName(policy, scope) + "-binding", if OrEmpty(scope.0) != "" then scope.0 else None))
  {
  }

  // ---------- Decoding the whole policy ----------

  predicate ScopeOk(policy: Policy, scope: Scope) {
    && scope.0 != Some("") && RulesOk(scope.1)
    && SubjectOf(policy, scope).name != "" && SubjectOf(policy, scope).namespace != ""
  }

  function ScopeRoles(policy: Policy, scopes: seq<Scope>): seq<RbacObject> {
    if scopes == [] then [] else [RoleOf(policy, scopes[0])] + ScopeRoles(policy, scopes[1..])
  }

  function ScopeBindings(policy: Policy, scopes: seq<Scope>): seq<RbacObject> {
    if scopes == [] then [] else [BindingOf(policy, scopes[0])] + ScopeBindings(policy, scopes[1..])
  }

  lemma {:induction false} FlattenMappings(fs: seq<Fields>)
    requires forall f :: f in fs ==> Get(f, "kind") != Str("List")
    ensures Flatten(Map(AsMapping, fs)) == Ok(fs)
  {
    if fs == [] {
    } else {
      FlattenMappings(fs[1..]);
      assert Map(AsMapping, fs)[1..] == Map(AsMapping, fs[1..]);
      assert fs == [fs[0]] + fs[1..];
    }
  }

  lemma {:induction false} NoLists(policy: Policy, scopes: seq<Scope>)
    ensures forall f :: f in ScopeFields(policy, scopes) ==> Get(f, "kind") != Str("List")
  {
    if scopes == [] {
    } else {
      NoLists(policy, scopes[1..]);
      assert Get(RoleFields(policy, scopes[0]), "kind") != Str("List");
      assert Get(BindingFields(policy, scopes[0]), "kind") != Str("List");
    }
  }

  lemma {:induction false} ScopesDecode(policy: Policy, scopes: seq<Scope>, parsed: ParsedRbac)
    ensures var r := DecodeAll(ScopeFields(policy, scopes), parsed);
      && (r.Ok? <==> forall scope :: scope in scopes ==> ScopeOk(policy, scope))
      && (r.Ok? ==> r.value == parsed.(roles := parsed.roles + ScopeRoles(policy, scopes),
                                       bindings := parsed.bindings + ScopeBindings(policy, scopes)))
  {
    hide Decode, RoleFields, BindingFields, RoleOf, BindingOf, RulesOk, SubjectOf;
    if scopes == [] {
    } else {
      var s := scopes[0];
      assert s in scopes;
      assert forall scope :: scope in scopes <==> scope == s || scope in scopes[1..];
      RoleDecodes(policy, s);
      BindingDecodes(policy, s);
      OneScopeDecodes(policy, scopes, parsed);
      if ScopeOk(policy, s) {
        ScopesDecode(policy, scopes[1..], Include(Include(parsed, RoleOf(policy, s)), BindingOf(policy, s)));
        assert (parsed.roles + [RoleOf(policy, s)]) + ScopeRoles(policy,
            scopes[1..]) == parsed.roles + ScopeRoles(policy, scopes);
        assert (parsed.bindings + [BindingOf(policy, s)]) + ScopeBindings(policy, scopes[1..])
          == parsed.bindings + ScopeBindings(policy, scopes);
      }
    }
  }

  lemma OneScopeDecodes(policy: Policy, scopes: seq<Scope>, parsed: ParsedRbac)
    requires scopes != []
    ensures var (role, binding) := (Decode(RoleFields(policy, scopes[0])), Decode(BindingFields(policy, scopes[0])));
      DecodeAll(ScopeFields(policy, scopes), parsed) ==
        if role.Err? then Err(role.error)
        else if binding.Err? then Err(binding.error)
        else DecodeAll(ScopeFields(policy, scopes[1..]), Include(Include(parsed, role.value), binding.value))
  {
  }

  /** The generated documents parse exactly when every scope is in order, and then to one
      role and one binding per scope. */
  lemma PolicyParses(policy: Policy)
    ensures var scopes := Scopes(policy.permissions); var r := Parse(PolicyDocuments(policy));
      && (r.Ok? <==> forall scope :: scope in scopes ==> ScopeOk(policy, scope))
      && (r.Ok? ==> r.value == ParsedRbac([], ScopeRoles(policy, scopes), ScopeBindings(policy, scopes)))
  {
    hide ScopeFields, DecodeAll, ScopeOk;
    var scopes := Scopes(policy.permissions);
    NoLists(policy, scopes);
    FlattenMappings(ScopeFields(policy, scopes));
    ScopesDecode(policy, scopes, NOTHING_PARSED);
    assert [] + ScopeRoles(policy, scopes) == ScopeRoles(policy, scopes);
    assert [] + ScopeBindings(policy, scopes) == ScopeBindings(policy, scopes);
  }

  // ---------- Resolving what was generated ----------

  lemma {:induction false} ScopeRolesMembers(policy: Policy, scopes: seq<Scope>, o: RbacObject)
    ensures o in ScopeRoles(policy, scopes) <==> exists s :: s in scopes && o == RoleOf(policy, s)
  {
    hide RoleOf;
    if scopes == [] {
    } else {
      ScopeRolesMembers(policy, scopes[1..], o);
      assert scopes == [scopes[0]] + scopes[1..];
    }
  }

  lemma {:induction false} ScopeBindingsMembers(policy: Policy, scopes: seq<Scope>, o: RbacObject)
    ensures o in ScopeBindings(policy, scopes) <==> exists s :: s in scopes && o == BindingOf(policy, s)
  {
    hide BindingOf;
    if scopes == [] {
    } else {
      ScopeBindingsMembers(policy, scopes[1..], o);
      assert scopes == [scopes[0]] + scopes[1..];
    }
  }

  ghost predicate ScopesDistinct(scopes: seq<Scope>) {
    forall s, t :: s in scopes && t in scopes && s.0 == t.0 ==> s == t
  }

  lemma ScopesFacts(ps: seq<Permission>)
    ensures ScopesDistinct(Scopes(ps))
    ensures forall s, p :: s in Scopes(ps) ==> (p in s.1 <==> p in ps && p.namespace == s.0)
    ensures forall p :: p in ps ==> exists s :: s in Scopes(ps) && s.0 == p.namespace && p in s.1
    ensures forall s :: s in Scopes(ps) ==> s.1 != []
  {
    var d := GroupBy(NamespaceOf, ps);
    hide SortBy, GroupBy;
    GroupsPartition(NamespaceOf, ps);
    GroupsNonEmpty(NamespaceOf, ps);
    forall s ensures s in Scopes(ps) <==> s in d {
      SortByMember(ScopeSortKey, d, s);
    }
    forall s, p | s in Scopes(ps) ensures p in s.1 <==> p in ps && p.namespace == s.0 {
      assert p in s.1 <==> p in ps && NamespaceOf(p) == s.0;
    }
    forall p | p in ps ensures exists s :: s in Scopes(ps) && s.0 == p.namespace && p in s.1 {
      GroupOf(NamespaceOf, ps, p);
      var s :| s in d && s.0 == NamespaceOf(p) && p in s.1;
      assert s in Scopes(ps);
    }
    forall s, t | s in Scopes(ps) && t in Scopes(ps) && s.0 == t.0 ensures s == t {
      GroupItem(NamespaceOf, ps, s);
      GroupItem(NamespaceOf, ps, t);
    }
  }

  lemma {:induction false} SelectedExists(roles: seq<RbacObject>, binding: RbacObject, role: RbacObject)
    requires binding.BindingObject? && forall o :: o in roles ==> o.RoleObject?
    requires role in roles && Resolver.Selects(binding, role)
    ensures Resolver.SelectedRole(roles, binding).Some?
  {
    if Resolver.Selects(binding, roles[0]) {
    } else {
      assert role in roles[1..];
      SelectedExists(roles[1..], binding, role);
    }
  }

  lemma RolesAreRoles(policy: Policy, scopes: seq<Scope>)
    ensures forall o :: o in ScopeRoles(policy, scopes) ==> o.RoleObject?
    ensures forall o :: o in ScopeBindings(policy, scopes) ==> o.BindingObject?
  {
  }

  /** Each generated binding selects the role generated with it, even when a namespace is
      called "cluster" or shares a role name with another scope. */
  lemma BindingFindsItsRole(policy: Policy, scopes: seq<Scope>, s: Scope)
    requires ScopesDistinct(scopes) && s in scopes
    ensures forall o :: o in ScopeRoles(policy, scopes) ==> o.RoleObject?
    ensures Resolver.SelectedRole(ScopeRoles(policy, scopes), BindingOf(policy, s)) == Some(RoleOf(policy, s))
  {
    RolesAreRoles(policy, scopes);
    var roles := ScopeRoles(policy, scopes);
    var b := BindingOf(policy, s);
    ScopeRolesMembers(policy, scopes, RoleOf(policy, s));
    assert Resolver.Selects(b, RoleOf(policy, s));
    SelectedExists(roles, b, RoleOf(policy, s));
    Resolver.SelectedRoleIsRole(roles, b);
    var found := Resolver.SelectedRole(roles, b).value;
    ScopeRolesMembers(policy, scopes, found);
    var t :| t in scopes && found == RoleOf(policy, t);
    assert t.0 == s.0;
  }

  /** Flattening the rules of one scope gives back the keys of that scope: the product
      never mixes groups, resources, verbs or names. */
  lemma ScopeKeys(ps: seq<Permission>, scope: Option<string>, source: Option<string>)
    requires forall p :: p in ps ==> p.namespace == scope && p.resourceName != Some("")
    ensures KeySet(Resolver.OverRules(Map(RuleOf, RuleGroups(ps)), scope, source)) == KeySet(ps)
  {
    var rules := Map(RuleOf, RuleGroups(ps));
    var out := Resolver.OverRules(rules, scope, source);
    forall k | k in KeySet(out) ensures k in KeySet(ps) {
      var p :| p in out && Key(p) == k;
      var q := OutputHasOrigin(ps, scope, source, p);
      assert Key(q) in KeySet(ps);
    }
    forall k | k in KeySet(ps) ensures k in KeySet(out) {
      var q :| q in ps && Key(q) == k;
      OriginIsOutput(ps, scope, source, q);
      assert Key(q.(source := source)) in KeySet(out);
    }
  }

  lemma RuleOfProduct(item: RuleGroup, scope: Option<string>, source: Option<string>, p: Permission)
    requires item.0.2 != Some("")
    ensures p in Resolver.RulePermissions(RuleOf(item), scope, source) <==>
      && RuleKeyOf(p) == item.0 && p.namespace == scope && p.source == source
      && exists q :: q in item.1 && q.verb == p.verb
  {
    var rule := RuleOf(item);
    Resolver.OverGroupsMembers(rule.apiGroups, rule.resources, rule.verbs, Resolver.RuleNames(rule), scope, source, p);
    Resolver.RuleNamesMembers(rule, p.resourceName);
    SortedVerbsMembers(item.1);
    hide SortedVerbs;
  }

  lemma OutputHasOrigin(ps: seq<Permission>, scope: Option<string>, source: Option<string>, p: Permission)
    returns (q: Permission)
    requires forall x :: x in ps ==> x.namespace == scope && x.resourceName != Some("")
    requires p in Resolver.OverRules(Map(RuleOf, RuleGroups(ps)), scope, source)
    ensures q in ps && Key(q) == Key(p)
  {
    hide RuleOf, RuleGroups, Resolver.RulePermissions;
    var items := RuleGroups(ps);
    var rules := Map(RuleOf, items);
    Resolver.OverRulesMembers(rules, scope, source, p);
    var rule :| rule in rules && p in Resolver.RulePermissions(rule, scope, source);
    var i :| 0 <= i < |rules| && rules[i] == rule;
    var item := items[i];
    RuleGroupsFacts(ps);
    assert item in items;
    assert item.1[0] in item.1;
    assert item.0 == RuleKeyOf(item.1[0]);
    RuleOfProduct(item, scope, source, p);
    q :| q in item.1 && q.verb == p.verb;
    assert RuleKeyOf(q) == RuleKeyOf(p);
  }

  lemma OriginIsOutput(ps: seq<Permission>, scope: Option<string>, source: Option<string>, q: Permission)
    requires q in ps && q.namespace == scope && q.resourceName != Some("")
    ensures q.(source := source) in Resolver.OverRules(Map(RuleOf, RuleGroups(ps)), scope, source)
  {
    hide RuleOf, RuleGroups, Resolver.RulePermissions;
    var items := RuleGroups(ps);
    RuleGroupsFacts(ps);
    var item :| item in items && item.0 == RuleKeyOf(q) && q in item.1;
    var i :| 0 <= i < |items| && items[i] == item;
    var rules := Map(RuleOf, items);
    assert rules[i] == RuleOf(item);
    var p := q.(source := source);
    RuleOfProduct(item, scope, source, p);
    assert q in item.1 && q.verb == p.verb;
    Resolver.OverRulesMembers(rules, scope, source, p);
  }

  lemma BindingKeys(policy: Policy, account: ServiceAccountRef, scopes: seq<Scope>, s: Scope)
    requires ScopesDistinct(scopes) && s in scopes && SubjectOf(policy, s) == account
    requires forall p :: p in s.1 ==> p.namespace == s.0 && p.resourceName != Some("")
    ensures KeySet(FromScope(policy, account, scopes, s)) == KeySet(s.1)
  {
    BindingFindsItsRole(policy, scopes, s);
    var b := BindingOf(policy, s);
    ScopeKeys(s.1, s.0, Resolver.SourceOf(b));
    assert account in b.subjects;
    hide RuleGroups, RuleOf, Resolver.OverRules, KeySet;
  }

  /** The permissions the resolver collects from the generated documents. */
  function Collected(policy: Policy, account: ServiceAccountRef): seq<Permission> {
    var scopes := Scopes(policy.permissions);
    RolesAreRoles(policy, scopes);
    Resolver.OverBindings(ScopeRoles(policy, scopes), ScopeBindings(policy, scopes), account)
  }

  /** What one generated pair contributes. */
  function FromScope(policy: Policy, account: ServiceAccountRef, scopes: seq<Scope>, s: Scope): seq<Permission> {
    RolesAreRoles(policy, scopes);
    Resolver.BindingPermissions(ScopeRoles(policy, scopes), BindingOf(policy, s), account)
  }

  lemma CollectedFrom(policy: Policy, account: ServiceAccountRef, p: Permission)
    ensures var scopes := Scopes(policy.permissions);
      (p in Collected(policy, account) <==> exists s :: s in scopes && p in FromScope(policy, account, scopes, s))
  {
    var scopes := Scopes(policy.permissions);
    var roles := ScopeRoles(policy, scopes);
    RolesAreRoles(policy, scopes);
    hide BindingOf, Resolver.BindingPermissions;
    Resolver.OverBindingsMembers(roles, ScopeBindings(policy, scopes), account, p);
    if p in Collected(policy, account) {
      var b :| b in ScopeBindings(policy, scopes) && p in Resolver.BindingPermissions(roles, b, account);
      ScopeBindingsMembers(policy, scopes, b);
    }
    if s :| s in scopes && p in FromScope(policy, account, scopes, s) {
      ScopeBindingsMembers(policy, scopes, BindingOf(policy, s));
    }
  }

  /** A pair contributes grants in its own scope, and only to the account it names. */
  lemma FromScopeFacts(policy: Policy, account: ServiceAccountRef, scopes: seq<Scope>, s: Scope, p: Permission)
    requires p in FromScope(policy, account, scopes, s)
    ensures p.namespace == s.0 && SubjectOf(policy, s) == account
  {
    RolesAreRoles(policy, scopes);
    var b := BindingOf(policy, s);
    Resolver.SelectedRoleIsRole(ScopeRoles(policy, scopes), b);
    var rules := Resolver.SelectedRole(ScopeRoles(policy, scopes), b).value.rules;
    Resolver.OverRulesMembers(rules, s.0, Resolver.SourceOf(b), p);
    var rule :| rule in rules && p in Resolver.RulePermissions(rule, s.0, Resolver.SourceOf(b));
    Resolver.OverGroupsMembers(rule.apiGroups, rule.resources, rule.verbs, Resolver.RuleNames(rule), s.0,
                               Resolver.SourceOf(b), p);
  }

  ghost predicate AllBoundTo(policy: Policy, account: ServiceAccountRef) {
    forall p :: p in policy.permissions ==> p.resourceName != Some("") && SubjectIn(policy, p.namespace) == account
  }

  lemma CollectedKeys(policy: Policy, account: ServiceAccountRef)
    requires AllBoundTo(policy, account)
    ensures KeySet(Collected(policy, account)) == KeySet(policy.permissions)
  {
    var ps := policy.permissions;
    hide Collected;
    forall k | k in KeySet(Collected(policy, account)) ensures k in KeySet(ps) {
      CollectedIsOriginal(policy, account, k);
    }
    forall k | k in KeySet(ps) ensures k in KeySet(Collected(policy, account)) {
      OriginalIsCollected(policy, account, k);
    }
  }

  lemma CollectedIsOriginal(policy: Policy, account: ServiceAccountRef, k: PermKey)
    requires AllBoundTo(policy, account) && k in KeySet(Collected(policy, account))
    ensures k in KeySet(policy.permissions)
  {
    hide Scopes, Collected, FromScope;
    var scopes := Scopes(policy.permissions);
    ScopesFacts(policy.permissions);
    var p :| p in Collected(policy, account) && Key(p) == k;
    CollectedFrom(policy, account, p);
    var s :| s in scopes && p in FromScope(policy, account, scopes, s);
    FromScopeFacts(policy, account, scopes, s, p);
    BindingKeys(policy, account, scopes, s);
    assert k in KeySet(s.1);
    var q :| q in s.1 && Key(q) == k;
    assert q in policy.permissions;
  }

  lemma OriginalIsCollected(policy: Policy, account: ServiceAccountRef, k: PermKey)
    requires AllBoundTo(policy, account) && k in KeySet(policy.permissions)
    ensures k in KeySet(Collected(policy, account))
  {
    hide Scopes, Collected, FromScope;
    var scopes := Scopes(policy.permissions);
    ScopesFacts(policy.permissions);
    var q :| q in policy.permissions && Key(q) == k;
    var s :| s in scopes && s.0 == q.namespace && q in s.1;
    BindingKeys(policy, account, scopes, s);
    assert k in KeySet(s.1);
    var p :| p in FromScope(policy, account, scopes, s) && Key(p) == k;
    CollectedFrom(policy, account, p);
  }

  // ---------- Exactly when the round trip holds ----------

  /** The generated documents parse exactly when every permission may be compiled, bar an
      empty resource name, and its binding names somebody. */
  lemma ScopesOkIff(policy: Policy)
    ensures (forall s :: s in Scopes(policy.permissions) ==> ScopeOk(policy, s)) <==>
      forall p :: p in policy.permissions ==> PermissionOk(policy, p)
  {
    var ps := policy.permissions;
    ScopesFacts(ps);
    hide Scopes, KnownVerb, IsSupportedResource, SubjectIn;
    if forall s :: s in Scopes(ps) ==> ScopeOk(policy, s) {
      forall p | p in ps ensures PermissionOk(policy, p) {
        var s :| s in Scopes(ps) && s.0 == p.namespace && p in s.1;
        assert ScopeOk(policy, s);
      }
    }
    if forall p :: p in ps ==> PermissionOk(policy, p) {
      forall s: Scope | s in Scopes(ps) ensures ScopeOk(policy, s) {
        assert s.1[0] in s.1;
        assert s.1[0] in ps && s.1[0].namespace == s.0;
        assert forall p :: p in s.1 ==> p in ps;
      }
    }
  }

  predicate PermissionOk(policy: Policy, p: Permission) {
    && KnownVerb(p.verb) && IsSupportedResource(p.apiGroup, p.resource) && p.namespace != Some("")
    && SubjectIn(policy, p.namespace).name != "" && SubjectIn(policy, p.namespace).namespace != ""
  }

  ghost predicate GivesBack(policy: Policy, account: ServiceAccountRef) {
    && Recompiled(policy, account).Ok?
    && KeySet(Recompiled(policy, account).value.permissions) == KeySet(policy.permissions)
  }

  lemma RecompiledKeys(policy: Policy, account: ServiceAccountRef)
    requires Recompiled(policy, account).Ok?
    ensures KeySet(Recompiled(policy, account).value.permissions) == KeySet(Collected(policy, account))
    ensures Recompiled(policy, account).value.permissions == Normalize(Collected(policy, account))
  {
    hide PolicyDocuments, Normalize, KeySet;
    PolicyParses(policy);
    NormalizeKeySet(Collected(policy, account));
  }

  /** A name restriction that is the empty string is dropped by the generator, so its key
      never comes back. */
  lemma EmptyNameIsLost(policy: Policy, account: ServiceAccountRef, p: Permission)
    requires p in policy.permissions && p.resourceName == Some("")
    ensures !GivesBack(policy, account)
  {
    hide PolicyDocuments, Normalize;
    if GivesBack(policy, account) {
      var parsed := Parse(PolicyDocuments(policy)).value;
      ParseIsSound(PolicyDocuments(policy));
      RecompiledKeys(policy, account);
      PolicyParses(policy);
      assert Key(p) in KeySet(policy.permissions);
      var q :| q in Collected(policy, account) && Key(q) == Key(p);
      Resolver.OverBindingsMembers(parsed.roles, parsed.bindings, account, q);
      var b :| b in parsed.bindings && q in Resolver.BindingPermissions(parsed.roles, b, account);
      NoEmptyNames(parsed, b, account, q);
    }
  }

  lemma NoEmptyNames(parsed: ParsedRbac, b: RbacObject, account: ServiceAccountRef, q: Permission)
    requires SoundParse(parsed) && b in parsed.bindings
    requires q in Resolver.BindingPermissions(parsed.roles, b, account)
    ensures q.resourceName != Some("")
  {
    Resolver.SelectedRoleIsRole(parsed.roles, b);
    var role := Resolver.SelectedRole(parsed.roles, b).value;
    var scope, source := Resolver.BindingScope(b), Resolver.SourceOf(b);
    Resolver.OverRulesMembers(role.rules, scope, source, q);
    var rule :| rule in role.rules && q in Resolver.RulePermissions(rule, scope, source);
    assert SoundObject(role) && SoundRule(rule);
    Resolver.OverGroupsMembers(rule.apiGroups, rule.resources, rule.verbs, Resolver.RuleNames(rule), scope, source, q);
    Resolver.RuleNamesMembers(rule, q.resourceName);
  }

  lemma CompilableRoundTrips(policy: Policy, account: ServiceAccountRef)
    requires Compilable(policy, account)
    ensures GivesBack(policy, account)
  {
    ScopesOkIff(policy);
    PolicyParses(policy);
    hide PolicyDocuments, Scopes, ScopeOk, Collected, Normalize;
    RecompiledKeys(policy, account);
    CollectedKeys(policy, account);
  }

  lemma RoundTripNeedsCompilable(policy: Policy, account: ServiceAccountRef)
    requires GivesBack(policy, account)
    ensures Compilable(policy, account)
  {
    PolicyParses(policy);
    ScopesOkIff(policy);
    RecompiledKeys(policy, account);
    hide Scopes, Collected, Normalize, PolicyDocuments, ScopeOk, FromScope;
    forall p | p in policy.permissions ensures CompilablePermission(p) && SubjectIn(policy, p.namespace) == account {
      if p.resourceName == Some("") {
        EmptyNameIsLost(policy, account, p);
      }
      assert Key(p) in KeySet(policy.permissions);
      var q :| q in Collected(policy, account) && Key(q) == Key(p);
      CollectedFrom(policy, account, q);
      var scopes := Scopes(policy.permissions);
      var s :| s in scopes && q in FromScope(policy, account, scopes, s);
      FromScopeFacts(policy, account, scopes, s, q);
    }
    if policy.permissions != [] {
      assert policy.permissions[0] in policy.permissions;
    }
  }

  /** The round trip through documents gives back the policy's keys, no more and no fewer,
      exactly when the policy is compilable for the account resolved for, and for a
      normalized policy the very same key sequence, which is when the adapter's check passes. */
  lemma RoundTripExactly(policy: Policy, account: ServiceAccountRef)
    ensures GivesBack(policy, account) <==> Compilable(policy, account)
    ensures Compilable(policy, account) && Normal(policy.permissions) ==>
      Keys(Recompiled(policy, account).value.permissions) == Keys(policy.permissions)
  {
    hide Recompiled, Normalize;
    if GivesBack(policy, account) {
      RoundTripNeedsCompilable(policy, account);
    }
    if Compilable(policy, account) {
      CompilableRoundTrips(policy, account);
      if Normal(policy.permissions) {
        SameSequence(policy, account);
      }
    }
  }

  lemma SameSequence(policy: Policy, account: ServiceAccountRef)
    requires Compilable(policy, account) && Normal(policy.permissions) && GivesBack(policy, account)
    ensures Keys(Recompiled(policy, account).value.permissions) == Keys(policy.permissions)
  {
    hide PolicyDocuments, Collected, Normalize, Recompiled, KeySet, Keys;
    RecompiledKeys(policy, account);
    NormalizeFixedIffNormal(policy.permissions);
    NoEmptyPartsTellApart(policy.permissions);
    SameKeysSameOrder(policy.permissions, Collected(policy, account));
  }

  /** A policy whose account has a namespace is compiled for that account and no other. */
  lemma CompilableOnlyForItself(policy: Policy, account: ServiceAccountRef)
    requires policy.serviceAccountNamespace != "" && policy.permissions != []
    ensures Compilable(policy, account) <==> account == AccountOf(policy) && Compilable(policy, AccountOf(policy))
  {
    assert policy.permissions[0] in policy.permissions;
  }

  /** A compiled policy authorizes exactly what it did. */
  lemma CompilationPreservesAuthority(policy: Policy, account: ServiceAccountRef, e: KubeEvent)
    requires Compilable(policy, account)
    ensures Recompiled(policy, account).Ok?
    ensures IsAuthorized(Recompiled(policy, account).value, e) <==> IsAuthorized(policy, e)
  {
    hide Recompiled, Compilable;
    CompilableRoundTrips(policy, account);
    AuthorizeMeaning(policy, e);
    AuthorizeMeaning(Recompiled(policy, account).value, e);
    AuthorizationDependsOnKeySet(Recompiled(policy, account).value.permissions, policy.permissions, e);
  }

  // ---------- A policy that does not come back ----------

  const NAMELESS := Policy([Permission("", "pods", "get", Some("shop"), Some(""), None)], "p", "app", "shop")

  lemma NamelessParses()
    ensures forall p :: p in NAMELESS.permissions ==> PermissionOk(NAMELESS, p)
  {
    hide IsSupportedResource;
    assert IsSupportedResource("", "pods") by { PodsAreSupported(); }
  }

  lemma PodsAreSupported()
    ensures IsSupportedResource("", "pods")
  {
  }

  /** One grant restricted to the pod named by the empty string: its documents parse, but
      the policy resolved from them no longer has its key. */
  lemma NamelessIsLost()
    ensures Recompiled(NAMELESS, AccountOf(NAMELESS)).Ok? && !GivesBack(NAMELESS, AccountOf(NAMELESS))
  {
    hide PolicyDocuments, Scopes, ScopeOk, PermissionOk, IsSupportedResource;
    NamelessParses();
    ScopesOkIff(NAMELESS);
    PolicyParses(NAMELESS);
    EmptyNameIsLost(NAMELESS, AccountOf(NAMELESS), NAMELESS.permissions[0]);
  }
}

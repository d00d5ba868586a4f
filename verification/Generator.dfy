/** Compiling a policy to Role/Binding documents: one pair per scope, one rule per group,
    resource and name. */
module Generator {
  import opened Ordering
  import opened Models
  import opened Authorization
  import opened Documents

  type RuleKey = (string, string, Option<string>)

  function RuleKeyOf(p: Permission): RuleKey {
    (p.apiGroup, p.resource, p.resourceName)
  }

  function NamespaceOf(p: Permission): Option<string> {
    p.namespace
  }

  // ---------- Grouping ----------

  function Group<K(==)>(d: Dict<K, seq<Permission>>, k: K): seq<Permission> {
    var found := Lookup(d, k);
    if found.Some? then found.value else []
  }

  /** `defaultdict(list)` filled by appending each permission under its key. */
  function GroupBy<K(==)>(key: Permission -> K, ps: seq<Permission>): Dict<K, seq<Permission>> {
    if ps == [] then []
    else
      var d := GroupBy(key, ps[..|ps| - 1]);
      var last := ps[|ps| - 1];
      Put(d, key(last), Group(d, key(last)) + [last])
  }

  lemma {:induction false} GroupByFacts<K>(key: Permission -> K, ps: seq<Permission>)
    ensures IsDict(GroupBy(key, ps))
    ensures forall k, p :: p in Group(GroupBy(key, ps), k) <==> p in ps && key(p) == k
  {
    if ps == [] {
    } else {
      var n := |ps| - 1;
      GroupByFacts(key, ps[..n]);
      var d := GroupBy(key, ps[..n]);
      PutIsDict(d, key(ps[n]), Group(d, key(ps[n])) + [ps[n]]);
      forall k, p ensures p in Group(GroupBy(key, ps), k) <==> p in ps && key(p) == k {
        PutLookup(d, key(ps[n]), Group(d, key(ps[n])) + [ps[n]], k);
        LastOrEarlier(ps, p);
        assert p in Group(d, k) <==> p in ps[..n] && key(p) == k;
        assert Group(GroupBy(key, ps), k) == if k == key(ps[n]) then Group(d, k) + [ps[n]] else Group(d, k);
      }
    }
  }

  lemma LastOrEarlier(ps: seq<Permission>, p: Permission)
    requires ps != []
    ensures p in ps <==> p in ps[..|ps| - 1] || p == ps[|ps| - 1]
  {
  }

  lemma {:induction false} GroupsNonEmpty<K>(key: Permission -> K, ps: seq<Permission>)
    ensures forall item :: item in GroupBy(key, ps) ==> item.1 != []
  {
    if ps == [] {
    } else {
      var n := |ps| - 1;
      GroupsNonEmpty(key, ps[..n]);
      var d := GroupBy(key, ps[..n]);
      PutItemsNonEmpty(d, key(ps[n]), Group(d, key(ps[n])) + [ps[n]]);
    }
  }

  lemma {:induction false} PutItemsNonEmpty<K>(d: Dict<K, seq<Permission>>, k: K, v: seq<Permission>)
    requires v != [] && forall item :: item in d ==> item.1 != []
    ensures forall item :: item in Put(d, k, v) ==> item.1 != []
  {
    if d == [] || d[0].0 == k {
    } else {
      PutItemsNonEmpty(d[1..], k, v);
    }
  }

  /** The groups partition the permissions by key. */
  lemma GroupsPartition<K>(key: Permission -> K, ps: seq<Permission>)
    ensures forall item, p :: item in GroupBy(key, ps) ==> (p in item.1 <==> p in ps && key(p) == item.0)
    ensures forall p :: p in ps ==> exists item :: item in GroupBy(key, ps) && item.0 == key(p) && p in item.1
  {
    forall item, p | item in GroupBy(key, ps) ensures p in item.1 <==> p in ps && key(p) == item.0 {
      GroupItem(key, ps, item);
      GroupByFacts(key, ps);
      assert p in Group(GroupBy(key, ps), item.0) <==> p in ps && key(p) == item.0;
    }
    forall p | p in ps ensures exists item :: item in GroupBy(key, ps) && item.0 == key(p) && p in item.1 {
      GroupOf(key, ps, p);
    }
  }

  lemma GroupItem<K>(key: Permission -> K, ps: seq<Permission>, item: (K, seq<Permission>))
    requires item in GroupBy(key, ps)
    ensures Group(GroupBy(key, ps), item.0) == item.1
  {
    GroupByFacts(key, ps);
    LookupItem(GroupBy(key, ps), item.0);
    assert (item.0, item.1) == item;
  }

  lemma GroupOf<K>(key: Permission -> K, ps: seq<Permission>, p: Permission)
    requires p in ps
    ensures exists item :: item in GroupBy(key, ps) && item.0 == key(p) && p in item.1
  {
    var d := GroupBy(key, ps);
    GroupByFacts(key, ps);
    LookupItem(d, key(p));
    assert p in Group(d, key(p));
    var item := (key(p), Lookup(d, key(p)).value);
    assert item in d;
  }

  // ---------- Rules ----------

  type RuleGroup = (RuleKey, seq<Permission>)

  function RuleSortKey(item: RuleGroup): seq<string> {
    [item.0.0, item.0.1, OrEmpty(item.0.2)]
  }

  function Itself(s: string): seq<string> {
    [s]
  }

  /** `sorted(verbs)` of a set of verbs. */
  function SortedVerbs(ps: seq<Permission>): seq<string> {
    SortBy(Itself, FirstSeen(Map(VerbOf, ps)))
  }

  function AsStr(s: string): Value {
    Str(s)
  }

  function StrList(ss: seq<string>): Value {
    List(Map(AsStr, ss))
  }

  function RuleValue(item: RuleGroup): Value {
    var fields: Fields := map[
      "apiGroups" := StrList([item.0.0]),
      "resources" := StrList([item.0.1]),
      "verbs" := StrList(SortedVerbs(item.1))];
    Mapping(if OrEmpty(item.0.2) != "" then fields["resourceNames" := StrList([OrEmpty(item.0.2)])] else fields)
  }

  function RuleGroups(ps: seq<Permission>): seq<RuleGroup> {
    SortBy(RuleSortKey, GroupBy(RuleKeyOf, ps))
  }

  function RuleValues(ps: seq<Permission>): seq<Value> {
    Map(RuleValue, RuleGroups(ps))
  }

  // ---------- Documents ----------

  type Scope = (Option<string>, seq<Permission>)

  function ScopeSortKey(scope: Scope): seq<string> {
    [OrEmpty(scope.0)]
  }

  function Scopes(ps: seq<Permission>): seq<Scope> {
    SortBy(ScopeSortKey, GroupBy(NamespaceOf, ps))
  }

  const RBAC_VERSION := "rbac.authorization.k8s.io/v1"

  function RoleKind(scope: Scope): string {
    if scope.0.None? then "ClusterRole" else "Role"
  }

  function RoleName(policy: Policy, scope: Scope): string {
    policy.name + "-" + (if scope.0.None? then "cluster" else scope.0.value)
  }

  /** `metadata`, with a namespace only when it is a non-empty string. */
  function MetadataValue(name: string, namespace: Option<string>): Value {
    var named: Fields := map["name" := Str(name)];
    Mapping(if OrEmpty(namespace) != "" then named["namespace" := Str(OrEmpty(namespace))] else named)
  }

  function RoleFields(policy: Policy, scope: Scope): Fields {
    map["apiVersion" := Str(RBAC_VERSION),
        "kind" := Str(RoleKind(scope)),
        "metadata" := MetadataValue(RoleName(policy, scope), scope.0),
        "rules" := List(RuleValues(scope.1))]
  }

  function BindingFields(policy: Policy, scope: Scope): Fields {
    map["apiVersion" := Str(RBAC_VERSION),
        "kind" := Str(if scope.0.None? then "ClusterRoleBinding" else "RoleBinding"),
        "metadata" := MetadataValue(RoleName(policy, scope) + "-binding", scope.0),
        "roleRef" := Mapping(map[
          "apiGroup" := Str("rbac.authorization.k8s.io"),
          "kind" := Str(RoleKind(scope)),
          "name" := Str(RoleName(policy, scope))]),
        "subjects" := List([Mapping(map[
          "kind" := Str("ServiceAccount"),
          "name" := Str(policy.serviceAccount),
          "namespace" := Str(policy.serviceAccountNamespace)])])]
  }

  function ScopeFields(policy: Policy, scopes: seq<Scope>): seq<Fields> {
    if scopes == [] then []
    else [RoleFields(policy, scopes[0]), BindingFields(policy, scopes[0])] + ScopeFields(policy, scopes[1..])
  }

  function AsMapping(fields: Fields): Value {
    Mapping(fields)
  }

  /** The documents of a policy, a Role and its Binding for each scope in turn. */
  function PolicyDocuments(policy: Policy): seq<Value> {
    Map(AsMapping, ScopeFields(policy, Scopes(policy.permissions)))
  }

  // ---------- The loops ----------

  /** `_rules`: fill the groups, then emit one rule per group in key order. */
  method GenerateRules(permissions: seq<Permission>) returns (result: seq<Value>)
    ensures result == RuleValues(permissions)
  {
    hide RuleValue;
    var grouped: Dict<RuleKey, seq<Permission>> := [];
    var i := 0;
    while i < |permissions|
      invariant 0 <= i <= |permissions|
      invariant grouped == GroupBy(RuleKeyOf, permissions[..i])
    {
      var p := permissions[i];
      assert permissions[..i + 1][..i] == permissions[..i];
      grouped := Put(grouped, RuleKeyOf(p), Group(grouped, RuleKeyOf(p)) + [p]);
      i := i + 1;
    }
    assert permissions[..i] == permissions;
    var items := SortBy(RuleSortKey, grouped);
    result := [];
    i := 0;
    while i < |items|
      invariant 0 <= i <= |items|
      invariant |result| == i
      invariant forall j :: 0 <= j < i ==> result[j] == RuleValue(items[j])
    {
      result := result + [RuleValue(items[i])];
      i := i + 1;
    }
    assert result == Map(RuleValue, items);
  }

  /** The permissions of a policy by namespace. */
  method ByScope(permissions: seq<Permission>) returns (byScope: Dict<Option<string>, seq<Permission>>)
    ensures byScope == GroupBy(NamespaceOf, permissions)
  {
    byScope := [];
    var i := 0;
    while i < |permissions|
      invariant 0 <= i <= |permissions|
      invariant byScope == GroupBy(NamespaceOf, permissions[..i])
    {
      var p := permissions[i];
      assert permissions[..i + 1][..i] == permissions[..i];
      byScope := Put(byScope, p.namespace, Group(byScope, p.namespace) + [p]);
      i := i + 1;
    }
    assert permissions[..i] == permissions;
  }

  /** `policy_to_documents`: fill the scopes, then emit a Role and a Binding for each. */
  method PolicyToDocuments(policy: Policy) returns (documents: seq<Value>)
    ensures documents == PolicyDocuments(policy)
  {
    hide RoleFields, BindingFields, GroupBy, SortBy;
    var byScope := ByScope(policy.permissions);
    var scopes := SortBy(ScopeSortKey, byScope);
    var fields: seq<Fields> := [];
    var i := 0;
    assert scopes[0..] == scopes;
    while i < |scopes|
      invariant 0 <= i <= |scopes|
      invariant fields + ScopeFields(policy, scopes[i..]) == ScopeFields(policy, scopes)
    {
      assert scopes[i..][0] == scopes[i] && scopes[i..][1..] == scopes[i + 1..];
      fields := fields + [RoleFields(policy, scopes[i]), BindingFields(policy, scopes[i])];
      i := i + 1;
    }
    assert fields == ScopeFields(policy, scopes);
    documents := Map(AsMapping, fields);
  }
}

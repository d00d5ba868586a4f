/** What the generated documents say, field by field and in order. */
module GeneratorMeaning {
  import opened Ordering
  import opened Models
  import opened Authorization
  import opened Documents
  import opened Generator
  import opened RoundTrip

  function KeyOf<K>(item: (K, seq<Permission>)): K {
    item.0
  }

  lemma GroupsDistinct<K(!new)>(key: Permission -> K, ps: seq<Permission>, groups: seq<(K, seq<Permission>)>)
    requires multiset(groups) == multiset(GroupBy(key, ps))
    ensures Distinct(Map(KeyOf, groups))
  {
    var d := GroupBy(key, ps);
    GroupByFacts(key, ps);
    DistinctFromMultiset(d, groups);
    forall i, j | 0 <= i < j < |groups| ensures groups[i].0 != groups[j].0 {
      assert groups[i] in multiset(groups) && groups[j] in multiset(groups);
      GroupItem(key, ps, groups[i]);
      GroupItem(key, ps, groups[j]);
    }
  }

  /** However they are ordered, the groups have each key that occurs, once. */
  lemma GroupKeys<K(!new)>(key: Permission -> K, ps: seq<Permission>, groups: seq<(K, seq<Permission>)>, k: K)
    requires multiset(groups) == multiset(GroupBy(key, ps))
    ensures k in Map(KeyOf, groups) <==> exists p :: p in ps && key(p) == k
  {
    var d := GroupBy(key, ps);
    hide GroupBy;
    if i :| 0 <= i < |groups| && groups[i].0 == k {
      assert groups[i] in multiset(groups);
      GroupsPartition(key, ps);
      GroupsNonEmpty(key, ps);
      assert groups[i] in d && groups[i].1[0] in groups[i].1;
      assert groups[i].1[0] in ps && key(groups[i].1[0]) == k;
    }
    if p :| p in ps && key(p) == k {
      GroupOf(key, ps, p);
      var item :| item in d && item.0 == key(p) && p in item.1;
      assert item in multiset(groups);
      var i :| 0 <= i < |groups| && groups[i] == item;
      assert Map(KeyOf, groups)[i] == k;
    }
  }

  // ---------- Rules ----------

  predicate IsStrings(v: Value, texts: seq<string>) {
    v.List? && |v.items| == |texts| && forall i :: 0 <= i < |texts| ==> v.items[i] == Str(texts[i])
  }

  /** Strings in strictly increasing order. */
  ghost predicate Increasing(texts: seq<string>) {
    Distinct(texts) && forall i, j :: 0 <= i < j < |texts| ==> StringLeq(texts[i], texts[j])
  }

  /** The rule for one group, resource and name: it lists the verbs of exactly those
      permissions, in order, and the name if there is one that is not empty. */
  ghost predicate SaysGroup(ps: seq<Permission>, key: RuleKey, rule: Value) {
    && rule.Mapping?
    && rule.fields.Keys == {"apiGroups", "resources", "verbs"}
         + (if key.2.Some? && key.2.value != "" then {"resourceNames"} else {})
    && IsStrings(rule.fields["apiGroups"], [key.0]) && IsStrings(rule.fields["resources"], [key.1])
    && ("resourceNames" in rule.fields ==> IsStrings(rule.fields["resourceNames"], [key.2.value]))
    && exists verbs :: IsStrings(rule.fields["verbs"], verbs) && Increasing(verbs) && VerbsOf(ps, key, verbs)
  }

  ghost predicate VerbsOf(ps: seq<Permission>, key: RuleKey, verbs: seq<string>) {
    forall v :: v in verbs <==> Granted(ps, key, v)
  }

  predicate Granted(ps: seq<Permission>, key: RuleKey, verb: string) {
    exists p :: p in ps && p.apiGroup == key.0 && p.resource == key.1 && p.resourceName == key.2 && p.verb == verb
  }

  /** One rule for each group, resource and name that occurs, ordered by the three. */
  ghost predicate SaysGroups(ps: seq<Permission>, keys: seq<RuleKey>, rules: seq<Value>) {
    && |rules| == |keys| && Distinct(keys)
    && (forall i, j :: 0 <= i < j < |keys| ==> TupleLeq(RuleRank(keys[i]), RuleRank(keys[j])))
    && (forall k :: k in keys <==> exists p :: p in ps && RuleKeyOf(p) == k)
    && forall i :: 0 <= i < |keys| ==> SaysGroup(ps, keys[i], rules[i])
  }

  function RuleRank(key: RuleKey): seq<string> {
    [key.0, key.1, if key.2.Some? then key.2.value else ""]
  }

  lemma VerbsIncrease(ps: seq<Permission>)
    ensures Increasing(SortedVerbs(ps))
  {
    var vs := FirstSeen(Map(VerbOf, ps));
    FirstSeenFacts(Map(VerbOf, ps));
    SortByIsSorted(Itself, vs);
    DistinctFromMultiset(vs, SortedVerbs(ps));
    hide SortBy, FirstSeen;
    var verbs := SortedVerbs(ps);
    forall i, j | 0 <= i < j < |verbs| ensures StringLeq(verbs[i], verbs[j]) {
      assert TupleLeq(Itself(verbs[i]), Itself(verbs[j]));
      StringLeqTotal(verbs[i], verbs[j]);
    }
  }

  lemma RuleSays(ps: seq<Permission>, item: RuleGroup)
    requires forall p :: p in item.1 <==> p in ps && RuleKeyOf(p) == item.0
    ensures SaysGroup(ps, item.0, RuleValue(item))
  {
    var verbs := SortedVerbs(item.1);
    SortedVerbsMembers(item.1);
    VerbsIncrease(item.1);
    hide SortedVerbs, Increasing;
    forall v ensures v in verbs <==> Granted(ps, item.0, v) {
      if Granted(ps, item.0, v) {
        var p :| p in ps && p.apiGroup == item.0.0 && p.resource == item.0.1 && p.resourceName == item.0.2
          && p.verb == v;
        assert RuleKeyOf(p) == item.0 && p in item.1;
      }
    }
    assert VerbsOf(ps, item.0, verbs);
    hide VerbsOf;
    assert IsStrings(RuleValue(item).fields["verbs"], verbs);
  }

  lemma RuleKeysInOrder(ps: seq<Permission>, i: int, j: int)
    requires 0 <= i < j < |RuleGroups(ps)|
    ensures TupleLeq(RuleRank(RuleGroups(ps)[i].0), RuleRank(RuleGroups(ps)[j].0))
  {
    var groups := RuleGroups(ps);
    SortByIsSorted(RuleSortKey, GroupBy(RuleKeyOf, ps));
    hide SortBy, GroupBy, TupleLeq;
    assert TupleLeq(RuleSortKey(groups[i]), RuleSortKey(groups[j]));
    assert forall item: RuleGroup :: RuleSortKey(item) == RuleRank(item.0);
  }

  lemma RuleKeysListed(ps: seq<Permission>)
    ensures Distinct(Map(KeyOf, RuleGroups(ps)))
    ensures forall k :: k in Map(KeyOf, RuleGroups(ps)) <==> exists p :: p in ps && RuleKeyOf(p) == k
  {
    var groups := RuleGroups(ps);
    SortByIsSorted(RuleSortKey, GroupBy(RuleKeyOf, ps));
    hide SortBy, GroupBy, SortedBy, Map;
    GroupsDistinct(RuleKeyOf, ps, groups);
    forall k ensures k in Map(KeyOf, groups) <==> exists p :: p in ps && RuleKeyOf(p) == k {
      GroupKeys(RuleKeyOf, ps, groups, k);
    }
  }

  lemma RulesSay(ps: seq<Permission>) returns (keys: seq<RuleKey>)
    ensures SaysGroups(ps, keys, RuleValues(ps))
  {
    var groups := RuleGroups(ps);
    keys := Map(KeyOf, groups);
    RuleKeysListed(ps);
    RuleGroupsFacts(ps);
    hide RuleGroups, SaysGroup, RuleValue, RuleKeyOf, RuleRank, TupleLeq;
    forall i | 0 <= i < |keys| ensures SaysGroup(ps, keys[i], RuleValues(ps)[i]) {
      assert groups[i] in groups;
      RuleSays(ps, groups[i]);
    }
    forall i, j | 0 <= i < j < |keys| ensures TupleLeq(RuleRank(keys[i]), RuleRank(keys[j])) {
      RuleKeysInOrder(ps, i, j);
    }
  }

  // ---------- Documents ----------

  /** The object's name and, if it is namespaced and that is not empty, its namespace. */
  predicate SaysName(metadata: Value, name: string, scope: Option<string>) {
    metadata == Mapping(if scope.Some? && scope.value != ""
                        then map["name" := Str(name), "namespace" := Str(scope.value)] else map["name" := Str(name)])
  }

  function ScopeName(policy: Policy, scope: Option<string>): string {
    policy.name + "-" + match scope case None => "cluster" case Some(namespace) => namespace
  }

  /** The role of a scope. */
  ghost predicate SaysScopeRole(policy: Policy, scope: Option<string>, d: Value) {
    && d.Mapping? && d.fields.Keys == {"apiVersion", "kind", "metadata", "rules"}
    && d.fields["apiVersion"] == Str("rbac.authorization.k8s.io/v1")
    && d.fields["kind"] == Str(if scope.None? then "ClusterRole" else "Role")
    && SaysName(d.fields["metadata"], ScopeName(policy, scope), scope)
    && d.fields["rules"].List?
    && exists ps, keys :: SaysGroups(ps, keys, d.fields["rules"].items)
         && forall p :: p in ps <==> p in policy.permissions && p.namespace == scope
  }

  /** Its binding to the policy's account. */
  predicate SaysScopeBinding(policy: Policy, scope: Option<string>, d: Value) {
    && d.Mapping? && d.fields.Keys == {"apiVersion", "kind", "metadata", "roleRef", "subjects"}
    && d.fields["apiVersion"] == Str("rbac.authorization.k8s.io/v1")
    && d.fields["kind"] == Str(if scope.None? then "ClusterRoleBinding" else "RoleBinding")
    && SaysName(d.fields["metadata"], ScopeName(policy, scope) + "-binding", scope)
    && d.fields["roleRef"] == Mapping(map[
         "apiGroup" := Str("rbac.authorization.k8s.io"),
         "kind" := Str(if scope.None? then "ClusterRole" else "Role"),
         "name" := Str(ScopeName(policy, scope))])
    && d.fields["subjects"] == List([Mapping(map[
         "kind" := Str("ServiceAccount"),
         "name" := Str(policy.serviceAccount),
         "namespace" := Str(policy.serviceAccountNamespace)])])
  }

  /** The namespaces that occur, absence being one of them, each once and in order. */
  ghost predicate ScopesInOrder(ps: seq<Permission>, scopes: seq<Option<string>>) {
    && Distinct(scopes)
    && (forall i, j :: 0 <= i < j < |scopes| ==> StringLeq(OrEmpty(scopes[i]), OrEmpty(scopes[j])))
    && forall n :: n in scopes <==> exists p :: p in ps && p.namespace == n
  }

  lemma ScopesListed(ps: seq<Permission>)
    ensures ScopesInOrder(ps, Map(KeyOf, Scopes(ps)))
  {
    var groups := Scopes(ps);
    SortByIsSorted(ScopeSortKey, GroupBy(NamespaceOf, ps));
    hide SortBy, GroupBy;
    GroupsDistinct(NamespaceOf, ps, groups);
    forall n ensures n in Map(KeyOf, groups) <==> exists p :: p in ps && p.namespace == n {
      GroupKeys(NamespaceOf, ps, groups, n);
    }
    forall i, j | 0 <= i < j < |groups| ensures StringLeq(OrEmpty(groups[i].0), OrEmpty(groups[j].0)) {
      assert TupleLeq(ScopeSortKey(groups[i]), ScopeSortKey(groups[j]));
      StringLeqTotal(OrEmpty(groups[i].0), OrEmpty(groups[j].0));
    }
  }

  lemma ScopeSays(policy: Policy, scope: Scope)
    requires forall p :: p in scope.1 <==> p in policy.permissions && p.namespace == scope.0
    ensures SaysScopeRole(policy, scope.0, Mapping(RoleFields(policy, scope)))
    ensures SaysScopeBinding(policy, scope.0, Mapping(BindingFields(policy, scope)))
  {
    var keys := RulesSay(scope.1);
    hide SaysGroups, RuleValues;
  }

  lemma {:induction false} ScopeFieldsAt(policy: Policy, scopes: seq<Scope>, i: int)
    requires 0 <= i < |scopes|
    ensures |ScopeFields(policy, scopes)| == 2 * |scopes|
    ensures ScopeFields(policy, scopes)[2 * i] == RoleFields(policy, scopes[i])
    ensures ScopeFields(policy, scopes)[2 * i + 1] == BindingFields(policy, scopes[i])
  {
    hide RoleFields, BindingFields;
    if i > 0 {
      ScopeFieldsAt(policy, scopes[1..], i - 1);
    } else if |scopes| > 1 {
      ScopeFieldsAt(policy, scopes[1..], 0);
    } else {
      assert scopes[1..] == [];
    }
  }

  /** The documents of a policy: for each namespace that occurs, in order and cluster-wide
      grants first, the role of exactly that scope's permissions and its binding. */
  lemma DocumentsSay(policy: Policy) returns (scopes: seq<Option<string>>)
    ensures ScopesInOrder(policy.permissions, scopes) && |PolicyDocuments(policy)| == 2 * |scopes|
    ensures forall i :: 0 <= i < |scopes| ==>
      && SaysScopeRole(policy, scopes[i], PolicyDocuments(policy)[2 * i])
      && SaysScopeBinding(policy, scopes[i], PolicyDocuments(policy)[2 * i + 1])
  {
    var groups, documents := Scopes(policy.permissions), PolicyDocuments(policy);
    scopes := Map(KeyOf, groups);
    ScopesListed(policy.permissions);
    ScopesFacts(policy.permissions);
    hide Scopes, ScopesInOrder, SaysScopeRole, SaysScopeBinding, RoleFields, BindingFields, ScopeFields;
    if groups == [] {
      assert ScopeFields(policy, groups) == [] by { NoScopes(policy); }
    } else {
      ScopeFieldsAt(policy, groups, 0);
    }
    forall i | 0 <= i < |scopes|
      ensures SaysScopeRole(policy, scopes[i], documents[2 * i])
      ensures SaysScopeBinding(policy, scopes[i], documents[2 * i + 1])
    {
      assert groups[i] in groups;
      ScopeFieldsAt(policy, groups, i);
      ScopeSays(policy, groups[i]);
    }
  }

  lemma NoScopes(policy: Policy)
    ensures ScopeFields(policy, []) == []
  {
  }
}

/** What documents parse to, said of the raw values alone: in both directions, field by
    field and item by item. */
module ParserMeaning {
  import opened Ordering
  import opened Models
  import opened Canonicalizer
  import opened Documents
  import opened Parser

  // ---------- Lists of strings ----------

  /** The value is a list of exactly these texts. */
  predicate Lists(v: Value, texts: seq<string>) {
    v.List? && |v.items| == |texts| && forall k :: 0 <= k < |texts| ==> v.items[k] == Str(texts[k])
  }

  lemma {:induction false} TextsRead(items: seq<Value>)
    requires AllStrings(items)
    ensures Lists(List(items), Texts(items))
  {
    if items == [] {
    } else {
      TextsRead(items[1..]);
      assert items[0] in items && forall k :: 1 <= k < |items| ==> items[k] == items[1..][k - 1];
    }
  }

  lemma ListsOnce(v: Value, texts: seq<string>)
    requires Lists(v, texts)
    ensures AllStrings(v.items) && Texts(v.items) == texts
  {
    TextsRead(v.items);
    hide Texts;
    assert forall k :: 0 <= k < |texts| ==> v.items[k].text == texts[k];
  }

  lemma StringsExactly(v: Value, field: string, allowEmptyString: bool, texts: seq<string>)
    ensures Strings(v, field, allowEmptyString) == Ok(texts)
      <==> Lists(v, texts) && texts != [] && (allowEmptyString || "" !in texts)
  {
    hide Texts;
    if v.List? && AllStrings(v.items) {
      TextsRead(v.items);
    }
    if Lists(v, texts) {
      ListsOnce(v, texts);
    }
  }

  lemma ResourceNamesExactly(v: Value, texts: seq<string>)
    ensures ResourceNames(v) == Ok(texts) <==> Lists(v, texts) && "" !in texts
  {
    hide Texts;
    if v.List? && AllStrings(v.items) {
      TextsRead(v.items);
    }
    if Lists(v, texts) {
      ListsOnce(v, texts);
    }
  }

  // ---------- Rules ----------

  /** The raw value of a rule's field, or what stands for it when the field is absent. */
  function Field(raw: Value, name: string, default: Value): Value
    requires raw.Mapping?
  {
    if name in raw.fields then raw.fields[name] else default
  }

  /** `rule` is what the raw value says: four lists of strings, the core group if none is
      given and no names if none are, of known verbs and supported resources. */
  ghost predicate SaysRule(raw: Value, rule: PolicyRule) {
    && raw.Mapping?
    && Lists(Field(raw, "apiGroups", List([Str("")])), rule.apiGroups) && rule.apiGroups != []
    && Lists(Field(raw, "resources", Null), rule.resources) && rule.resources != [] && "" !in rule.resources
    && Lists(Field(raw, "verbs", Null), rule.verbs) && rule.verbs != [] && "" !in rule.verbs
    && Lists(Field(raw, "resourceNames", List([])), rule.resourceNames) && "" !in rule.resourceNames
    && (forall v :: v in rule.verbs ==> v == "*" || v in SUPPORTED_VERBS)
    && (forall g, r :: g in rule.apiGroups && r in rule.resources ==> IsSupportedResource(g, r))
  }

  lemma CheckedExactly(groups: seq<string>, resources: seq<string>, verbs: seq<string>, names: seq<string>,
      rule: PolicyRule)
    ensures CheckedRule(groups, resources, verbs, names) == Ok(rule) <==>
      && rule == PolicyRule(groups, resources, verbs, names)
      && (forall v :: v in verbs ==> v == "*" || v in SUPPORTED_VERBS)
      && (forall g, r :: g in groups && r in resources ==> IsSupportedResource(g, r))
  {
    FirstUnknownVerbFacts(verbs);
    FirstUnsupportedFacts(groups, resources);
    hide FirstUnknownVerb, FirstUnsupported, IsSupportedResource;
  }

  lemma {:induction false} FirstUnknown(verbs: seq<string>) returns (i: int)
    requires FirstUnknownVerb(verbs).Some?
    ensures 0 <= i < |verbs| && FirstUnknownVerb(verbs) == Some(verbs[i])
    ensures verbs[i] != "*" && verbs[i] !in SUPPORTED_VERBS
    ensures forall k :: 0 <= k < i ==> verbs[k] == "*" || verbs[k] in SUPPORTED_VERBS
  {
    if !KnownVerb(verbs[0]) {
      i := 0;
    } else {
      var rest := FirstUnknown(verbs[1..]);
      i := rest + 1;
      assert forall k :: 1 <= k < |verbs| ==> verbs[k] == verbs[1..][k - 1];
    }
  }

  lemma {:induction false} FirstRefusedIn(group: string, resources: seq<string>) returns (j: int)
    requires FirstUnsupportedIn(group, resources).Some?
    ensures 0 <= j < |resources| && FirstUnsupportedIn(group, resources) == Some((group, resources[j]))
    ensures !IsSupportedResource(group, resources[j])
    ensures forall k :: 0 <= k < j ==> IsSupportedResource(group, resources[k])
  {
    hide IsSupportedResource;
    if !IsSupportedResource(group, resources[0]) {
      j := 0;
    } else {
      var rest := FirstRefusedIn(group, resources[1..]);
      j := rest + 1;
      assert forall k :: 1 <= k < |resources| ==> resources[k] == resources[1..][k - 1];
    }
  }

  lemma {:induction false} FirstRefused(groups: seq<string>, resources: seq<string>) returns (i: int, j: int)
    requires FirstUnsupported(groups, resources).Some?
    ensures 0 <= i < |groups| && 0 <= j < |resources|
    ensures FirstUnsupported(groups, resources) == Some((groups[i], resources[j]))
    ensures !IsSupportedResource(groups[i], resources[j])
    ensures forall k :: 0 <= k < j ==> IsSupportedResource(groups[i], resources[k])
    ensures forall g, k :: 0 <= g < i && 0 <= k < |resources| ==> IsSupportedResource(groups[g], resources[k])
  {
    hide IsSupportedResource;
    if FirstUnsupportedIn(groups[0], resources).Some? {
      i := 0;
      j := FirstRefusedIn(groups[0], resources);
    } else {
      FirstUnsupportedInFacts(groups[0], resources);
      i, j := FirstRefused(groups[1..], resources);
      i := i + 1;
      assert forall g :: 1 <= g < |groups| ==> groups[g] == groups[1..][g - 1];
    }
  }

  /** What a rule with readable fields is refused for: its first unknown verb, or else the
      first group and resource, groups before resources, outside the catalog. */
  lemma RefusedForFirst(groups: seq<string>, resources: seq<string>, verbs: seq<string>, names: seq<string>)
    returns (i: int, j: int)
    requires CheckedRule(groups, resources, verbs, names).Err?
    ensures if exists v :: v in verbs && v != "*" && v !in SUPPORTED_VERBS
      then
        && 0 <= i < |verbs| && verbs[i] != "*" && verbs[i] !in SUPPORTED_VERBS
        && (forall k :: 0 <= k < i ==> verbs[k] == "*" || verbs[k] in SUPPORTED_VERBS)
        && CheckedRule(groups, resources, verbs, names) == Err(RbacParseError("unsupported verb: " + verbs[i]))
      else
        && 0 <= i < |groups| && 0 <= j < |resources| && !IsSupportedResource(groups[i], resources[j])
        && (forall k :: 0 <= k < j ==> IsSupportedResource(groups[i], resources[k]))
        && (forall g, k :: 0 <= g < i && 0 <= k < |resources| ==> IsSupportedResource(groups[g], resources[k]))
        && CheckedRule(groups, resources, verbs, names) == Err(UnsupportedResourceError(groups[i], resources[j]))
  {
    FirstUnknownVerbFacts(verbs);
    hide FirstUnknownVerb, FirstUnsupported, IsSupportedResource;
    if FirstUnknownVerb(verbs).Some? {
      i := FirstUnknown(verbs);
      j := 0;
    } else {
      i, j := FirstRefused(groups, resources);
    }
  }

  /** A rule decodes exactly to what its raw value says, and not at all if it says nothing
      the parser supports. */
  lemma RuleExactly(raw: Value, rule: PolicyRule)
    ensures Rule(raw) == Ok(rule) <==> SaysRule(raw, rule)
  {
    if raw.Mapping? {
      StringsExactly(Field(raw, "apiGroups", List([Str("")])), "apiGroups", true, rule.apiGroups);
      StringsExactly(Field(raw, "resources", Null), "resources", false, rule.resources);
      StringsExactly(Field(raw, "verbs", Null), "verbs", false, rule.verbs);
      ResourceNamesExactly(Field(raw, "resourceNames", List([])), rule.resourceNames);
      CheckedExactly(rule.apiGroups, rule.resources, rule.verbs, rule.resourceNames, rule);
      hide Strings, ResourceNames, Lists, IsSupportedResource;
      if Rule(raw) == Ok(rule) {
        DecodedParts(raw, rule);
      }
      hide CheckedRule;
    }
  }

  lemma DecodedParts(raw: Value, rule: PolicyRule)
    requires Rule(raw) == Ok(rule)
    ensures raw.Mapping?
    ensures Strings(Field(raw, "apiGroups", List([Str("")])), "apiGroups", true) == Ok(rule.apiGroups)
    ensures Strings(Field(raw, "resources", Null), "resources", false) == Ok(rule.resources)
    ensures Strings(Field(raw, "verbs", Null), "verbs", false) == Ok(rule.verbs)
    ensures ResourceNames(Field(raw, "resourceNames", List([]))) == Ok(rule.resourceNames)
    ensures CheckedRule(rule.apiGroups, rule.resources, rule.verbs, rule.resourceNames) == Ok(rule)
  {
    hide Strings, ResourceNames;
  }

  /** A list of rules decodes item by item, and otherwise reports the first item that does
      not. */
  lemma {:induction false} RuleListExactly(items: seq<Value>, rules: seq<PolicyRule>)
    ensures RuleList(items) == Ok(rules)
      <==> |items| == |rules| && forall k :: 0 <= k < |items| ==> SaysRule(items[k], rules[k])
  {
    hide Rule, SaysRule;
    if items == [] {
    } else if rules == [] {
    } else {
      RuleListExactly(items[1..], rules[1..]);
      RuleExactly(items[0], rules[0]);
      assert rules == [rules[0]] + rules[1..];
      assert forall k :: 1 <= k < |items| ==> items[k] == items[1..][k - 1];
      assert forall k :: 1 <= k < |rules| ==> rules[k] == rules[1..][k - 1];
    }
  }

  lemma {:induction false} RuleListFails(items: seq<Value>, e: ParseError)
    ensures RuleList(items) == Err(e) <==>
      exists k :: 0 <= k < |items| && Rule(items[k]) == Err(e) && forall j :: 0 <= j < k ==> Rule(items[j]).Ok?
  {
    hide Rule;
    if items == [] {
    } else {
      RuleListFails(items[1..], e);
      assert forall k :: 1 <= k < |items| ==> items[k] == items[1..][k - 1];
      assert forall k :: 0 <= k < |items| - 1 ==> items[1..][k] == items[k + 1];
    }
  }

  // ---------- Bindings ----------

  /** A subject the parser takes up; the others are skipped. */
  predicate IsAccount(raw: Value) {
    raw.Mapping? && "kind" in raw.fields && raw.fields["kind"] == Str("ServiceAccount")
  }

  /** `subject` is what the raw value says, in its own namespace or else the binding's. */
  predicate SaysSubject(raw: Value, namespace: Option<string>, subject: ServiceAccountRef) {
    && IsAccount(raw)
    && Field(raw, "name", Null) == Str(subject.name) && subject.name != ""
    && subject.namespace != ""
    && if Field(raw, "namespace", Null) in [Null, Str(""), Scalar(false), List([]), Mapping(map[])]
       then namespace == Some(subject.namespace)
       else Field(raw, "namespace", Null) == Str(subject.namespace)
  }

  lemma SubjectExactly(raw: Value, namespace: Option<string>, subject: ServiceAccountRef)
    ensures Subject(raw, namespace) == Ok(Some(subject)) <==> SaysSubject(raw, namespace, subject)
    ensures Subject(raw, namespace) == Ok(None) <==> raw.Mapping? && !IsAccount(raw)
    ensures Subject(raw, namespace).Ok? && Subject(raw, namespace).value.Some? ==> IsAccount(raw)
  {
    if raw.Mapping? {
      var own := Get(raw.fields, "namespace");
      assert Truthy(own) <==> own !in [Null, Str(""), Scalar(false), List([]), Mapping(map[])];
    }
  }

  /** The subjects of a binding are its service accounts, in the order listed. */
  lemma {:induction false} SubjectListExactly(items: seq<Value>, namespace: Option<string>,
      subjects: seq<ServiceAccountRef>)
    ensures var accounts := Kept(IsAccount, items);
      SubjectList(items, namespace) == Ok(subjects) <==>
        && (forall k :: 0 <= k < |items| ==> items[k].Mapping?)
        && |accounts| == |subjects|
        && (forall k :: 0 <= k < |accounts| ==> SaysSubject(accounts[k], namespace, subjects[k]))
  {
    hide Subject, SaysSubject, IsAccount;
    if items == [] {
    } else {
      var accounts, rest := Kept(IsAccount, items), Kept(IsAccount, items[1..]);
      assert forall k :: 1 <= k < |items| ==> items[k] == items[1..][k - 1];
      if IsAccount(items[0]) {
        assert items[0].Mapping? by { AccountIsMapping(items[0]); }
        assert accounts == [items[0]] + rest;
        if subjects != [] {
          SubjectExactly(items[0], namespace, subjects[0]);
          SubjectListExactly(items[1..], namespace, subjects[1..]);
          assert subjects == [subjects[0]] + subjects[1..];
          assert forall k :: 1 <= k < |accounts| ==> accounts[k] == rest[k - 1];
          assert forall k :: 1 <= k < |subjects| ==> subjects[k] == subjects[1..][k - 1];
        }
        SubjectExactly(items[0], namespace, ServiceAccountRef("", ""));
      } else {
        assert accounts == rest;
        SubjectExactly(items[0], namespace, ServiceAccountRef("", ""));
        SubjectListExactly(items[1..], namespace, subjects);
        assert forall others: seq<ServiceAccountRef> :: [] + others == others;
      }
    }
  }

  lemma AccountIsMapping(raw: Value)
    requires IsAccount(raw)
    ensures raw.Mapping?
  {
  }

  /** The value refers to a role of this kind and name. */
  predicate SaysRoleRef(v: Value, kind: string, name: string) {
    && v.Mapping?
    && Field(v, "apiGroup", Null) == Str("rbac.authorization.k8s.io")
    && Field(v, "kind", Null) == Str(kind) && (kind == "Role" || kind == "ClusterRole")
    && Field(v, "name", Null) == Str(name) && name != ""
  }

  lemma RoleRefExactly(v: Value, kind: string, name: string)
    ensures RoleRef(v) == Ok((kind, name)) <==> SaysRoleRef(v, kind, name)
  {
  }

  // ---------- Documents ----------

  /** The document's metadata give it this name and namespace, if any. */
  predicate SaysMetadata(document: Value, name: string, namespace: Option<string>)
    requires document.Mapping?
  {
    var metadata := Field(document, "metadata", Null);
    && metadata.Mapping?
    && Field(metadata, "name", Null) == Str(name) && name != ""
    && Field(metadata, "namespace", Null) == if namespace.Some? then Str(namespace.value) else Null
  }

  lemma MetadataExactly(document: Value, name: string, namespace: Option<string>)
    requires document.Mapping?
    ensures Metadata(document.fields) == Ok((name, namespace)) <==> SaysMetadata(document, name, namespace)
  {
  }

  /** A role: namespaced if it is a `Role`, cluster-wide if it is a `ClusterRole`. */
  ghost predicate SaysRole(document: Value, namespace: Option<string>, role: RbacObject)
    requires document.Mapping? && role.RoleObject?
  {
    var rules := Field(document, "rules", List([]));
    && Field(document, "kind", Null) == Str(if role.clusterRole then "ClusterRole" else "Role")
    && role.namespace == (if role.clusterRole then None else namespace)
    && (!role.clusterRole ==> namespace.Some? && namespace.value != "")
    && rules.List? && |rules.items| == |role.rules|
    && forall k :: 0 <= k < |role.rules| ==> SaysRule(rules.items[k], role.rules[k])
  }

  /** A binding of the accounts it lists to the role it refers to, a `ClusterRole` unless it
      is a `RoleBinding`. */
  ghost predicate SaysBinding(document: Value, namespace: Option<string>, binding: RbacObject)
    requires document.Mapping? && binding.BindingObject?
  {
    var subjects := Field(document, "subjects", List([]));
    && Field(document, "kind", Null) == Str(if binding.clusterBinding then "ClusterRoleBinding" else "RoleBinding")
    && binding.namespace == (if binding.clusterBinding then None else namespace)
    && (!binding.clusterBinding ==> namespace.Some? && namespace.value != "")
    && SaysRoleRef(Field(document, "roleRef", Null), binding.roleKind, binding.roleName)
    && (binding.clusterBinding ==> binding.roleKind == "ClusterRole")
    && subjects.List? && (forall k :: 0 <= k < |subjects.items| ==> subjects.items[k].Mapping?)
    && var accounts := Kept(IsAccount, subjects.items);
    && |accounts| == |binding.subjects|
    && forall k :: 0 <= k < |accounts| ==> SaysSubject(accounts[k], namespace, binding.subjects[k])
  }

  /** The object is what the document says. */
  ghost predicate Says(document: Value, o: RbacObject) {
    && document.Mapping?
    && exists namespace :: SaysMetadata(document, o.name, namespace) &&
         match o
         case ServiceAccountObject(_, accountNamespace) =>
           && Field(document, "kind", Null) == Str("ServiceAccount")
           && namespace == Some(accountNamespace) && accountNamespace != ""
         case RoleObject(_, _, _, _) => SaysRole(document, namespace, o)
         case BindingObject(_, _, _, _, _, _) => SaysBinding(document, namespace, o)
  }

  lemma RoleDocumentExactly(document: Value, namespace: Option<string>, kind: string, o: RbacObject)
    requires document.Mapping? && Field(document, "kind", Null) == Str(kind) && kind in ["Role", "ClusterRole"]
    ensures RoleDocument(document.fields, kind, o.name, namespace) == Ok(o)
      <==> o.RoleObject? && SaysRole(document, namespace, o)
  {
    hide RuleList, SaysRule;
    var rules := Field(document, "rules", List([]));
    if o.RoleObject? && rules.List? {
      RuleListExactly(rules.items, o.rules);
    }
  }

  lemma BindingExactly(document: Value, namespace: Option<string>, kind: string, o: RbacObject)
    requires document.Mapping? && Field(document, "kind", Null) == Str(kind)
    requires kind in ["RoleBinding", "ClusterRoleBinding"]
    ensures Binding(document.fields, kind, o.name, namespace) == Ok(o)
      <==> o.BindingObject? && SaysBinding(document, namespace, o)
  {
    hide SubjectList, SaysSubject, RoleRef, SaysRoleRef;
    var subjects, ref := Field(document, "subjects", List([])), Field(document, "roleRef", Null);
    if o.BindingObject? {
      RoleRefExactly(ref, o.roleKind, o.roleName);
      if subjects.List? {
        SubjectListExactly(subjects.items, namespace, o.subjects);
      }
    }
  }

  lemma KindSaid(document: Value, namespace: Option<string>, o: RbacObject)
    requires document.Mapping?
    ensures var kind := Field(document, "kind", Null);
      && (o.RoleObject? && SaysRole(document, namespace, o) ==> kind in [Str("Role"), Str("ClusterRole")])
      && (o.BindingObject? && SaysBinding(document, namespace, o) ==>
            kind in [Str("RoleBinding"), Str("ClusterRoleBinding")])
  {
  }

  lemma NameKept(document: Value, kind: string, name: string, namespace: Option<string>, o: RbacObject)
    requires document.Mapping?
    requires RoleDocument(document.fields, kind, name, namespace) == Ok(o)
          || Binding(document.fields, kind, name, namespace) == Ok(o)
    ensures o.name == name
  {
    hide Rules, SubjectList, RoleRef;
  }

  /** A document decodes exactly to what it says. */
  lemma DecodeExactly(document: Value, o: RbacObject)
    requires document.Mapping?
    ensures Decode(document.fields) == Ok(o) <==> Says(document, o)
  {
    hide Metadata, SaysMetadata, RoleDocument, Binding, SaysRole, SaysBinding;
    var kind := Field(document, "kind", Null);
    forall name, namespace
      ensures Metadata(document.fields) == Ok((name, namespace)) <==> SaysMetadata(document, name, namespace)
    {
      MetadataExactly(document, name, namespace);
    }
    forall namespace
      ensures o.RoleObject? && SaysRole(document, namespace, o) ==> kind in [Str("Role"), Str("ClusterRole")]
      ensures o.BindingObject? && SaysBinding(document, namespace, o) ==>
          kind in [Str("RoleBinding"), Str("ClusterRoleBinding")]
    {
      KindSaid(document, namespace, o);
    }
    if Decode(document.fields) == Ok(o) && kind.text != "ServiceAccount" {
      var (name, namespace) := Metadata(document.fields).value;
      NameKept(document, kind.text, name, namespace, o);
    }
    if kind.Str? && kind.text in ["Role", "ClusterRole"] {
      forall namespace
        ensures RoleDocument(document.fields, kind.text, o.name, namespace) == Ok(o)
          <==> o.RoleObject? && SaysRole(document, namespace, o)
      {
        RoleDocumentExactly(document, namespace, kind.text, o);
      }
    } else if kind.Str? && kind.text in ["RoleBinding", "ClusterRoleBinding"] {
      forall namespace
        ensures Binding(document.fields, kind.text, o.name, namespace) == Ok(o)
          <==> o.BindingObject? && SaysBinding(document, namespace, o)
      {
        BindingExactly(document, namespace, kind.text, o);
      }
    }
  }

  // ---------- Lists of documents ----------

  lemma {:induction false} FlattenConcat(xs: seq<Value>, ys: seq<Value>)
    ensures Flatten(xs + ys) == Joined(Flatten(xs), Flatten(ys))
  {
    hide Opened;
    if xs == [] {
      assert xs + ys == ys;
      NothingJoined(Flatten(ys));
    } else {
      assert (xs + ys)[0] == xs[0] && (xs + ys)[1..] == xs[1..] + ys;
      FlattenConcat(xs[1..], ys);
      JoinedThrice(Opened(xs[0]), Flatten(xs[1..]), Flatten(ys));
    }
  }

  lemma JoinedThrice(a: Result<seq<Fields>, ParseError>, b: Result<seq<Fields>, ParseError>,
      c: Result<seq<Fields>, ParseError>)
    ensures Joined(a, Joined(b, c)) == Joined(Joined(a, b), c)
  {
    if a.Ok? && b.Ok? && c.Ok? {
      assert a.value + (b.value + c.value) == a.value + b.value + c.value;
    }
  }

  lemma FlattenOne(document: Value)
    ensures Flatten([document]) == Opened(document)
  {
    assert [document][1..] == [];
    if Opened(document).Ok? {
      assert Opened(document).value + [] == Opened(document).value;
    }
    hide Opened;
  }

  predicate IsList(document: Value) {
    document.Mapping? && Field(document, "kind", Null) == Str("List")
  }

  /** What flattening is: documents stay in order, nulls vanish, a list stands for its items
      wherever it occurs, any other mapping for itself, and nothing else flattens. */
  lemma FlattenLaws(xs: seq<Value>, document: Value, ys: seq<Value>)
    ensures document.Null? ==> Flatten(xs + [document] + ys) == Flatten(xs + ys)
    ensures IsList(document) && Field(document, "items", Null).List? ==>
      Flatten(xs + [document] + ys) == Flatten(xs + Field(document, "items", Null).items + ys)
    ensures document.Mapping? && !IsList(document) ==> Flatten([document]) == Ok([document.fields])
    ensures !document.Null? && (!document.Mapping? || (IsList(document) && !Field(document, "items", Null).List?)) ==>
      Flatten([document]).Err? && (Flatten(xs).Ok? ==> Flatten(xs + [document] + ys) == Flatten([document]))
    ensures Flatten([]) == Ok([])
    ensures Flatten(xs + ys) == Joined(Flatten(xs), Flatten(ys))
  {
    FlattenConcat(xs + [document], ys);
    FlattenConcat(xs, [document]);
    FlattenConcat(xs, ys);
    FlattenOne(document);
    if document.Null? {
      assert xs + [] == xs;
      FlattenConcat(xs, []);
    } else if IsList(document) && Field(document, "items", Null).List? {
      var items := Field(document, "items", Null).items;
      FlattenConcat(xs + items, ys);
      FlattenConcat(xs, items);
    }
    hide Flatten;
  }

  /** One object for each document, in order. */
  ghost predicate SaysAll(documents: seq<Fields>, objects: seq<RbacObject>) {
    |documents| == |objects| && forall k :: 0 <= k < |documents| ==> Says(Mapping(documents[k]), objects[k])
  }

  predicate IsServiceAccount(o: RbacObject) { o.ServiceAccountObject? }
  predicate IsRole(o: RbacObject) { o.RoleObject? }
  predicate IsBinding(o: RbacObject) { o.BindingObject? }

  /** The service accounts, roles and bindings among the objects, each in order. */
  function ByKind(objects: seq<RbacObject>): ParsedRbac {
    ParsedRbac(Kept(IsServiceAccount, objects), Kept(IsRole, objects), Kept(IsBinding, objects))
  }

  /** The same, after those already there. */
  function Sorted(parsed: ParsedRbac, objects: seq<RbacObject>): ParsedRbac {
    ParsedRbac(parsed.serviceAccounts + Kept(IsServiceAccount, objects), parsed.roles + Kept(IsRole, objects),
               parsed.bindings + Kept(IsBinding, objects))
  }

  lemma KeptFirst(keep: RbacObject -> bool, before: seq<RbacObject>, objects: seq<RbacObject>)
    requires objects != []
    ensures before + Kept(keep, objects)
      == (if keep(objects[0]) then before + [objects[0]] else before) + Kept(keep, objects[1..])
  {
  }

  lemma SortedFirst(parsed: ParsedRbac, objects: seq<RbacObject>)
    requires objects != []
    ensures Sorted(parsed, objects) == Sorted(Include(parsed, objects[0]), objects[1..])
  {
    KeptFirst(IsServiceAccount, parsed.serviceAccounts, objects);
    KeptFirst(IsRole, parsed.roles, objects);
    KeptFirst(IsBinding, parsed.bindings, objects);
    hide Kept;
  }

  lemma {:induction false} DecodedSays(documents: seq<Fields>, parsed: ParsedRbac) returns (objects: seq<RbacObject>)
    requires DecodeAll(documents, parsed).Ok?
    ensures SaysAll(documents, objects) && DecodeAll(documents, parsed) == Ok(Sorted(parsed, objects))
  {
    hide Decode, Says, Include;
    if documents == [] {
      objects := [];
      assert Sorted(parsed, []) == parsed by { SortedNothing(parsed); }
    } else {
      var o := Decode(documents[0]).value;
      DecodeExactly(Mapping(documents[0]), o);
      var rest := DecodedSays(documents[1..], Include(parsed, o));
      objects := [o] + rest;
      SortedFirst(parsed, objects);
      hide Sorted;
      assert forall k :: 1 <= k < |documents| ==> documents[k] == documents[1..][k - 1] && objects[k] == rest[k - 1];
    }
  }

  lemma SortedNothing(parsed: ParsedRbac)
    ensures Sorted(parsed, []) == parsed
  {
  }

  lemma {:induction false} SaidDecodes(documents: seq<Fields>, parsed: ParsedRbac, objects: seq<RbacObject>)
    requires SaysAll(documents, objects)
    ensures DecodeAll(documents, parsed) == Ok(Sorted(parsed, objects))
  {
    hide Decode, Says, Include, Sorted;
    if documents == [] {
      SortedNothing(parsed);
    } else {
      DecodeExactly(Mapping(documents[0]), objects[0]);
      SortedFirst(parsed, objects);
      SaidDecodes(documents[1..], Include(parsed, objects[0]), objects[1..]);
    }
  }

  /** A source parses exactly when it flattens and each document says some object, and then
      to the objects said: service accounts, roles and bindings each in document order. */
  lemma ParseExactly(documents: seq<Value>, parsed: ParsedRbac)
    ensures Parse(documents) == Ok(parsed) <==>
      && Flatten(documents).Ok?
      && exists objects :: SaysAll(Flatten(documents).value, objects) && parsed == ByKind(objects)
  {
    hide DecodeAll, SaysAll;
    if Flatten(documents).Ok? {
      var flat := Flatten(documents).value;
      if DecodeAll(flat, NOTHING_PARSED).Ok? {
        var objects := DecodedSays(flat, NOTHING_PARSED);
        SortedFromNothing(objects);
      }
      if objects :| SaysAll(flat, objects) && parsed == ByKind(objects) {
        SaidDecodes(flat, NOTHING_PARSED, objects);
        SortedFromNothing(objects);
      }
    }
  }

  lemma SortedFromNothing(objects: seq<RbacObject>)
    ensures Sorted(NOTHING_PARSED, objects) == ByKind(objects)
  {
    assert forall xs: seq<RbacObject> :: [] + xs == xs;
  }

  /** Otherwise parsing fails as flattening does, or as the first document that does not
      decode. */
  lemma {:induction false} DecodeAllFails(documents: seq<Fields>, parsed: ParsedRbac, e: ParseError)
    ensures DecodeAll(documents, parsed) == Err(e) <==>
      exists k :: 0 <= k < |documents| && Decode(documents[k]) == Err(e) &&
        forall j :: 0 <= j < k ==> Decode(documents[j]).Ok?
  {
    hide Decode, Include;
    if documents == [] {
    } else {
      assert forall k :: 1 <= k < |documents| ==> documents[k] == documents[1..][k - 1];
      assert forall k :: 0 <= k < |documents| - 1 ==> documents[1..][k] == documents[k + 1];
      if Decode(documents[0]).Ok? {
        DecodeAllFails(documents[1..], Include(parsed, Decode(documents[0]).value), e);
      }
    }
  }
}

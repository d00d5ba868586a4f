/** Validation and decoding of the supported RBAC subset. */
module Parser {
  import opened Ordering
  import opened Models
  import opened Canonicalizer
  import opened Documents

  datatype ParseError =
    | RbacParseError(message: string)
    | UnsupportedResourceError(apiGroup: string, resource: string)
    | UnhashableKind

  const RBAC_GROUP := "rbac.authorization.k8s.io"

  // ---------- Field checks ----------

  predicate AllStrings(items: seq<Value>) {
    forall v :: v in items ==> v.Str?
  }

  function Texts(items: seq<Value>): seq<string>
    requires AllStrings(items)
  {
    if items == [] then [] else [items[0].text] + Texts(items[1..])
  }

  function Strings(value: Value, field: string, allowEmptyString: bool): Result<seq<string>, ParseError> {
    if !value.List? || value.items == [] then Err(RbacParseError(field + " must be a non-empty list"))
    else if !AllStrings(value.items) then Err(RbacParseError(field + " entries must be strings"))
    else if !allowEmptyString && "" in Texts(value.items) then Err(RbacParseError(field + " entries must not be empty"))
    else Ok(Texts(value.items))
  }

  function Metadata(document: Fields): Result<(string, Option<string>), ParseError> {
    var metadata := Get(document, "metadata");
    if !metadata.Mapping? || !Get(metadata.fields, "name").Str? || Get(metadata.fields, "name").text == "" then
      Err(RbacParseError("every RBAC object requires metadata.name"))
    else
      match Get(metadata.fields, "namespace")
      case Null => Ok((Get(metadata.fields, "name").text, None))
      case Str(namespace) => Ok((Get(metadata.fields, "name").text, Some(namespace)))
      case _ => Err(RbacParseError("metadata.namespace must be a string"))
  }

  function ResourceNames(value: Value): Result<seq<string>, ParseError> {
    if !value.List? then Err(RbacParseError("resourceNames must be a list"))
    else if !AllStrings(value.items) || "" in Texts(value.items) then
      Err(RbacParseError("resourceNames entries must be non-empty strings"))
    else Ok(Texts(value.items))
  }

  predicate KnownVerb(verb: string) {
    verb == "*" || verb in SUPPORTED_VERBS
  }

  function FirstUnknownVerb(verbs: seq<string>): Option<string> {
    if verbs == [] then None
    else if !KnownVerb(verbs[0]) then Some(verbs[0])
    else FirstUnknownVerb(verbs[1..])
  }

  function FirstUnsupportedIn(group: string, resources: seq<string>): Option<(string, string)> {
    if resources == [] then None
    else if !IsSupportedResource(group, resources[0]) then Some((group, resources[0]))
    else FirstUnsupportedIn(group, resources[1..])
  }

  function FirstUnsupported(groups: seq<string>, resources: seq<string>): Option<(string, string)> {
    if groups == [] then None
    else if FirstUnsupportedIn(groups[0], resources).Some? then FirstUnsupportedIn(groups[0], resources)
    else FirstUnsupported(groups[1..], resources)
  }

  // ---------- Rules ----------

  function CheckedRule(groups: seq<string>, resources: seq<string>, verbs: seq<string>, names: seq<string>)
    : Result<PolicyRule, ParseError>
  {
    if FirstUnknownVerb(verbs).Some? then Err(RbacParseError("unsupported verb: " + FirstUnknownVerb(verbs).value))
    else if FirstUnsupported(groups, resources).Some? then
      Err(UnsupportedResourceError(FirstUnsupported(groups, resources).value.0,
          FirstUnsupported(groups, resources).value.1))
    else Ok(PolicyRule(groups, resources, verbs, names))
  }

  function Rule(raw: Value): Result<PolicyRule, ParseError> {
    if !raw.Mapping? then Err(RbacParseError("each rule must be a mapping"))
    else
      match Strings(GetOr(raw.fields, "apiGroups", List([Str("")])), "apiGroups", true)
      case Err(e) => Err(e)
      case Ok(groups) =>
        match Strings(Get(raw.fields, "resources"), "resources", false)
        case Err(e) => Err(e)
        case Ok(resources) =>
          match Strings(Get(raw.fields, "verbs"), "verbs", false)
          case Err(e) => Err(e)
          case Ok(verbs) =>
            match ResourceNames(GetOr(raw.fields, "resourceNames", List([])))
            case Err(e) => Err(e)
            case Ok(names) => CheckedRule(groups, resources, verbs, names)
  }

  /** Decode every item in order; the first failure is the answer. */
  function RuleList(items: seq<Value>): Result<seq<PolicyRule>, ParseError> {
    if items == [] then Ok([])
    else
      match Rule(items[0])
      case Err(e) => Err(e)
      case Ok(rule) =>
        match RuleList(items[1..])
        case Err(e) => Err(e)
        case Ok(rest) => Ok([rule] + rest)
  }

  function Rules(value: Value): Result<seq<PolicyRule>, ParseError> {
    if !value.List? then Err(RbacParseError("rules must be a list")) else RuleList(value.items)
  }

  // ---------- Bindings ----------

  function OptionalText(text: Option<string>): Value {
    if text.Some? then Str(text.value) else Null
  }

  /** A binding subject: None for kinds other than ServiceAccount, which are skipped. */
  function Subject(raw: Value, namespace: Option<string>): Result<Option<ServiceAccountRef>, ParseError> {
    if !raw.Mapping? then Err(RbacParseError("binding subjects must be mappings"))
    else if Get(raw.fields, "kind") != Str("ServiceAccount") then Ok(None)
    else
      var name := Get(raw.fields, "name");
      var own := Get(raw.fields, "namespace");
      var scope := if Truthy(own) then own else OptionalText(namespace);
      if name.Str? && name.text != "" && scope.Str?
          && scope.text != "" then Ok(Some(ServiceAccountRef(name.text, scope.text)))
      else Err(RbacParseError("ServiceAccount subjects require name and namespace"))
  }

  function SubjectList(items: seq<Value>, namespace: Option<string>): Result<seq<ServiceAccountRef>, ParseError> {
    if items == [] then Ok([])
    else
      match Subject(items[0], namespace)
      case Err(e) => Err(e)
      case Ok(subject) =>
        match SubjectList(items[1..], namespace)
        case Err(e) => Err(e)
        case Ok(rest) => Ok((if subject.Some? then [subject.value] else []) + rest)
  }

  predicate Unhashable(v: Value) {
    v.List? || v.Mapping?
  }

  function RoleRef(value: Value): Result<(string, string), ParseError> {
    var invalid := Err(RbacParseError("binding requires a valid roleRef"));
    if !value.Mapping? || Get(value.fields, "apiGroup") != Str(RBAC_GROUP) then invalid
    else if Unhashable(Get(value.fields, "kind")) then Err(UnhashableKind)
    else if Get(value.fields, "kind") != Str("Role") && Get(value.fields, "kind") != Str("ClusterRole") then invalid
    else if !Get(value.fields, "name").Str? || Get(value.fields, "name").text == "" then invalid
    else Ok((Get(value.fields, "kind").text, Get(value.fields, "name").text))
  }

  function Binding(document: Fields, kind: string, name: string,
      namespace: Option<string>): Result<RbacObject, ParseError> {
    if kind == "RoleBinding" && OrEmpty(namespace) == "" then
      Err(RbacParseError("RoleBinding requires metadata.namespace"))
    else
      match RoleRef(Get(document, "roleRef"))
      case Err(e) => Err(e)
      case Ok((roleKind, roleName)) =>
        if kind == "ClusterRoleBinding" && roleKind != "ClusterRole" then
          Err(RbacParseError("ClusterRoleBinding must reference a ClusterRole"))
        else if !GetOr(document, "subjects", List([])).List? then Err(RbacParseError("binding subjects must be a list"))
        else
          match SubjectList(GetOr(document, "subjects", List([])).items, namespace)
          case Err(e) => Err(e)
          case Ok(subjects) =>
            Ok(BindingObject(name, if kind == "RoleBinding" then namespace else None, roleName, roleKind, subjects,
                             kind == "ClusterRoleBinding"))
  }

  // ---------- Documents ----------

  function RoleDocument(document: Fields, kind: string, name: string,
      namespace: Option<string>): Result<RbacObject, ParseError> {
    if kind == "Role" && OrEmpty(namespace) == "" then Err(RbacParseError("Role requires metadata.namespace"))
    else
      match Rules(GetOr(document, "rules", List([])))
      case Err(e) => Err(e)
      case Ok(rules) => Ok(RoleObject(name, if kind == "Role" then namespace else None, rules, kind == "ClusterRole"))
  }

  predicate SupportedKind(kind: Value) {
    kind.Str? && kind.text in ["ServiceAccount", "Role", "ClusterRole", "RoleBinding", "ClusterRoleBinding"]
  }

  function Decode(document: Fields): Result<RbacObject, ParseError> {
    var kind := Get(document, "kind");
    if Unhashable(kind) then Err(UnhashableKind)
    else if !SupportedKind(kind) then Err(RbacParseError("unsupported RBAC kind"))
    else
      match Metadata(document)
      case Err(e) => Err(e)
      case Ok((name, namespace)) =>
        if kind.text == "ServiceAccount" then
          if OrEmpty(namespace) == "" then Err(RbacParseError("ServiceAccount requires metadata.namespace"))
          else Ok(ServiceAccountObject(name, OrEmpty(namespace)))
        else if kind.text == "Role" || kind.text == "ClusterRole" then RoleDocument(document, kind.text, name,
            namespace)
        else Binding(document, kind.text, name, namespace)
  }

  /** `_flatten_documents`: nulls vanish, lists are opened in place, at any depth. */
  function Flatten(documents: seq<Value>): Result<seq<Fields>, ParseError>
    decreases documents
  {
    if documents == [] then Ok([]) else Joined(Opened(documents[0]), Flatten(documents[1..]))
  }

  /** What one document contributes. */
  function Opened(document: Value): Result<seq<Fields>, ParseError>
    decreases document
  {
    if document.Null? then Ok([])
    else if !document.Mapping? then Err(RbacParseError("YAML documents must be mappings"))
    else if Get(document.fields, "kind") == Str("List") then
      if "items" in document.fields && document.fields["items"].List? then Flatten(document.fields["items"].items)
      else Err(RbacParseError("List.items must be a list"))
    else Ok([document.fields])
  }

  /** Sequencing: an earlier failure hides a later one. */
  function Joined(first: Result<seq<Fields>, ParseError>,
      rest: Result<seq<Fields>, ParseError>): Result<seq<Fields>, ParseError> {
    match first
    case Err(e) => Err(e)
    case Ok(xs) =>
      match rest
      case Err(e) => Err(e)
      case Ok(ys) => Ok(xs + ys)
  }

  function DecodeAll(documents: seq<Fields>, parsed: ParsedRbac): Result<ParsedRbac, ParseError> {
    if documents == [] then Ok(parsed)
    else
      match Decode(documents[0])
      case Err(e) => Err(e)
      case Ok(o) => DecodeAll(documents[1..], Include(parsed, o))
  }

  function Parse(documents: seq<Value>): Result<ParsedRbac, ParseError> {
    match Flatten(documents)
    case Err(e) => Err(e)
    case Ok(flat) => DecodeAll(flat, NOTHING_PARSED)
  }

  // ---------- The loops ----------

  method FlattenDocuments(documents: seq<Value>) returns (r: Result<seq<Fields>, ParseError>)
    ensures r == Flatten(documents)
    decreases documents
  {
    var flattened: seq<Fields> := [];
    var i := 0;
    assert documents[0..] == documents;
    NothingJoined(Flatten(documents));
    while i < |documents|
      invariant 0 <= i <= |documents|
      invariant Joined(Ok(flattened), Flatten(documents[i..])) == Flatten(documents)
    {
      OpenedFirst(documents, i, flattened);
      hide Joined, Flatten;
      var document := documents[i];
      if document.Null? {
      } else if !document.Mapping? {
        return Err(RbacParseError("YAML documents must be mappings"));
      } else if Get(document.fields, "kind") == Str("List") {
        if !Get(document.fields, "items").List? {
          return Err(RbacParseError("List.items must be a list"));
        }
        var inner := FlattenDocuments(document.fields["items"].items);
        if inner.Err? {
          return Err(inner.error);
        }
        flattened := flattened + inner.value;
      } else {
        flattened := flattened + [document.fields];
      }
      i := i + 1;
    }
    assert documents[i..] == [] && flattened + [] == flattened;
    return Ok(flattened);
  }

  /** Taking one more document off the list. */
  lemma OpenedFirst(documents: seq<Value>, i: nat, flattened: seq<Fields>)
    requires i < |documents|
    ensures var all := Joined(Ok(flattened), Flatten(documents[i..]));
      match Opened(documents[i])
      case Err(e) => all == Err(e)
      case Ok(ys) => all == Joined(Ok(flattened + ys), Flatten(documents[i + 1..]))
    ensures flattened + [] == flattened
  {
    assert documents[i..][0] == documents[i] && documents[i..][1..] == documents[i + 1..];
    hide Opened;
    JoinedAssociates(flattened, Flatten(documents[i + 1..]));
  }

  lemma NothingJoined(r: Result<seq<Fields>, ParseError>)
    ensures Joined(Ok([]), r) == r
  {
    if r.Ok? {
      assert [] + r.value == r.value;
    }
  }

  lemma JoinedAssociates(xs: seq<Fields>, rest: Result<seq<Fields>, ParseError>)
    ensures forall ys :: Joined(Ok(xs + ys), rest) == Joined(Ok(xs), Joined(Ok(ys), rest))
  {
    forall ys ensures Joined(Ok(xs + ys), rest) == Joined(Ok(xs), Joined(Ok(ys), rest)) {
      if rest.Ok? {
        assert (xs + ys) + rest.value == xs + (ys + rest.value);
      }
    }
  }

  function RulesJoined(first: seq<PolicyRule>, rest: Result<seq<PolicyRule>, ParseError>): Result<seq<PolicyRule>,
      ParseError> {
    match rest
    case Err(e) => Err(e)
    case Ok(rules) => Ok(first + rules)
  }

  method ParseRules(value: Value) returns (r: Result<seq<PolicyRule>, ParseError>)
    ensures r == Rules(value)
  {
    hide Rule;
    if !value.List? {
      return Err(RbacParseError("rules must be a list"));
    }
    var result: seq<PolicyRule> := [];
    var i := 0;
    assert value.items[0..] == value.items;
    assert forall rules: seq<PolicyRule> :: [] + rules == rules;
    while i < |value.items|
      invariant 0 <= i <= |value.items|
      invariant RulesJoined(result, RuleList(value.items[i..])) == RuleList(value.items)
    {
      assert value.items[i..][0] == value.items[i] && value.items[i..][1..] == value.items[i + 1..];
      var rule := Rule(value.items[i]);
      if rule.Err? {
        return Err(rule.error);
      }
      assert forall rules: seq<PolicyRule> :: (result + [rule.value]) + rules == result + ([rule.value] + rules);
      result := result + [rule.value];
      i := i + 1;
    }
    assert value.items[i..] == [] && result + [] == result;
    return Ok(result);
  }

  method ParseRbac(documents: seq<Value>) returns (r: Result<ParsedRbac, ParseError>)
    ensures r == Parse(documents)
  {
    var flat := FlattenDocuments(documents);
    if flat.Err? {
      return Err(flat.error);
    }
    var parsed := NOTHING_PARSED;
    var i := 0;
    assert flat.value[0..] == flat.value;
    while i < |flat.value|
      invariant 0 <= i <= |flat.value|
      invariant DecodeAll(flat.value[i..], parsed) == DecodeAll(flat.value, NOTHING_PARSED)
    {
      assert flat.value[i..][0] == flat.value[i] && flat.value[i..][1..] == flat.value[i + 1..];
      var o := Decode(flat.value[i]);
      if o.Err? {
        return Err(o.error);
      }
      parsed := Include(parsed, o.value);
      i := i + 1;
    }
    return Ok(parsed);
  }

  // ---------- What parsing establishes ----------

  /** A rule the parser lets through: known verbs, supported resources, non-empty names. */
  ghost predicate SoundRule(rule: PolicyRule) {
    && rule.apiGroups != [] && rule.resources != [] && rule.verbs != []
    && (forall v :: v in rule.verbs ==> KnownVerb(v))
    && (forall g, r :: g in rule.apiGroups && r in rule.resources ==> IsSupportedResource(g, r))
    && "" !in rule.resourceNames
  }

  /** A role has a namespace unless it is a ClusterRole; a binding has one unless it is a
      ClusterRoleBinding, which can only point at a ClusterRole. */
  ghost predicate SoundObject(o: RbacObject) {
    match o
    case ServiceAccountObject(name, namespace) => name != "" && namespace != ""
    case RoleObject(name, namespace, rules, clusterRole) =>
      name != "" && (namespace.None? <==> clusterRole) && namespace != Some("") && forall rule :: rule in rules ==>
          SoundRule(rule)
    case BindingObject(name, namespace, roleName, roleKind, subjects, clusterBinding) =>
      && name != "" && roleName != "" && (roleKind == "Role" || roleKind == "ClusterRole")
      && (namespace.None? <==> clusterBinding) && namespace != Some("")
      && (clusterBinding ==> roleKind == "ClusterRole")
      && forall s :: s in subjects ==> s.name != "" && s.namespace != ""
  }

  ghost predicate SoundParse(parsed: ParsedRbac) {
    && (forall o :: o in parsed.serviceAccounts ==> o.ServiceAccountObject? && SoundObject(o))
    && (forall o :: o in parsed.roles ==> o.RoleObject? && SoundObject(o))
    && (forall o :: o in parsed.bindings ==> o.BindingObject? && SoundObject(o))
  }

  lemma {:induction false} FirstUnknownVerbFacts(verbs: seq<string>)
    ensures FirstUnknownVerb(verbs).None? <==> forall v :: v in verbs ==> KnownVerb(v)
  {
    if verbs == [] {
    } else {
      FirstUnknownVerbFacts(verbs[1..]);
      assert verbs[0] in verbs;
      assert forall v :: v in verbs <==> v == verbs[0] || v in verbs[1..];
    }
  }

  lemma {:induction false} FirstUnsupportedInFacts(group: string, resources: seq<string>)
    ensures FirstUnsupportedIn(group, resources).None? <==> forall r :: r in resources ==> IsSupportedResource(group, r)
  {
    if resources == [] {
    } else {
      FirstUnsupportedInFacts(group, resources[1..]);
      assert resources[0] in resources;
      assert forall r :: r in resources <==> r == resources[0] || r in resources[1..];
    }
  }

  lemma {:induction false} FirstUnsupportedFacts(groups: seq<string>, resources: seq<string>)
    ensures FirstUnsupported(groups, resources).None? <==>
      forall g, r :: g in groups && r in resources ==> IsSupportedResource(g, r)
  {
    hide IsSupportedResource;
    if groups == [] {
    } else {
      FirstUnsupportedFacts(groups[1..], resources);
      FirstUnsupportedInFacts(groups[0], resources);
      assert groups[0] in groups;
      assert forall g :: g in groups <==> g == groups[0] || g in groups[1..];
    }
  }

  lemma RuleIsSound(raw: Value)
    requires Rule(raw).Ok?
    ensures SoundRule(Rule(raw).value)
  {
    hide IsSupportedResource, FirstUnknownVerb, FirstUnsupported;
    var rule := Rule(raw).value;
    FirstUnknownVerbFacts(rule.verbs);
    FirstUnsupportedFacts(rule.apiGroups, rule.resources);
  }

  lemma {:induction false} RuleListIsSound(items: seq<Value>)
    requires RuleList(items).Ok?
    ensures forall rule :: rule in RuleList(items).value ==> SoundRule(rule)
  {
    hide Rule, SoundRule;
    if items == [] {
    } else {
      RuleIsSound(items[0]);
      RuleListIsSound(items[1..]);
    }
  }

  lemma {:induction false} SubjectListIsSound(items: seq<Value>, namespace: Option<string>)
    requires SubjectList(items, namespace).Ok?
    ensures forall s :: s in SubjectList(items, namespace).value ==> s.name != "" && s.namespace != ""
  {
    if items == [] {
    } else {
      SubjectListIsSound(items[1..], namespace);
    }
  }

  lemma DecodeIsSound(document: Fields)
    requires Decode(document).Ok?
    ensures SoundObject(Decode(document).value)
  {
    hide RuleList, SubjectList, SoundRule;
    var kind := Get(document, "kind").text;
    var (name, namespace) := Metadata(document).value;
    if kind == "Role" || kind == "ClusterRole" {
      RuleListIsSound(GetOr(document, "rules", List([])).items);
    } else if kind == "RoleBinding" || kind == "ClusterRoleBinding" {
      SubjectListIsSound(GetOr(document, "subjects", List([])).items, namespace);
    }
  }

  lemma {:induction false} DecodeAllIsSound(documents: seq<Fields>, parsed: ParsedRbac)
    requires DecodeAll(documents, parsed).Ok? && SoundParse(parsed)
    ensures SoundParse(DecodeAll(documents, parsed).value)
  {
    hide Decode, SoundObject;
    if documents == [] {
    } else {
      DecodeIsSound(documents[0]);
      DecodeAllIsSound(documents[1..], Include(parsed, Decode(documents[0]).value));
    }
  }

  /** Whatever parses has passed every check: in particular each RoleBinding carries a
      namespace, which the resolver relies on to keep its grants in scope. */
  lemma ParseIsSound(documents: seq<Value>)
    requires Parse(documents).Ok?
    ensures SoundParse(Parse(documents).value)
  {
    hide SoundObject;
    DecodeAllIsSound(Flatten(documents).value, NOTHING_PARSED);
  }

  /** Parsing succeeds exactly when flattening does and every document decodes on its own. */
  lemma {:induction false} DecodeAllOk(documents: seq<Fields>, parsed: ParsedRbac)
    ensures DecodeAll(documents, parsed).Ok? <==> forall d :: d in documents ==> Decode(d).Ok?
  {
    hide Decode;
    if documents == [] {
    } else {
      assert documents[0] in documents;
      assert forall d :: d in documents <==> d == documents[0] || d in documents[1..];
      if Decode(documents[0]).Ok? {
        DecodeAllOk(documents[1..], Include(parsed, Decode(documents[0]).value));
      }
    }
  }
}

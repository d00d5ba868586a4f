/** RBAC documents as loaded from YAML, and the objects the parser turns them into. */
module Documents {
  import opened Ordering
  import opened Models

  /** A loaded YAML value. `Scalar` stands for numbers and booleans, of which only
      truthiness ever matters. */
  datatype Value =
    | Null
    | Str(text: string)
    | Scalar(truthy: bool)
    | List(items: seq<Value>)
    | Mapping(fields: map<string, Value>)

  type Fields = map<string, Value>

  /** `document.get(name)`. */
  function Get(fields: Fields, name: string): Value {
    if name in fields then fields[name] else Null
  }

  /** `document.get(name, default)`: an explicit null is not replaced. */
  function GetOr(fields: Fields, name: string, default: Value): Value {
    if name in fields then fields[name] else default
  }

  /** Python truth of a loaded value. */
  predicate Truthy(v: Value) {
    match v
    case Null => false
    case Str(text) => text != ""
    case Scalar(truthy) => truthy
    case List(items) => items != []
    case Mapping(fields) => fields != map[]
  }

  datatype PolicyRule = PolicyRule(
    apiGroups: seq<string>, resources: seq<string>, verbs: seq<string>, resourceNames: seq<string>)

  datatype RbacObject =
    | ServiceAccountObject(name: string, accountNamespace: string)
    | RoleObject(name: string, namespace: Option<string>, rules: seq<PolicyRule>, clusterRole: bool)
    | BindingObject(name: string, namespace: Option<string>, roleName: string, roleKind: string,
                    subjects: seq<ServiceAccountRef>, clusterBinding: bool)

  datatype ParsedRbac = ParsedRbac(serviceAccounts: seq<RbacObject>, roles: seq<RbacObject>, bindings: seq<RbacObject>)

  const NOTHING_PARSED: ParsedRbac := ParsedRbac([], [], [])

  /** Each object joins the list of its kind. */
  function Include(parsed: ParsedRbac, o: RbacObject): ParsedRbac {
    match o
    case ServiceAccountObject(_, _) => parsed.(serviceAccounts := parsed.serviceAccounts + [o])
    case RoleObject(_, _, _, _) => parsed.(roles := parsed.roles + [o])
    case BindingObject(_, _, _, _, _, _) => parsed.(bindings := parsed.bindings + [o])
  }
}

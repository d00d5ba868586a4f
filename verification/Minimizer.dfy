/** The least policy for a set of observed calls, and repair constrained to what the
    original policy allowed. */
module Minimizer {
  import opened Ordering
  import opened Models
  import opened Authorization
  import opened Canonicalizer

  const RESOURCE_NAME_SAFE_VERBS: set<string> := {"get", "update", "patch", "delete"}

  datatype ReduceError =
    | UnsupportedVerb(verb: string)
    | UnsupportedResource(apiGroup: string, resource: string)
    | ObservedUnauthorized(events: seq<KubeEvent>)
    | WouldInvent(event: KubeEvent)
    | NotRepairable

  predicate Supported(e: KubeEvent) {
    e.verb in SUPPORTED_VERBS && IsSupportedResource(e.apiGroup, e.resource)
  }

  /** The permission `event_permission` builds once it has accepted the event. */
  function Narrowest(e: KubeEvent): Permission {
    Permission(e.apiGroup, e.resource, e.verb, e.namespace,
               if e.verb in RESOURCE_NAME_SAFE_VERBS then e.resourceName else None,
               Some("Kuber/verified"))
  }

  function EventPermission(e: KubeEvent): Result<Permission, ReduceError> {
    if e.verb !in SUPPORTED_VERBS then Err(UnsupportedVerb(e.verb))
    else if !IsSupportedResource(e.apiGroup, e.resource) then Err(UnsupportedResource(e.apiGroup, e.resource))
    else Ok(Narrowest(e))
  }

  function EventPermissions(events: seq<KubeEvent>): Result<seq<Permission>, ReduceError> {
    if events == [] then Ok([])
    else
      match EventPermission(events[0])
      case Err(error) => Err(error)
      case Ok(p) =>
        match EventPermissions(events[1..])
        case Err(error) => Err(error)
        case Ok(rest) => Ok([p] + rest)
  }

  function Unauthorized(policy: Policy, events: seq<KubeEvent>): seq<KubeEvent> {
    if events == [] then []
    else (if IsAuthorized(policy, events[0]) then [] else [events[0]]) + Unauthorized(policy, events[1..])
  }

  function ObservedOnlyPolicy(current: Policy, observed: seq<KubeEvent>): Result<Policy, ReduceError> {
    if Unauthorized(current, observed) != [] then Err(ObservedUnauthorized(Unauthorized(current, observed)))
    else
      match EventPermissions(observed)
      case Err(error) => Err(error)
      case Ok(ps) => Ok(MakePolicy(ps, current.serviceAccount + "-kuber", current.serviceAccount,
          current.serviceAccountNamespace))
  }

  /** The grants a repair adds, or the first reason it refuses. */
  function Additions(missing: seq<KubeEvent>, original: Policy): Result<seq<Permission>, ReduceError> {
    if missing == [] then Ok([])
    else if !IsAuthorized(original, missing[0]) then Err(WouldInvent(missing[0]))
    else
      match EventPermission(missing[0])
      case Err(error) => Err(error)
      case Ok(p) =>
        match Additions(missing[1..], original)
        case Err(error) => Err(error)
        case Ok(rest) => Ok([p] + rest)
  }

  function RepairPolicy(candidate: Policy, missing: seq<KubeEvent>, original: Policy): Result<Policy, ReduceError> {
    match Additions(missing, original)
    case Err(error) => Err(error)
    case Ok(added) => Ok(WithPermissions(candidate, candidate.permissions + added))
  }

  /** What a run of the repair loop over `done` more events leaves of the final answer. */
  function Prepend(ps: seq<Permission>, rest: Result<seq<Permission>, ReduceError>): Result<seq<Permission>,
      ReduceError> {
    match rest
    case Err(error) => Err(error)
    case Ok(qs) => Ok(ps + qs)
  }

  /** `repair_policy`: the first event it may not restore stops the loop. */
  method Repair(candidate: Policy, missing: seq<KubeEvent>, original: Policy) returns (r: Result<Policy, ReduceError>)
    ensures r == RepairPolicy(candidate, missing, original)
  {
    var additions: seq<Permission> := [];
    var i := 0;
    assert missing[0..] == missing;
    assert forall qs: seq<Permission> :: additions + qs == qs;
    while i < |missing|
      invariant 0 <= i <= |missing|
      invariant Prepend(additions, Additions(missing[i..], original)) == Additions(missing, original)
    {
      assert missing[i..][1..] == missing[i + 1..];
      if !IsAuthorized(original, missing[i]) {
        return Err(WouldInvent(missing[i]));
      }
      match EventPermission(missing[i]) {
        case Err(error) => return Err(error);
        case Ok(p) =>
          assert forall qs: seq<Permission> :: (additions + [p]) + qs == additions + ([p] + qs);
          additions := additions + [p];
      }
      i := i + 1;
    }
    assert missing[i..] == [] && additions + [] == additions;
    return Ok(WithPermissions(candidate, candidate.permissions + additions));
  }

  // ---------- Narrowness ----------

  /** `event_permission` is the narrowest grant for its event: a permission matches the
      event exactly when it covers everything the built permission covers. */
  lemma NarrowestIsLeast(p: Permission, e: KubeEvent)
    ensures Matches(p, e) <==> forall e' :: Matches(Narrowest(e), e') ==> Matches(p, e')
    ensures Matches(Narrowest(e), e)
  {
  }

  lemma NarrowestIsLeastForPolicies(ps: seq<Permission>, e: KubeEvent)
    ensures Grants(ps, e) <==> CoversPermission(ps, Narrowest(e))
  {
  }

  ghost predicate AllGranted(ps: seq<Permission>, events: seq<KubeEvent>) {
    forall e :: e in events ==> Grants(ps, e)
  }

  /** The keys the least policy for `events` holds. */
  function Needed(events: seq<KubeEvent>): set<PermKey> {
    set e | e in events :: Key(Narrowest(e))
  }

  lemma KeyIsNeeded(e: KubeEvent, events: seq<KubeEvent>)
    requires e in events
    ensures Key(Narrowest(e)) in Needed(events)
  {
  }

  /** A policy holding exactly the needed keys is least: a policy authorizes all the events
      exactly when it covers it. */
  lemma LeastPolicy(least: seq<Permission>, events: seq<KubeEvent>, ps: seq<Permission>)
    requires KeySet(least) == Needed(events)
    ensures AllGranted(ps, events) <==> Covers(ps, least)
    ensures AllGranted(least, events)
  {
    LeastGrants(least, events);
    if AllGranted(ps, events) {
      forall x | Grants(least, x) ensures Grants(ps, x) {
        var q :| q in least && Matches(q, x);
        assert Key(q) in KeySet(least);
        var e :| e in events && Key(Narrowest(e)) == Key(q);
        MatchesByKey(q, Narrowest(e), x);
        NarrowestIsLeastForPolicies(ps, e);
      }
    }
  }

  lemma LeastGrants(least: seq<Permission>, events: seq<KubeEvent>)
    requires Needed(events) <= KeySet(least)
    ensures AllGranted(least, events)
  {
    forall e | e in events ensures Grants(least, e) {
      KeyIsNeeded(e, events);
      assert Key(Narrowest(e)) in KeySet(least);
      var q :| q in least && Key(q) == Key(Narrowest(e));
      NarrowestIsLeast(q, e);
      MatchesByKey(q, Narrowest(e), e);
    }
  }

  // ---------- When reduction and repair succeed, and with what ----------

  ghost predicate AllSupported(events: seq<KubeEvent>) {
    forall e :: e in events ==> Supported(e)
  }

  lemma AllSupportedSplit(events: seq<KubeEvent>)
    requires events != []
    ensures AllSupported(events) <==> Supported(events[0]) && AllSupported(events[1..])
  {
  }

  lemma AllGrantedSplit(ps: seq<Permission>, events: seq<KubeEvent>)
    requires events != []
    ensures AllGranted(ps, events) <==> Grants(ps, events[0]) && AllGranted(ps, events[1..])
  {
  }

  lemma {:induction false} UnauthorizedEmpty(policy: Policy, events: seq<KubeEvent>)
    ensures Unauthorized(policy, events) == [] <==> AllGranted(policy.permissions, events)
    ensures forall e :: e in Unauthorized(policy, events) <==> e in events && !Grants(policy.permissions, e)
  {
    if events == [] {
    } else {
      UnauthorizedEmpty(policy, events[1..]);
      AuthorizeMeaning(policy, events[0]);
      assert events == [events[0]] + events[1..];
    }
  }

  lemma {:induction false} EventPermissionsFacts(events: seq<KubeEvent>)
    ensures EventPermissions(events).Ok? <==> AllSupported(events)
    ensures EventPermissions(events).Ok? ==> EventPermissions(events).value == Map(Narrowest, events)
  {
    if events == [] {
    } else {
      EventPermissionsFacts(events[1..]);
      AllSupportedSplit(events);
    }
  }

  lemma NarrowestKeys(events: seq<KubeEvent>)
    ensures KeySet(Map(Narrowest, events)) == Needed(events)
  {
  }

  /** `observed_only_policy` succeeds exactly when every observed call is authorized and
      supported; it then authorizes all of them, and any policy that authorizes all of
      them covers it. */
  lemma ObservedOnlyIsLeast(current: Policy, observed: seq<KubeEvent>)
    ensures var r := ObservedOnlyPolicy(current, observed);
      && (r.Ok? <==> AllGranted(current.permissions, observed) && AllSupported(observed))
      && (r.Ok? ==>
            && KeySet(r.value.permissions) == Needed(observed)
            && Normal(r.value.permissions)
            && forall ps :: AllGranted(ps, observed) <==> Covers(ps, r.value.permissions))
  {
    UnauthorizedEmpty(current, observed);
    EventPermissionsFacts(observed);
    var r := ObservedOnlyPolicy(current, observed);
    if r.Ok? {
      NarrowestKeys(observed);
      NormalizeKeySet(Map(Narrowest, observed));
      NormalizeIsNormal(Map(Narrowest, observed));
      forall ps ensures AllGranted(ps, observed) <==> Covers(ps, r.value.permissions) {
        LeastPolicy(r.value.permissions, observed, ps);
      }
    }
  }

  lemma {:induction false} AdditionsFacts(missing: seq<KubeEvent>, original: Policy)
    ensures Additions(missing, original).Ok? <==> AllGranted(original.permissions, missing) && AllSupported(missing)
    ensures Additions(missing, original).Ok? ==> Additions(missing, original).value == Map(Narrowest, missing)
  {
    if missing == [] {
    } else {
      AdditionsFacts(missing[1..], original);
      AuthorizeMeaning(original, missing[0]);
      AllSupportedSplit(missing);
      AllGrantedSplit(original.permissions, missing);
    }
  }

  lemma KeySetOfConcat(ps: seq<Permission>, qs: seq<Permission>)
    ensures KeySet(ps + qs) == KeySet(ps) + KeySet(qs)
  {
  }

  /** `repair_policy` succeeds exactly when every denied call was originally authorized and
      is supported, and adds the narrowest grant for each and nothing else. */
  lemma RepairAddsOnlyNeeded(candidate: Policy, missing: seq<KubeEvent>, original: Policy)
    ensures var r := RepairPolicy(candidate, missing, original);
      && (r.Ok? <==> AllGranted(original.permissions, missing) && AllSupported(missing))
      && (r.Ok? ==>
            && KeySet(r.value.permissions) == KeySet(candidate.permissions) + Needed(missing)
            && Normal(r.value.permissions)
            && AllGranted(r.value.permissions, missing))
  {
    AdditionsFacts(missing, original);
    var r := RepairPolicy(candidate, missing, original);
    if r.Ok? {
      var ps := candidate.permissions + Map(Narrowest, missing);
      NarrowestKeys(missing);
      KeySetOfConcat(candidate.permissions, Map(Narrowest, missing));
      NormalizeKeySet(ps);
      NormalizeIsNormal(ps);
      LeastGrants(r.value.permissions, missing);
    }
  }

  /** A needed grant read back as an event is one the original policy answers yes to. */
  lemma NarrowestPassesCheck(ps: seq<Permission>, e: KubeEvent)
    requires Grants(ps, e)
    ensures Grants(ps, AsEvent(Narrowest(e)))
  {
  }

  // ---------- What is refused, and for what ----------

  /** An event `event_permission` refuses, and why. */
  predicate RefusedFor(e: KubeEvent, error: ReduceError) {
    if e.verb !in SUPPORTED_VERBS then error == UnsupportedVerb(e.verb)
    else !IsSupportedResource(e.apiGroup, e.resource) && error == UnsupportedResource(e.apiGroup, e.resource)
  }

  lemma {:induction false} FirstUnsupported(events: seq<KubeEvent>) returns (i: int)
    requires EventPermissions(events).Err?
    ensures 0 <= i < |events| && RefusedFor(events[i], EventPermissions(events).error)
    ensures forall j :: 0 <= j < i ==> Supported(events[j])
  {
    hide IsSupportedResource;
    if EventPermission(events[0]).Err? {
      i := 0;
    } else {
      i := FirstUnsupported(events[1..]);
      i := i + 1;
      assert forall j :: 1 <= j < |events| ==> events[j] == events[1..][j - 1];
    }
  }

  /** Event `i` is the first one refused, and this is why. */
  ghost predicate FirstRefused(events: seq<KubeEvent>, i: int, error: ReduceError) {
    0 <= i < |events| && RefusedFor(events[i], error) && forall j :: 0 <= j < i ==> Supported(events[j])
  }

  lemma {:induction false} UnauthorizedKept(policy: Policy, events: seq<KubeEvent>)
    ensures Unauthorized(policy, events) == Kept(e => !Grants(policy.permissions, e), events)
  {
    if events == [] {
    } else {
      UnauthorizedKept(policy, events[1..]);
      AuthorizeMeaning(policy, events[0]);
    }
  }

  /** The policy `observed_only_policy` builds is the current account's own; otherwise it
      lists every observed call the current policy does not grant, or, if it grants them
      all, refuses the first that is not supported. */
  lemma ObservedOnlyOutcome(current: Policy, observed: seq<KubeEvent>)
    ensures match ObservedOnlyPolicy(current, observed)
      case Ok(policy) =>
        && policy.name == current.serviceAccount + "-kuber"
        && policy.serviceAccount == current.serviceAccount
        && policy.serviceAccountNamespace == current.serviceAccountNamespace
        && forall p :: p in policy.permissions ==> p.source == Some("Kuber/verified")
      case Err(error) =>
        if AllGranted(current.permissions, observed)
        then exists i :: FirstRefused(observed, i, error)
        else error == ObservedUnauthorized(Kept(e => !Grants(current.permissions, e), observed))
  {
    UnauthorizedEmpty(current, observed);
    UnauthorizedKept(current, observed);
    EventPermissionsFacts(observed);
    hide Normalize, Grants, Supported;
    if Unauthorized(current, observed) == [] {
      if EventPermissions(observed).Err? {
        var i := FirstUnsupported(observed);
        assert FirstRefused(observed, i, EventPermissions(observed).error);
      } else {
        NormalizeFacts(Map(Narrowest, observed));
        hide EventPermissions;
        forall p | p in Normalize(Map(Narrowest, observed)) ensures p.source == Some("Kuber/verified") {
          assert LastOfItsKey(Map(Narrowest, observed), p);
        }
      }
    }
  }

  /** Denied call `i` is the first that may not be restored, and this is why: the original
      policy never granted it, or it is not supported. */
  ghost predicate FirstUnrestorable(original: Policy, missing: seq<KubeEvent>, i: int, error: ReduceError) {
    && 0 <= i < |missing|
    && (forall j :: 0 <= j < i ==> Grants(original.permissions, missing[j]) && Supported(missing[j]))
    && if Grants(original.permissions, missing[i]) then RefusedFor(missing[i], error)
       else error == WouldInvent(missing[i])
  }

  lemma {:induction false} AdditionsRefused(missing: seq<KubeEvent>, original: Policy) returns (i: int)
    requires Additions(missing, original).Err?
    ensures FirstUnrestorable(original, missing, i, Additions(missing, original).error)
  {
    hide IsSupportedResource, Grants;
    AuthorizeMeaning(original, missing[0]);
    if !IsAuthorized(original, missing[0]) || EventPermission(missing[0]).Err? {
      i := 0;
    } else {
      i := AdditionsRefused(missing[1..], original);
      i := i + 1;
      assert forall j :: 1 <= j < |missing| ==> missing[j] == missing[1..][j - 1];
    }
  }

  /** A repaired policy is the candidate's own; a repair is refused for the first denied call
      that may not be restored. */
  lemma RepairOutcome(candidate: Policy, missing: seq<KubeEvent>, original: Policy)
    ensures match RepairPolicy(candidate, missing, original)
      case Ok(policy) =>
        && policy.name == candidate.name && policy.serviceAccount == candidate.serviceAccount
        && policy.serviceAccountNamespace == candidate.serviceAccountNamespace
      case Err(error) => exists i :: FirstUnrestorable(original, missing, i, error)
  {
    hide Normalize;
    if Additions(missing, original).Err? {
      var i := AdditionsRefused(missing, original);
    }
  }
}

/** Permissions, Kubernetes events and policies, with the normal form every Policy is
    put into when it is built. */
module Models {
  import opened Ordering

  /** One RBAC capability; `namespace == None` means cluster-wide. */
  datatype Permission = Permission(
    apiGroup: string, resource: string, verb: string,
    namespace: Option<string>, resourceName: Option<string>, source: Option<string>)

  /** A permission without its provenance. */
  datatype PermKey = PermKey(
    apiGroup: string, resource: string, verb: string,
    namespace: Option<string>, resourceName: Option<string>)

  datatype KubeEvent = KubeEvent(
    apiGroup: string, resource: string, verb: string,
    namespace: Option<string>, resourceName: Option<string>, workloadId: Option<string>)

  datatype ServiceAccountRef = ServiceAccountRef(name: string, namespace: string)

  datatype Policy = Policy(
    permissions: seq<Permission>, name: string,
    serviceAccount: string, serviceAccountNamespace: string)

  function Key(p: Permission): PermKey {
    PermKey(p.apiGroup, p.resource, p.verb, p.namespace, p.resourceName)
  }

  function KeySet(ps: seq<Permission>): set<PermKey> {
    set p | p in ps :: Key(p)
  }

  function Keys(ps: seq<Permission>): seq<PermKey> {
    Map(Key, ps)
  }

  function SortKey(k: PermKey): seq<string> {
    [k.apiGroup, k.resource, k.verb, OrEmpty(k.namespace), OrEmpty(k.resourceName)]
  }

  function PermissionSortKey(p: Permission): seq<string> {
    SortKey(Key(p))
  }

  /** `{permission.key(): permission for permission in permissions}`. */
  function ByKey(ps: seq<Permission>): Dict<PermKey, Permission> {
    if ps == [] then []
    else Put(ByKey(ps[..|ps| - 1]), Key(ps[|ps| - 1]), ps[|ps| - 1])
  }

  function Value(item: (PermKey, Permission)): Permission {
    item.1
  }

  /** The permissions a Policy keeps: one per key, in key order. */
  function Normalize(ps: seq<Permission>): seq<Permission> {
    SortBy(PermissionSortKey, Map(Value, ByKey(ps)))
  }

  /** Building a Policy always normalizes its permissions. */
  function MakePolicy(ps: seq<Permission>, name: string, serviceAccount: string,
      serviceAccountNamespace: string): Policy {
    Policy(Normalize(ps), name, serviceAccount, serviceAccountNamespace)
  }

  function WithPermissions(policy: Policy, ps: seq<Permission>): Policy {
    MakePolicy(ps, policy.name, policy.serviceAccount, policy.serviceAccountNamespace)
  }

  ghost predicate Normal(ps: seq<Permission>) {
    SortedBy(PermissionSortKey, ps) && Distinct(Keys(ps))
  }

  /** The sort key reads a missing part as "", so it may confuse None with Some(""). */
  ghost predicate SortKeysTellApart(ks: set<PermKey>) {
    forall a, b :: a in ks && b in ks && SortKey(a) == SortKey(b) ==> a == b
  }

  // ---------- What the dictionary comprehension keeps ----------

  ghost predicate LastOfItsKey(ps: seq<Permission>, p: Permission) {
    exists i :: 0 <= i < |ps| && ps[i] == p && forall j :: i < j < |ps| ==> Key(ps[j]) != Key(p)
  }

  function ItemKey(item: (PermKey, Permission)): PermKey {
    item.0
  }

  lemma {:induction false} PutKeys(d: Dict<PermKey, Permission>, k: PermKey, v: Permission)
    ensures Map(ItemKey, Put(d, k, v)) == if k in Map(ItemKey, d) then Map(ItemKey, d) else Map(ItemKey, d) + [k]
  {
    if d == [] {
    } else {
      var ks := Map(ItemKey, d);
      var ks' := Map(ItemKey, d[1..]);
      assert ks == [d[0].0] + ks';
      if d[0].0 == k {
        assert k == ks[0];
        assert Map(ItemKey, Put(d, k, v)) == ks;
      } else {
        PutKeys(d[1..], k, v);
        assert k in ks <==> k in ks';
        assert Map(ItemKey, Put(d, k, v)) == [d[0].0] + Map(ItemKey, Put(d[1..], k, v));
      }
    }
  }

  lemma {:induction false} ByKeyIsDict(ps: seq<Permission>)
    ensures IsDict(ByKey(ps))
    ensures forall item :: item in ByKey(ps) ==> item.0 == Key(item.1) && LastOfItsKey(ps, item.1)
  {
    if ps == [] {
    } else {
      var n := |ps| - 1;
      var last := ps[n];
      ByKeyIsDict(ps[..n]);
      PutIsDict(ByKey(ps[..n]), Key(last), last);
      PutItems(ByKey(ps[..n]), Key(last), last);
      forall item | item in ByKey(ps) ensures item.0 == Key(item.1) && LastOfItsKey(ps, item.1) {
        if item == (Key(last), last) {
          assert ps[n] == last;
        } else {
          LastSurvives(ps, item.1);
        }
      }
    }
  }

  lemma LastSurvives(ps: seq<Permission>, p: Permission)
    requires ps != [] && LastOfItsKey(ps[..|ps| - 1], p) && Key(ps[|ps| - 1]) != Key(p)
    ensures LastOfItsKey(ps, p)
  {
    var n := |ps| - 1;
    var m :| 0 <= m < n && ps[..n][m] == p && forall x :: m < x < n ==> Key(ps[..n][x]) != Key(p);
    assert ps[m] == p;
    assert forall x :: m < x < n ==> ps[x] == ps[..n][x];
  }

  lemma {:induction false} ByKeyKeys(ps: seq<Permission>)
    ensures Map(ItemKey, ByKey(ps)) == FirstSeen(Keys(ps))
  {
    if ps == [] {
    } else {
      var n := |ps| - 1;
      ByKeyKeys(ps[..n]);
      PutKeys(ByKey(ps[..n]), Key(ps[n]), ps[n]);
      assert Keys(ps)[..n] == Keys(ps[..n]);
    }
  }

  lemma {:induction false} PutItems(d: Dict<PermKey, Permission>, k: PermKey, v: Permission)
    requires IsDict(d)
    ensures forall item :: item in Put(d, k, v) ==> item == (k, v) || (item in d && item.0 != k)
  {
    if d == [] {
    } else {
      if d[0].0 == k {
        forall item | item in Put(d, k, v) ensures item == (k, v) || (item in d && item.0 != k) {
          if item != (k, v) {
            var i :| 0 <= i < |d[1..]| && d[1..][i] == item;
            assert d[i + 1] == item;
          }
        }
      } else {
        PutItems(d[1..], k, v);
      }
    }
  }

  // ---------- Sorting permissions sorts their keys ----------

  lemma {:induction false} InsertKeys(p: Permission, ps: seq<Permission>)
    ensures Keys(Insert(PermissionSortKey, p, ps)) == Insert(SortKey, Key(p), Keys(ps))
  {
    if ps == [] {
    } else {
      assert Keys(ps) == [Key(ps[0])] + Keys(ps[1..]);
      if !TupleLeq(PermissionSortKey(p), PermissionSortKey(ps[0])) {
        InsertKeys(p, ps[1..]);
        assert Keys(ps)[1..] == Keys(ps[1..]);
      }
    }
  }

  lemma {:induction false} SortKeysCommute(ps: seq<Permission>)
    ensures Keys(SortBy(PermissionSortKey, ps)) == SortBy(SortKey, Keys(ps))
  {
    if ps == [] {
    } else {
      SortKeysCommute(ps[1..]);
      InsertKeys(ps[0], SortBy(PermissionSortKey, ps[1..]));
      assert Keys(ps)[1..] == Keys(ps[1..]);
    }
  }

  /** The key sequence of a Policy, computed from the keys alone. */
  lemma KeysOfNormalize(ps: seq<Permission>)
    ensures Keys(Normalize(ps)) == SortBy(SortKey, FirstSeen(Keys(ps)))
  {
    ByKeyIsDict(ps);
    ByKeyKeys(ps);
    SortKeysCommute(Map(Value, ByKey(ps)));
    var d := ByKey(ps);
    forall i | 0 <= i < |d| ensures Keys(Map(Value, d))[i] == Map(ItemKey, d)[i] {
      assert d[i] in d;
    }
    assert Keys(Map(Value, d)) == Map(ItemKey, d);
  }

  lemma KeysMembership(ps: seq<Permission>)
    ensures forall k :: k in Keys(ps) <==> k in KeySet(ps)
  {
  }

  lemma NormalizeKeySet(ps: seq<Permission>)
    ensures KeySet(Normalize(ps)) == KeySet(ps)
  {
    KeysOfNormalize(ps);
    FirstSeenFacts(Keys(ps));
    SortByIsSorted(SortKey, FirstSeen(Keys(ps)));
    KeysMembership(ps);
    KeysMembership(Normalize(ps));
  }

  lemma NormalizeIsNormal(ps: seq<Permission>)
    ensures Normal(Normalize(ps))
  {
    SortByIsSorted(PermissionSortKey, Map(Value, ByKey(ps)));
    KeysOfNormalize(ps);
    FirstSeenFacts(Keys(ps));
    SortByIsSorted(SortKey, FirstSeen(Keys(ps)));
    DistinctFromMultiset(FirstSeen(Keys(ps)), Keys(Normalize(ps)));
  }

  lemma NormalizeKeepsLast(ps: seq<Permission>)
    ensures forall p :: p in Normalize(ps) ==> LastOfItsKey(ps, p)
  {
    var values := Map(Value, ByKey(ps));
    ByKeyIsDict(ps);
    SortByIsSorted(PermissionSortKey, values);
    forall p | p in Normalize(ps) ensures LastOfItsKey(ps, p) {
      assert p in values;
      var i :| 0 <= i < |values| && values[i] == p;
      assert ByKey(ps)[i] in ByKey(ps);
    }
  }

  /** A Policy holds exactly the keys it was given, each once, in key order, and keeps
      for each key the permission given last. */
  lemma NormalizeFacts(ps: seq<Permission>)
    ensures KeySet(Normalize(ps)) == KeySet(ps)
    ensures Normal(Normalize(ps))
    ensures forall p :: p in Normalize(ps) ==> LastOfItsKey(ps, p)
    ensures |Normalize(ps)| == |KeySet(ps)|
  {
    NormalizeKeySet(ps);
    NormalizeIsNormal(ps);
    NormalizeKeepsLast(ps);
    NormalCount(Normalize(ps));
  }

  lemma NormalCount(ps: seq<Permission>)
    requires Normal(ps)
    ensures |ps| == |KeySet(ps)|
  {
    CountDistinct(Keys(ps));
    KeysMembership(ps);
    assert KeySet(ps) == Elements(Keys(ps));
  }

  /** Rebuilding a Policy from its own permissions changes nothing, and only a policy's
      permissions have that property. */
  lemma NormalizeFixedIffNormal(ps: seq<Permission>)
    ensures Normalize(ps) == ps <==> Normal(ps)
  {
    NormalizeFacts(ps);
    if Normal(ps) {
      ByKeyFixed(ps);
      assert Map(Value, Map(Item, ps)) == ps;
      SortByFixed(PermissionSortKey, ps);
    }
  }

  function Item(p: Permission): (PermKey, Permission) {
    (Key(p), p)
  }

  lemma {:induction false} ByKeyFixed(ps: seq<Permission>)
    requires Distinct(Keys(ps))
    ensures ByKey(ps) == Map(Item, ps)
  {
    if ps == [] {
    } else {
      hide Keys, Distinct, Put, Map;
      var n := |ps| - 1;
      LastKeyIsNew(ps, n);
      ByKeyFixed(ps[..n]);
      PutNew(Map(Item, ps[..n]), Key(ps[n]), ps[n]);
      ItemsLast(ps, n);
    }
  }

  lemma ItemsLast(ps: seq<Permission>, n: nat)
    requires |ps| == n + 1
    ensures Map(Item, ps) == Map(Item, ps[..n]) + [(Key(ps[n]), ps[n])]
  {
    hide Map;
    var all, last := Map(Item, ps), (Key(ps[n]), ps[n]);
    forall i | 0 <= i < |ps| ensures all[i] == (Map(Item, ps[..n]) + [last])[i] {
      assert all[i] == Item(ps[i]);
    }
  }

  lemma LastKeyIsNew(ps: seq<Permission>, n: nat)
    requires |ps| == n + 1 && Distinct(Keys(ps))
    ensures Distinct(Keys(ps[..n]))
    ensures forall i :: 0 <= i < n ==> Map(Item, ps[..n])[i].0 != Key(ps[n])
  {
    assert Keys(ps[..n]) == Keys(ps)[..n];
    assert forall i :: 0 <= i < n ==> Keys(ps)[i] != Keys(ps)[n];
  }

  lemma {:induction false} PutNew(d: Dict<PermKey, Permission>, k: PermKey, v: Permission)
    requires forall i :: 0 <= i < |d| ==> d[i].0 != k
    ensures Put(d, k, v) == d + [(k, v)]
  {
    if d == [] {
    } else {
      PutNew(d[1..], k, v);
    }
  }

  // ---------- When the normal form is canonical ----------

  ghost predicate Before<T>(s: seq<T>, x: T, y: T) {
    exists i, j :: 0 <= i < j < |s| && s[i] == x && s[j] == y
  }

  lemma BeforeUnderHead(h: PermKey, s: seq<PermKey>, x: PermKey, y: PermKey)
    requires Before(s, x, y)
    ensures Before([h] + s, x, y)
  {
    var i, j :| 0 <= i < j < |s| && s[i] == x && s[j] == y;
    assert ([h] + s)[i + 1] == x && ([h] + s)[j + 1] == y;
  }

  lemma HeadBefore(h: PermKey, s: seq<PermKey>, y: PermKey)
    requires y in s
    ensures Before([h] + s, h, y)
  {
    var j :| 0 <= j < |s| && s[j] == y;
    assert ([h] + s)[0] == h && ([h] + s)[j + 1] == y;
  }

  /** What comes before what in a sequence: its head before the rest, or two of the rest. */
  lemma BeforeSplits(s: seq<PermKey>, x: PermKey, y: PermKey)
    requires Before(s, x, y)
    ensures s != [] && ((s[0] == x && y in s[1..]) || Before(s[1..], x, y))
  {
    var i, j :| 0 <= i < j < |s| && s[i] == x && s[j] == y;
    assert s[1..][j - 1] == y;
    if i > 0 {
      assert s[1..][i - 1] == x;
    }
  }

  lemma InsertMember(z: PermKey, s: seq<PermKey>, y: PermKey)
    requires y in s
    ensures y in Insert(SortKey, z, s)
  {
    InsertKeepsElements(SortKey, z, s);
    assert y in multiset(Insert(SortKey, z, s));
  }

  lemma {:induction false} InsertPreservesBefore(z: PermKey, s: seq<PermKey>, x: PermKey, y: PermKey)
    requires Before(s, x, y)
    ensures Before(Insert(SortKey, z, s), x, y)
  {
    hide TupleLeq, SortKey, Before;
    BeforeSplits(s, x, y);
    if TupleLeq(SortKey(z), SortKey(s[0])) {
      BeforeUnderHead(z, s, x, y);
    } else if s[0] == x && y in s[1..] {
      InsertMember(z, s[1..], y);
      HeadBefore(x, Insert(SortKey, z, s[1..]), y);
    } else {
      InsertPreservesBefore(z, s[1..], x, y);
      BeforeUnderHead(s[0], Insert(SortKey, z, s[1..]), x, y);
    }
  }

  lemma {:induction false} InsertBeforeLarger(x: PermKey, s: seq<PermKey>, y: PermKey)
    requires y in s && TupleLeq(SortKey(x), SortKey(y))
    ensures Before(Insert(SortKey, x, s), x, y)
  {
    hide TupleLeq, SortKey, Before;
    if TupleLeq(SortKey(x), SortKey(s[0])) {
      HeadBefore(x, s, y);
    } else {
      assert y in s[1..];
      InsertBeforeLarger(x, s[1..], y);
      BeforeUnderHead(s[0], Insert(SortKey, x, s[1..]), x, y);
    }
  }

  /** The sort is stable. */
  lemma {:induction false} SortIsStable(s: seq<PermKey>, x: PermKey, y: PermKey)
    requires Before(s, x, y) && TupleLeq(SortKey(x), SortKey(y))
    ensures Before(SortBy(SortKey, s), x, y)
  {
    hide TupleLeq, SortKey, Before, Insert;
    BeforeSplits(s, x, y);
    var rest := SortBy(SortKey, s[1..]);
    if s[0] == x && y in s[1..] {
      SortByMember(SortKey, s[1..], y);
      InsertBeforeLarger(x, rest, y);
    } else {
      SortIsStable(s[1..], x, y);
      InsertPreservesBefore(s[0], rest, x, y);
    }
  }

  lemma {:induction false} FirstSeenStarts(ks: seq<PermKey>, a: PermKey, b: PermKey)
    requires a != b
    ensures |FirstSeen([a, b] + ks)| >= 2 && FirstSeen([a, b] + ks)[..2] == [a, b]
  {
    var all := [a, b] + ks;
    var n := |all| - 1;
    if ks == [] {
      assert all[..n] == [a];
      assert [a][..0] == [];
      assert FirstSeen([a]) == [a];
    } else {
      assert all[..n] == [a, b] + ks[..|ks| - 1];
      FirstSeenStarts(ks[..|ks| - 1], a, b);
    }
  }

  ghost predicate SameKeys(ps: seq<Permission>, qs: seq<Permission>) {
    KeySet(ps) == KeySet(qs)
  }

  ghost predicate SameOrder(ps: seq<Permission>, qs: seq<Permission>) {
    Keys(Normalize(ps)) == Keys(Normalize(qs))
  }

  lemma SameKeysSameOrder(ps: seq<Permission>, qs: seq<Permission>)
    requires SameKeys(ps, qs) && SortKeysTellApart(KeySet(ps))
    ensures SameOrder(ps, qs)
  {
    KeysOfNormalize(ps);
    KeysOfNormalize(qs);
    FirstSeenFacts(Keys(ps));
    FirstSeenFacts(Keys(qs));
    KeysMembership(ps);
    KeysMembership(qs);
    var a, b := FirstSeen(Keys(ps)), FirstSeen(Keys(qs));
    SortByIsSorted(SortKey, a);
    SortByIsSorted(SortKey, b);
    DistinctFromMultiset(a, SortBy(SortKey, a));
    DistinctFromMultiset(b, SortBy(SortKey, b));
    SortedIsCanonical(SortKey, SortBy(SortKey, a), SortBy(SortKey, b));
  }

  lemma NormalizeKeepsLead(pa: Permission, pb: Permission, ps: seq<Permission>)
    requires Key(pa) != Key(pb) && SortKey(Key(pa)) == SortKey(Key(pb))
    ensures Before(Keys(Normalize([pa, pb] + ps)), Key(pa), Key(pb))
  {
    var all := [pa, pb] + ps;
    KeysOfNormalize(all);
    assert Keys(all) == [Key(pa), Key(pb)] + Keys(ps);
    FirstSeenStarts(Keys(ps), Key(pa), Key(pb));
    var f := FirstSeen(Keys(all));
    assert f[..2][0] == f[0] && f[..2][1] == f[1];
    TupleLeqTotal(SortKey(Key(pa)), SortKey(Key(pb)));
    SortIsStable(f, Key(pa), Key(pb));
  }

  lemma BeforeOneWay<T>(s: seq<T>, a: T, b: T)
    requires Distinct(s) && Before(s, a, b)
    ensures !Before(s, b, a)
  {
  }

  lemma TiedKeysShowOrder(ps: seq<Permission>, pa: Permission, pb: Permission)
    requires pa in ps && pb in ps && Key(pa) != Key(pb) && SortKey(Key(pa)) == SortKey(Key(pb))
    ensures SameKeys(ps, [pa, pb] + ps) && SameKeys(ps, [pb, pa] + ps)
    ensures !SameOrder([pa, pb] + ps, [pb, pa] + ps)
  {
    var q1, q2 := [pa, pb] + ps, [pb, pa] + ps;
    NormalizeKeepsLead(pa, pb, ps);
    NormalizeKeepsLead(pb, pa, ps);
    NormalizeIsNormal(q1);
    BeforeOneWay(Keys(Normalize(q1)), Key(pa), Key(pb));
  }

  lemma FindTie(ps: seq<Permission>) returns (pa: Permission, pb: Permission)
    requires !SortKeysTellApart(KeySet(ps))
    ensures pa in ps && pb in ps && Key(pa) != Key(pb) && SortKey(Key(pa)) == SortKey(Key(pb))
  {
    var a, b :| a in KeySet(ps) && b in KeySet(ps) && SortKey(a) == SortKey(b) && a != b;
    pa :| pa in ps && Key(pa) == a;
    pb :| pb in ps && Key(pb) == b;
  }

  /** Whatever order the same keys come in, the Policy lists them alike. */
  ghost predicate OrderFree(ps: seq<Permission>) {
    forall qs :: SameKeys(ps, qs) ==> SameOrder(ps, qs)
  }

  lemma TieBreaksOrder(ps: seq<Permission>)
    requires OrderFree(ps)
    ensures SortKeysTellApart(KeySet(ps))
  {
    if !SortKeysTellApart(KeySet(ps)) {
      var pa, pb := FindTie(ps);
      var q1, q2 := [pa, pb] + ps, [pb, pa] + ps;
      TiedKeysShowOrder(ps, pa, pb);
      OrderFreeAt(ps, q1);
      OrderFreeAt(ps, q2);
    }
  }

  lemma OrderFreeAt(ps: seq<Permission>, qs: seq<Permission>)
    requires OrderFree(ps) && SameKeys(ps, qs)
    ensures SameOrder(ps, qs)
  {
  }

  lemma TellApartIsOrderFree(ps: seq<Permission>)
    requires SortKeysTellApart(KeySet(ps))
    ensures OrderFree(ps)
  {
    forall qs | SameKeys(ps, qs) ensures SameOrder(ps, qs) {
      SameKeysSameOrder(ps, qs);
    }
  }

  /** The key sequence of a Policy depends on its key set alone exactly when the sort key
      tells the keys apart; otherwise the order permissions were given in shows through. */
  lemma CanonicalIffSortKeysTellApart(ps: seq<Permission>)
    ensures OrderFree(ps) <==> SortKeysTellApart(KeySet(ps))
  {
    if OrderFree(ps) {
      TieBreaksOrder(ps);
    }
    if SortKeysTellApart(KeySet(ps)) {
      TellApartIsOrderFree(ps);
    }
  }

  ghost predicate NoEmptyParts(ps: seq<Permission>) {
    forall p :: p in ps ==> p.namespace != Some("") && p.resourceName != Some("")
  }

  /** Without empty-string namespaces and names the sort key always tells keys apart. */
  lemma NoEmptyPartsTellApart(ps: seq<Permission>)
    requires NoEmptyParts(ps)
    ensures SortKeysTellApart(KeySet(ps))
  {
  }

  const CLUSTER_WIDE := Permission("", "pods", "get", None, None, None)
  const EMPTY_NAMESPACE := CLUSTER_WIDE.(namespace := Some(""))

  /** Two permissions the sort cannot order: the policy shows which was given first. */
  lemma AbsentAndEmptyAreTied()
    ensures var a, b := CLUSTER_WIDE, EMPTY_NAMESPACE;
      && KeySet([a, b]) == KeySet([b, a])
      && Normalize([a, b]) == [a, b] && Normalize([b, a]) == [b, a]
      && Keys([a, b]) != Keys([b, a])
  {
    var a, b := CLUSTER_WIDE, EMPTY_NAMESPACE;
    TiedAreNormal(a, b);
    TiedAreNormal(b, a);
    NormalizeFixedIffNormal([a, b]);
    NormalizeFixedIffNormal([b, a]);
    hide Normalize, Normal;
    assert Keys([a, b])[0] != Keys([b, a])[0];
  }

  lemma TiedAreNormal(a: Permission, b: Permission)
    requires Key(a) != Key(b) && SortKey(Key(a)) == SortKey(Key(b))
    ensures Normal([a, b]) && KeySet([a, b]) == {Key(a), Key(b)}
  {
    assert Keys([a, b]) == [Key(a), Key(b)];
    TupleLeqTotal(SortKey(Key(a)), SortKey(Key(b)));
    assert [a, b][0] in [a, b] && [a, b][1] in [a, b];
  }
}

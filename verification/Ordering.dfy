/** Library notions the rules engine leans on: Python's ordering of strings and of
    tuples of strings, the stable `sorted`, and insertion-ordered dictionaries. */
module Ordering {

  datatype Option<+T> = None | Some(value: T)

  datatype Result<+T, +E> = Ok(value: T) | Err(error: E)

  /** `part or ""` for an optional string. */
  function OrEmpty(part: Option<string>): string {
    if part.Some? then part.value else ""
  }

  // ---------- Lexicographic order ----------

  /** Strings compare code point by code point; a proper prefix comes first. */
  predicate StringLeq(a: string, b: string) {
    if a == "" then true
    else if b == "" then false
    else a[0] < b[0] || (a[0] == b[0] && StringLeq(a[1..], b[1..]))
  }

  lemma {:induction false} StringLeqTotal(a: string, b: string)
    ensures StringLeq(a, b) || StringLeq(b, a)
    ensures a == b ==> StringLeq(a, b)
  {
    if a == "" || b == "" || a[0] != b[0] {
    } else {
      StringLeqTotal(a[1..], b[1..]);
    }
  }

  lemma {:induction false} StringLeqAntisymmetric(a: string, b: string)
    requires StringLeq(a, b) && StringLeq(b, a)
    ensures a == b
  {
    if a == "" || b == "" {
    } else {
      StringLeqAntisymmetric(a[1..], b[1..]);
      assert a == [a[0]] + a[1..] && b == [b[0]] + b[1..];
    }
  }

  lemma {:induction false} StringLeqTransitive(a: string, b: string, c: string)
    requires StringLeq(a, b) && StringLeq(b, c)
    ensures StringLeq(a, c)
  {
    if a == "" || b == "" || c == "" || a[0] != b[0] || b[0] != c[0] {
    } else {
      StringLeqTransitive(a[1..], b[1..], c[1..]);
    }
  }

  /** Tuples compare at their first differing component. */
  predicate TupleLeq(a: seq<string>, b: seq<string>) {
    if a == [] then true
    else if b == [] then false
    else if a[0] == b[0] then TupleLeq(a[1..], b[1..])
    else StringLeq(a[0], b[0])
  }

  lemma {:induction false} TupleLeqTotal(a: seq<string>, b: seq<string>)
    ensures TupleLeq(a, b) || TupleLeq(b, a)
    ensures a == b ==> TupleLeq(a, b)
  {
    if a == [] || b == [] {
    } else {
      if a[0] == b[0] {
        TupleLeqTotal(a[1..], b[1..]);
      } else {
        StringLeqTotal(a[0], b[0]);
      }
    }
  }

  lemma {:induction false} TupleLeqAntisymmetric(a: seq<string>, b: seq<string>)
    requires TupleLeq(a, b) && TupleLeq(b, a)
    ensures a == b
  {
    if a == [] || b == [] {
    } else {
      if a[0] == b[0] {
        TupleLeqAntisymmetric(a[1..], b[1..]);
        assert a == [a[0]] + a[1..] && b == [b[0]] + b[1..];
      } else {
        StringLeqAntisymmetric(a[0], b[0]);
      }
    }
  }

  lemma {:induction false} TupleLeqTransitive(a: seq<string>, b: seq<string>, c: seq<string>)
    requires TupleLeq(a, b) && TupleLeq(b, c)
    ensures TupleLeq(a, c)
  {
    if a == [] || b == [] || c == [] {
    } else {
      if a[0] == b[0] == c[0] {
        TupleLeqTransitive(a[1..], b[1..], c[1..]);
      } else if a[0] != b[0] && b[0] != c[0] {
        StringLeqTransitive(a[0], b[0], c[0]);
        if a[0] == c[0] {
          StringLeqAntisymmetric(a[0], b[0]);
        }
      }
    }
  }

  // ---------- Stable sort by key ----------

  ghost predicate SortedBy<T>(key: T -> seq<string>, s: seq<T>) {
    forall i, j :: 0 <= i < j < |s| ==> TupleLeq(key(s[i]), key(s[j]))
  }

  function Insert<T>(key: T -> seq<string>, x: T, s: seq<T>): seq<T> {
    if s == [] then [x]
    else if TupleLeq(key(x), key(s[0])) then [x] + s
    else [s[0]] + Insert(key, x, s[1..])
  }

  /** `sorted(s, key=key)`: elements with equal keys keep their input order. */
  function SortBy<T>(key: T -> seq<string>, s: seq<T>): seq<T> {
    if s == [] then [] else Insert(key, s[0], SortBy(key, s[1..]))
  }

  lemma {:induction false} InsertKeepsElements<T>(key: T -> seq<string>, x: T, s: seq<T>)
    ensures multiset(Insert(key, x, s)) == multiset(s) + multiset{x}
    ensures |Insert(key, x, s)| == |s| + 1
  {
    if s == [] || TupleLeq(key(x), key(s[0])) {
    } else {
      InsertKeepsElements(key, x, s[1..]);
      assert s == [s[0]] + s[1..];
    }
  }

  lemma {:induction false} InsertKeeps<T>(key: T -> seq<string>, x: T, s: seq<T>)
    ensures multiset(Insert(key, x, s)) == multiset(s) + multiset{x}
    ensures |Insert(key, x, s)| == |s| + 1
    ensures SortedBy(key, s) ==> SortedBy(key, Insert(key, x, s))
  {
    InsertKeepsElements(key, x, s);
    if s != [] && SortedBy(key, s) {
      if TupleLeq(key(x), key(s[0])) {
        forall j | 0 <= j < |s| ensures TupleLeq(key(x), key(s[j])) {
          if j > 0 {
            TupleLeqTransitive(key(x), key(s[0]), key(s[j]));
          }
        }
      } else {
        InsertKeeps(key, x, s[1..]);
        TupleLeqTotal(key(x), key(s[0]));
        hide TupleLeq;
        InsertStaysAbove(key, x, s);
      }
    }
  }

  lemma InsertStaysAbove<T>(key: T -> seq<string>, x: T, s: seq<T>)
    requires s != [] && SortedBy(key, s) && TupleLeq(key(s[0]), key(x))
    ensures forall j :: 0 <= j < |Insert(key, x, s[1..])| ==> TupleLeq(key(s[0]), key(Insert(key, x, s[1..])[j]))
  {
    hide TupleLeq;
    InsertKeepsElements(key, x, s[1..]);
    var r := Insert(key, x, s[1..]);
    forall j | 0 <= j < |r| ensures TupleLeq(key(s[0]), key(r[j])) {
      assert r[j] in multiset(r);
      if r[j] != x {
        assert r[j] in multiset(s[1..]);
        var k :| 0 <= k < |s[1..]| && s[1..][k] == r[j];
        assert s[k + 1] == r[j];
      }
    }
  }

  lemma {:induction false} SortByKeepsOrder<T>(key: T -> seq<string>, s: seq<T>)
    ensures SortedBy(key, SortBy(key, s))
    ensures multiset(SortBy(key, s)) == multiset(s)
    ensures |SortBy(key, s)| == |s|
  {
    hide SortedBy, Insert;
    if s == [] {
      SortedWhenEmpty(key);
    } else {
      SortByKeepsOrder(key, s[1..]);
      InsertKeeps(key, s[0], SortBy(key, s[1..]));
      assert s == [s[0]] + s[1..];
    }
  }

  lemma SortedWhenEmpty<T>(key: T -> seq<string>)
    ensures SortedBy(key, [])
  {
  }

  lemma SortByIsSorted<T>(key: T -> seq<string>, s: seq<T>)
    ensures SortedBy(key, SortBy(key, s))
    ensures multiset(SortBy(key, s)) == multiset(s)
    ensures |SortBy(key, s)| == |s|
    ensures forall x :: x in SortBy(key, s) <==> x in s
  {
    SortByKeepsOrder(key, s);
    hide SortedBy, SortBy;
    forall x ensures x in SortBy(key, s) <==> x in s {
      assert x in SortBy(key, s) <==> x in multiset(SortBy(key, s));
      assert x in s <==> x in multiset(s);
    }
  }

  lemma SortByMember<T>(key: T -> seq<string>, s: seq<T>, x: T)
    ensures x in SortBy(key, s) <==> x in s
  {
    SortByIsSorted(key, s);
  }

  /** Sorting a sorted sequence changes nothing: this is where stability shows. */
  lemma {:induction false} SortByFixed<T>(key: T -> seq<string>, s: seq<T>)
    requires SortedBy(key, s)
    ensures SortBy(key, s) == s
  {
    if s == [] {
    } else {
      SortByFixed(key, s[1..]);
      assert s == [s[0]] + s[1..];
      if |s| > 1 {
        assert s[1..][0] == s[1];
      }
    }
  }

  ghost predicate Distinct<T>(s: seq<T>) {
    forall i, j :: 0 <= i < j < |s| ==> s[i] != s[j]
  }

  lemma DistinctFromMultiset<T>(a: seq<T>, b: seq<T>)
    requires multiset(a) == multiset(b) && Distinct(a)
    ensures Distinct(b)
  {
    forall i, j | 0 <= i < j < |b| ensures b[i] != b[j] {
      if b[i] == b[j] {
        assert b == b[..i] + [b[i]] + b[i + 1..j] + [b[j]] + b[j + 1..];
        assert multiset(b)[b[i]] >= 2;
        DistinctMultiplicity(a, b[i]);
        assert false;
      }
    }
  }

  lemma {:induction false} DistinctMultiplicity<T>(a: seq<T>, x: T)
    requires Distinct(a)
    ensures multiset(a)[x] <= 1
    ensures multiset(a)[x] == (if x in a then 1 else 0)
  {
    if a == [] {
    } else {
      DistinctMultiplicity(a[1..], x);
      assert a == [a[0]] + a[1..];
    }
  }

  /** Two sorted, duplicate-free sequences over the same elements are equal as soon
      as the key tells those elements apart. */
  lemma {:induction false} SortedIsCanonical<T>(key: T -> seq<string>, a: seq<T>, b: seq<T>)
    requires SortedBy(key, a) && SortedBy(key, b)
    requires Distinct(a) && Distinct(b)
    requires forall x :: x in a <==> x in b
    requires forall x, y :: x in a && y in a && key(x) == key(y) ==> x == y
    ensures a == b
  {
    assert b != [] ==> b[0] in b;
    if a == [] {
    } else {
      assert a[0] in b;
      assert b[0] in a;
      var i :| 0 <= i < |b| && b[i] == a[0];
      var j :| 0 <= j < |a| && a[j] == b[0];
      if i != 0 {
        TupleLeqAntisymmetric(key(a[0]), key(b[0]));
      }
      assert a[0] == b[0];
      forall x ensures x in a[1..] <==> x in b[1..] {
        assert x in a <==> x == a[0] || x in a[1..];
        assert x in b <==> x == b[0] || x in b[1..];
      }
      SortedIsCanonical(key, a[1..], b[1..]);
      assert a == [a[0]] + a[1..] && b == [b[0]] + b[1..];
    }
  }

  // ---------- Mapping ----------

  function Map<A, B>(f: A -> B, s: seq<A>): (r: seq<B>)
    ensures |r| == |s|
    ensures forall i :: 0 <= i < |s| ==> r[i] == f(s[i])
  {
    if s == [] then [] else [f(s[0])] + Map(f, s[1..])
  }

  // ---------- Filtering ----------

  /** The items a test keeps, in the order they come. */
  function Kept<T>(keep: T -> bool, s: seq<T>): seq<T> {
    if s == [] then [] else (if keep(s[0]) then [s[0]] else []) + Kept(keep, s[1..])
  }

  lemma {:induction false} KeptConcat<T>(keep: T -> bool, xs: seq<T>, ys: seq<T>)
    ensures Kept(keep, xs + ys) == Kept(keep, xs) + Kept(keep, ys)
  {
    if xs == [] {
      assert xs + ys == ys;
    } else {
      var first := if keep(xs[0]) then [xs[0]] else [];
      KeptConcat(keep, xs[1..], ys);
      assert Kept(keep, xs) == first + Kept(keep, xs[1..]);
      assert (xs + ys)[0] == xs[0] && (xs + ys)[1..] == xs[1..] + ys;
      hide Kept;
      assert first + (Kept(keep, xs[1..]) + Kept(keep, ys)) == (first + Kept(keep, xs[1..])) + Kept(keep, ys);
    }
  }

  lemma {:induction false} KeptMembers<T>(keep: T -> bool, s: seq<T>, x: T)
    ensures x in Kept(keep, s) <==> x in s && keep(x)
  {
    if s == [] {
    } else {
      KeptMembers(keep, s[1..], x);
      assert s == [s[0]] + s[1..];
    }
  }

  // ---------- Duplicate-free listing ----------

  /** `{x: None for x in s}` read back as a list: elements in order of first appearance. */
  function FirstSeen<T(==)>(s: seq<T>): seq<T> {
    if s == [] then []
    else
      var seen := FirstSeen(s[..|s| - 1]);
      if s[|s| - 1] in seen then seen else seen + [s[|s| - 1]]
  }

  lemma {:induction false} FirstSeenFacts<T>(s: seq<T>)
    ensures Distinct(FirstSeen(s))
    ensures forall x :: x in FirstSeen(s) <==> x in s
  {
    if s == [] {
    } else {
      FirstSeenFacts(s[..|s| - 1]);
      assert s == s[..|s| - 1] + [s[|s| - 1]];
    }
  }

  // ---------- Insertion-ordered dictionaries ----------

  /** A dictionary as its items in insertion order. */
  lemma SeenSomewhere<T>(s: seq<T>, x: T)
    requires x in FirstSeen(s)
    ensures x in s
  {
    FirstSeenFacts(s);
  }

  /** Of two elements listed, the one listed first appears before the other ever does. */
  lemma {:induction false} FirstSeenOrder<T>(s: seq<T>, i: nat, j: nat) returns (k: nat)
    requires i < j < |FirstSeen(s)|
    ensures k < |s| && s[k] == FirstSeen(s)[i] && FirstSeen(s)[j] !in s[..k + 1]
    decreases |s|
  {
    var n := |s| - 1;
    var seen := FirstSeen(s[..n]);
    FirstSeenFacts(s[..n]);
    if j < |seen| {
      k := FirstSeenOrder(s[..n], i, j);
      assert s[..k + 1] == s[..n][..k + 1];
    } else {
      SeenSomewhere(s[..n], seen[i]);
      k :| 0 <= k < n && s[k] == seen[i];
      forall x | x in s[..k + 1] ensures x in s[..n] {
        assert s[..k + 1] == s[..n][..k + 1];
      }
    }
  }

  type Dict<K, V> = seq<(K, V)>

  function Lookup<K(==), V>(d: Dict<K, V>, k: K): Option<V> {
    if d == [] then None
    else if d[0].0 == k then Some(d[0].1)
    else Lookup(d[1..], k)
  }

  /** `d[k] = v`: a known key keeps its place and takes the new value. */
  function Put<K(==), V>(d: Dict<K, V>, k: K, v: V): Dict<K, V> {
    if d == [] then [(k, v)]
    else if d[0].0 == k then [(k, v)] + d[1..]
    else [d[0]] + Put(d[1..], k, v)
  }

  ghost predicate IsDict<K, V>(d: Dict<K, V>) {
    forall i, j :: 0 <= i < j < |d| ==> d[i].0 != d[j].0
  }

  lemma {:induction false} LookupItem<K, V>(d: Dict<K, V>, k: K)
    ensures Lookup(d, k).Some? ==> (k, Lookup(d, k).value) in d
    ensures Lookup(d, k).None? ==> forall v :: (k, v) !in d
    ensures IsDict(d) ==> forall v :: (k, v) in d <==> Lookup(d, k) == Some(v)
  {
    if d == [] {
    } else {
      LookupItem(d[1..], k);
      assert d == [d[0]] + d[1..];
      if IsDict(d) {
        assert forall i :: 0 <= i < |d[1..]| ==> d[1..][i].0 != d[0].0;
      }
    }
  }

  lemma {:induction false} PutLookup<K, V>(d: Dict<K, V>, k: K, v: V, k': K)
    ensures Lookup(Put(d, k, v), k') == if k == k' then Some(v) else Lookup(d, k')
  {
    if d == [] || d[0].0 == k {
    } else {
      PutLookup(d[1..], k, v, k');
    }
  }

  lemma {:induction false} PutIsDict<K, V>(d: Dict<K, V>, k: K, v: V)
    requires IsDict(d)
    ensures IsDict(Put(d, k, v))
    ensures forall i :: 0 <= i < |Put(d, k, v)| ==> Put(d, k, v)[i].0 == k || Put(d, k, v)[i] in d
  {
    if d == [] || d[0].0 == k {
    } else {
      PutIsDict(d[1..], k, v);
      var r := Put(d[1..], k, v);
      forall j | 0 <= j < |r| ensures r[j].0 != d[0].0 {
        if r[j].0 != k {
          assert r[j] in d[1..];
          var i :| 0 <= i < |d[1..]| && d[1..][i] == r[j];
          assert d[i + 1] == r[j];
        }
      }
      assert Put(d, k, v) == [d[0]] + r;
    }
  }

  // ---------- Counting ----------

  ghost function Elements<T>(s: seq<T>): set<T> {
    set x | x in s
  }

  /** A list has as many different elements as positions exactly when none repeats. */
  lemma {:induction false} CountDistinct<T>(s: seq<T>)
    ensures |Elements(s)| <= |s|
    ensures |Elements(s)| == |s| <==> Distinct(s)
  {
    if s == [] {
      assert Elements(s) == {};
    } else {
      var n := |s| - 1;
      CountDistinct(s[..n]);
      OneMoreElement(s, n);
      hide Elements;
      assert Distinct(s) <==> Distinct(s[..n]) && s[n] !in s[..n];
    }
  }

  lemma OneMoreElement<T>(s: seq<T>, n: nat)
    requires |s| == n + 1
    ensures Elements(s) == Elements(s[..n]) + {s[n]}
    ensures s[n] in Elements(s[..n]) <==> s[n] in s[..n]
  {
    assert s == s[..n] + [s[n]];
  }

  lemma SubsetSize<T>(a: set<T>, b: set<T>)
    requires a <= b
    ensures |a| <= |b| && (|a| == |b| ==> a == b)
  {
    assert b == a + (b - a);
    if |a| == |b| {
      assert |b - a| == 0;
    }
  }
}

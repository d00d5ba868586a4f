/** Lock keys and task identifiers: colon-joined names, and when they are unambiguous. */
module Locks {
  import opened Ordering

  predicate Component(value: string) {
    value != "" && ':' !in value
  }

  /** `workload_lock_key`; the ValueError is the error case. */
  function WorkloadLockKey(cluster: string, namespace: string, workload: string): Result<string, ()> {
    if Component(cluster) && Component(namespace) && Component(workload) then
      Ok(cluster + ":" + namespace + ":" + workload)
    else Err(())
  }

  /** The task identifier the coordinator gives a service in a run. */
  function TaskId(run: string, service: string): string {
    run + ":" + service
  }

  lemma FirstColon(a: string, x: string, b: string, y: string)
    requires ':' !in a && ':' !in b && a + ":" + x == b + ":" + y
    ensures a == b && x == y
  {
    var s := a + ":" + x;
    assert s[|a|] == ':' && s[|b|] == (b + ":" + y)[|b|] == ':';
    assert forall i :: 0 <= i < |a| ==> s[i] == a[i] && s[i] != ':';
    assert forall i :: 0 <= i < |b| ==> s[i] == b[i] && s[i] != ':';
    assert a == s[..|a|] == b && x == s[|a| + 1..] == y;
  }

  lemma LastColon(x: string, a: string, y: string, b: string)
    requires ':' !in a && ':' !in b && x + ":" + a == y + ":" + b
    ensures x == y && a == b
  {
    var s := x + ":" + a;
    assert s[|x|] == ':' && s[|y|] == (y + ":" + b)[|y|] == ':';
    assert forall i :: |x| < i < |s| ==> s[i] == a[i - |x| - 1] && s[i] != ':';
    assert forall i :: |y| < i < |s| ==> s[i] == b[i - |y| - 1] && s[i] != ':';
    assert x == s[..|x|] == y && a == s[|x| + 1..] == b;
  }

  /** Accepted triples of any length never share a lock key. */
  lemma LockKeyIsInjective(c: string, n: string, w: string, c': string, n': string, w': string)
    requires WorkloadLockKey(c, n, w).Ok? && WorkloadLockKey(c, n, w) == WorkloadLockKey(c', n', w')
    ensures c == c' && n == n' && w == w'
  {
    assert c + ":" + n + ":" + w == c + ":" + (n + ":" + w);
    assert c' + ":" + n' + ":" + w' == c' + ":" + (n' + ":" + w');
    FirstColon(c, n + ":" + w, c', n' + ":" + w');
    FirstColon(n, w, n', w');
  }

  /** Runs may be named freely; colon-free service names keep task identifiers apart. */
  lemma TaskIdIsInjective(run: string, service: string, run': string, service': string)
    requires ':' !in service && ':' !in service' && TaskId(run, service) == TaskId(run', service')
    ensures run == run' && service == service'
  {
    LastColon(run, service, run', service');
  }
}

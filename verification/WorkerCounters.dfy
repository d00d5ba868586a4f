/** What each of a worker's counters counts. */
module WorkerCounters {
  import opened Ordering
  import opened Contracts
  import opened Bus
  import opened Worker
  import opened WorkerSafety
  import opened WorkerAccounting
  import opened WorkerRuns

  datatype Counter = ClaimedCount | CompletedCount | FailedCount | RetriedCount | DuplicateCount

  function Reading(stats: WorkerStats, c: Counter): nat {
    match c
    case ClaimedCount => stats.claimed
    case CompletedCount => stats.completed
    case FailedCount => stats.failed
    case RetriedCount => stats.retried
    case DuplicateCount => stats.duplicates
  }

  /** The action is worker `w`'s. */
  predicate Moves(a: Action, w: nat) {
    (a.Claims? || a.Advances? || a.Fails?) && a.w == w
  }

  /** What a counter is for, in terms of where the worker was and where it gets to: being
      handed a delivery, being done with one whose result is out, giving one up, putting one
      back, finding one answered already. */
  predicate Counts(c: Counter, a: Action, from: Pc, to: Pc) {
    match c
    case ClaimedCount => a.Claims? && !to.Idle?
    case CompletedCount => a.Advances? && from.Releasing?
    case FailedCount => !a.Advances? && to.DeadLettering?
    case RetriedCount => a.Fails? && to.Retrying?
    case DuplicateCount => a.Advances? && to.PublishingDuplicate?
  }

  /** How many of the first `n` actions the counter is for. */
  function Occasions(actions: seq<Action>, states: seq<System>, n: nat, w: nat, c: Counter): nat
    requires n <= |actions| && |states| == |actions| + 1 && forall i :: 0 <= i <= n ==> w < |states[i].pcs|
  {
    if n == 0 then 0
    else
      Occasions(actions, states, n - 1, w, c)
      + if Moves(actions[n - 1], w) && Counts(c, actions[n - 1], states[n - 1].pcs[w], states[n].pcs[w]) then 1 else 0
  }

  lemma AdvanceCounter(cfg: Config, s: System, w: nat, verdict: bool, c: Counter)
    requires Enabled(cfg, s, Advances(w, verdict))
    ensures var o := Advance(cfg, s, w, verdict);
      Reading(o.stats, c)
        == Reading(s.stats[w], c) + if Counts(c, Advances(w, verdict), s.pcs[w], o.pc) then 1 else 0
  {
    hide Post, Retry, Acknowledge, Unlocked, LockKeyOf, Publish, ResultEvent, DeadLetterEvent, Store;
  }

  lemma FailCounter(cfg: Config, s: System, w: nat, error: string, c: Counter)
    requires Enabled(cfg, s, Fails(w, error))
    ensures var o := Failed(cfg, s, w, error);
      Reading(o.stats, c) == Reading(s.stats[w], c) + if Counts(c, Fails(w, error), s.pcs[w], o.pc) then 1 else 0
  {
    hide Unlocked;
  }

  lemma ClaimCounter(cfg: Config, s: System, w: nat, c: Counter)
    requires Enabled(cfg, s, Claims(w))
    ensures var s' := ClaimStep(cfg, s, w);
      && |s'.stats| == |s.stats| == |s'.pcs|
      && Reading(s'.stats[w], c) == Reading(s.stats[w], c) + if Counts(c, Claims(w), s.pcs[w], s'.pcs[w]) then 1 else 0
  {
    hide Take, Validate;
  }

  lemma OtherCounter(cfg: Config, s: System, a: Action, w: nat)
    requires Enabled(cfg, s, a) && w < |s.stats| && !Moves(a, w)
    ensures w < |Apply(cfg, s, a).stats| && Apply(cfg, s, a).stats[w] == s.stats[w]
  {
    hide Take, Validate, Advance, CanAdvance, Failed, Publish, Subscribe, Retry;
  }

  lemma StepCounter(cfg: Config, s: System, a: Action, w: nat, c: Counter)
    requires Enabled(cfg, s, a) && w < |s.pcs|
    ensures var s' := Apply(cfg, s, a);
      && w < |s'.stats| && w < |s'.pcs|
      && Reading(s'.stats[w], c)
          == Reading(s.stats[w], c) + if Moves(a, w) && Counts(c, a, s.pcs[w], s'.pcs[w]) then 1 else 0
  {
    StepFrame(cfg, s, a);
    hide Reading, Counts, Advance, CanAdvance, Failed, ClaimStep;
    if Moves(a, w) {
      match a {
        case Claims(_) => ClaimCounter(cfg, s, w, c);
        case Advances(_, verdict) => AdvanceCounter(cfg, s, w, verdict, c);
        case Fails(_, error) => FailCounter(cfg, s, w, error, c);
      }
    } else {
      hide Apply, Enabled;
      OtherCounter(cfg, s, a, w);
    }
  }

  /** In every state of every run each counter of each worker reads how often what it is for
      has happened. */
  lemma {:induction false} CountersCount(cfg: Config, partitions: nat, actions: seq<Action>, states: seq<System>,
      n: nat, w: nat, c: Counter)
    requires Run(cfg, partitions, actions, states) && n < |states| && w < |cfg.clusters|
    ensures forall i :: 0 <= i <= n ==> |states[i].pcs| == |states[i].stats| == |cfg.clusters|
    ensures Reading(states[n].stats[w], c) == Occasions(actions, states, n, w, c)
  {
    hide Inv, Apply, Enabled, Reading, Counts;
    forall i | 0 <= i <= n ensures |states[i].pcs| == |states[i].stats| == |cfg.clusters| {
      RunInv(cfg, partitions, actions, states, i);
      InvParts(cfg, states[i]);
    }
    if n == 0 {
      assert states[0].stats[w] == WorkerStats(0, 0, 0, 0, 0);
      NothingRead(c);
    } else {
      RunNext(cfg, partitions, actions, states, n - 1);
      CountersCount(cfg, partitions, actions, states, n - 1, w, c);
      hide Run;
      StepCounter(cfg, states[n - 1], actions[n - 1], w, c);
    }
  }

  lemma NothingRead(c: Counter)
    ensures Reading(WorkerStats(0, 0, 0, 0, 0), c) == 0
  {
  }
}

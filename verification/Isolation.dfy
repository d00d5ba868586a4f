/** Consumer groups do not affect each other: whatever the consumers of other groups do, a
    group sees its queue change only by the new entries of its topic. */
module Isolation {
  import opened Ordering
  import opened Contracts
  import opened Bus
  import opened Worker
  import opened WorkerSafety
  import opened WorkerAccounting
  import opened WorkerRuns

  /** The group whose deliveries an action resolves or claims; publishing and subscribing
      are nobody's. */
  function ActsFor(a: Action): Option<GroupKey> {
    match a
    case Publishes(_, _, _) => None
    case Subscribes(_, _) => None
    case Claims(_) => Some(REQUESTS)
    case Advances(_, _) => Some(REQUESTS)
    case Fails(_, _) => Some(REQUESTS)
    case OtherTakes(topic, group, _) => Some((topic, group))
    case OtherAcks(m) => Some((m.topic, m.consumerGroup))
    case OtherRetries(m, _) => Some((m.topic, m.consumerGroup))
  }

  /** The topic only gained entries, and the group's queue gained one copy of each. */
  predicate QueueFollows(bus: BusState, bus': BusState, g: GroupKey) {
    var log, log' := Log(bus, g.0), Log(bus', g.0);
    && g in bus.queues && g in bus'.queues
    && |log| <= |log'| && log == log'[..|log|]
    && bus'.queues[g] == bus.queues[g] + Replay(log'[|log|..], "")
  }

  ghost predicate AcksKept(bus: BusState, bus': BusState, g: GroupKey) {
    forall k: AckKey :: (k.topic, k.group) == g ==> (k in bus'.acknowledged <==> k in bus.acknowledged)
  }

  /** What the group's consumers hold is as before. */
  ghost predicate HandsKept(s: System, s': System, g: GroupKey) {
    && (forall m: ConsumedEvent :: (m.topic, m.consumerGroup) == g ==> (m in s'.others <==> m in s.others))
    && (g == REQUESTS ==> s'.pcs == s.pcs)
  }

  ghost predicate Untouched(s: System, s': System, g: GroupKey) {
    QueueFollows(s.bus, s'.bus, g) && AcksKept(s.bus, s'.bus, g) && HandsKept(s, s', g)
  }

  // ---------- One operation of the bus ----------

  lemma SameQueueFollows(bus: BusState, bus': BusState, g: GroupKey)
    requires g in bus.queues && g in bus'.queues && bus'.queues[g] == bus.queues[g] && Log(bus', g.0) == Log(bus, g.0)
    ensures QueueFollows(bus, bus', g)
  {
    var log := Log(bus, g.0);
    assert log[..|log|] == log && log[|log|..] == [];
    assert bus.queues[g] + [] == bus.queues[g];
  }

  lemma PostLeaves(bus: BusState, topic: Topic, event: EventEnvelope, key: string, g: GroupKey)
    requires g in bus.queues && bus.partitions >= 1
    ensures var bus' := Post(bus, topic, event, key); QueueFollows(bus, bus', g) && AcksKept(bus, bus', g)
  {
    hide PartitionFor, CountIn;
    var e := NewEntry(bus, topic, event, key);
    var bus', log := Append(bus, e), Log(bus, g.0);
    if e.topic == g.0 {
      assert (log + [e])[..|log|] == log && (log + [e])[|log|..] == [e];
      assert [e][1..] == [];
      assert Replay([e], "") == [FirstCopy(e, "", "")];
    } else {
      SameQueueFollows(bus, bus', g);
    }
  }

  lemma AckLeaves(bus: BusState, m: ConsumedEvent, g: GroupKey)
    requires g in bus.queues && (m.topic, m.consumerGroup) != g
    ensures QueueFollows(bus, Acknowledge(bus, m), g) && AcksKept(bus, Acknowledge(bus, m), g)
  {
    hide QueueFollows;
    SameQueueFollows(bus, Acknowledge(bus, m), g);
  }

  lemma RetryLeaves(bus: BusState, m: ConsumedEvent, reason: string, g: GroupKey)
    requires g in bus.queues && (m.topic, m.consumerGroup) != g && Retry(bus, m, reason).Ok?
    ensures var bus' := Retry(bus, m, reason).value; QueueFollows(bus, bus', g) && AcksKept(bus, bus', g)
  {
    hide QueueFollows;
    SameQueueFollows(bus, Retry(bus, m, reason).value, g);
  }

  lemma TakeLeaves(bus: BusState, topic: Topic, group: string, consumer: string, g: GroupKey)
    requires g in bus.queues && QueueReady(bus, (topic, group)) && (topic, group) != g
    ensures var bus' := Take(bus, topic, group, consumer).0; QueueFollows(bus, bus', g) && AcksKept(bus, bus', g)
  {
    hide QueueFollows;
    SameQueueFollows(bus, Take(bus, topic, group, consumer).0, g);
  }

  lemma SubscribeLeaves(bus: BusState, topic: Topic, group: string, g: GroupKey)
    requires g in bus.queues && Subscribe(bus, topic, group).Ok?
    ensures var bus' := Subscribe(bus, topic, group).value; QueueFollows(bus, bus', g) && AcksKept(bus, bus', g)
  {
    hide QueueFollows, Replay;
    SameQueueFollows(bus, Subscribe(bus, topic, group).value, g);
  }

  lemma SameLeaves(bus: BusState, g: GroupKey)
    requires g in bus.queues
    ensures QueueFollows(bus, bus, g) && AcksKept(bus, bus, g)
  {
    SameQueueFollows(bus, bus, g);
  }

  // ---------- One step ----------

  lemma ClaimUntouched(cfg: Config, s: System, w: nat, g: GroupKey)
    requires Enabled(cfg, s, Claims(w)) && g in s.bus.queues && g != REQUESTS
    ensures Untouched(s, ClaimStep(cfg, s, w), g)
  {
    hide Take, Validate, QueueFollows, AcksKept;
    TakeLeaves(s.bus, OptimizationRequests, GROUP, "worker", g);
  }

  lemma AdvanceUntouched(cfg: Config, s: System, w: nat, verdict: bool, g: GroupKey)
    requires Enabled(cfg, s, Advances(w, verdict)) && Custody(s) && g in s.bus.queues && g != REQUESTS
    ensures Untouched(s, AdvanceStep(cfg, s, w, verdict), g)
  {
    hide Custody, Advance, CanAdvance, QueueFollows, AcksKept, PostEvent, PostTopic, Post, Retry, Acknowledge;
    AdvanceBus(cfg, s, w, verdict);
    var pc := s.pcs[w];
    if Posts(pc) {
      PostLeaves(s.bus, PostTopic(pc), PostEvent(pc), pc.message.key, g);
    } else if Acks(pc) || pc.Retrying? {
      HeldIsRequest(s, w);
      ResolveLeaves(s.bus, pc, Advance(cfg, s, w, verdict).bus, g);
    } else {
      SameLeaves(s.bus, g);
    }
  }

  lemma ResolveLeaves(bus: BusState, pc: Pc, bus': BusState, g: GroupKey)
    requires g in bus.queues && (Acks(pc) || pc.Retrying?) && (pc.message.topic, pc.message.consumerGroup) != g
    requires Acks(pc) ==> bus' == Acknowledge(bus, pc.message)
    requires pc.Retrying? ==> Retry(bus, pc.message, pc.reason) == Ok(bus')
    ensures QueueFollows(bus, bus', g) && AcksKept(bus, bus', g)
  {
    hide QueueFollows, AcksKept, Acknowledge, Retry;
    if Acks(pc) {
      AckLeaves(bus, pc.message, g);
    } else {
      RetryLeaves(bus, pc.message, pc.reason, g);
    }
  }

  lemma HeldIsRequest(s: System, w: nat)
    requires Custody(s) && w < |s.pcs| && Held(s.pcs[w]).Some?
    ensures var m := Held(s.pcs[w]).value; (m.topic, m.consumerGroup) == REQUESTS
  {
    hide Live, InFlight, HoldersDistinct, OthersOk, HasEntry;
    assert HoldsRequest(s.bus, Held(s.pcs[w]).value);
  }

  lemma FailUntouched(cfg: Config, s: System, w: nat, error: string, g: GroupKey)
    requires Enabled(cfg, s, Fails(w, error)) && g in s.bus.queues && g != REQUESTS
    ensures Untouched(s, FailStep(cfg, s, w, error), g)
  {
    hide Failed, QueueFollows, AcksKept;
    FailedBus(cfg, s, w, error);
    SameLeaves(s.bus, g);
  }

  lemma OtherTakeUntouched(cfg: Config, s: System, a: Action, g: GroupKey)
    requires Enabled(cfg, s, a) && a.OtherTakes? && Custody(s) && g in s.bus.queues && (a.topic, a.group) != g
    ensures Untouched(s, OtherTakeStep(s, a.topic, a.group, a.consumer), g)
  {
    hide Custody, Take, QueueFollows, AcksKept;
    TakeLeaves(s.bus, a.topic, a.group, a.consumer, g);
    TakenFor(s, a.topic, a.group, a.consumer);
  }

  lemma TakenFor(s: System, topic: Topic, group: string, consumer: string)
    requires Custody(s) && QueueReady(s.bus, (topic, group))
    ensures var m := Take(s.bus, topic, group, consumer).1;
      m.Some? && (m.value.topic, m.value.consumerGroup) == (topic, group)
  {
    hide Live, HasEntry;
    TakeKeepsLive(s.bus, InFlight(s), topic, group, consumer);
  }

  /** A step acting for another group, or for none, leaves this group alone. */
  lemma StepUntouched(cfg: Config, s: System, a: Action, g: GroupKey)
    requires Enabled(cfg, s, a) && Custody(s) && g in s.bus.queues && ActsFor(a) != Some(g)
    ensures Untouched(s, Apply(cfg, s, a), g)
  {
    hide Custody, QueueFollows, AcksKept, ClaimStep, AdvanceStep, FailStep, CanAdvance, OtherTakeStep, NewEntry,
        Append, Retry, Acknowledge, Subscribe;
    match a {
      case Publishes(topic, event, key) => PostLeaves(s.bus, topic, event, key, g);
      case Subscribes(topic, group) => SubscribeLeaves(s.bus, topic, group, g);
      case Claims(w) => ClaimUntouched(cfg, s, w, g);
      case Advances(w, verdict) => AdvanceUntouched(cfg, s, w, verdict, g);
      case Fails(w, error) => FailUntouched(cfg, s, w, error, g);
      case OtherTakes(_, _, _) => OtherTakeUntouched(cfg, s, a, g);
      case OtherAcks(m) => AckLeaves(s.bus, m, g);
      case OtherRetries(m, reason) => RetryLeaves(s.bus, m, reason, g);
    }
  }

  // ---------- Whole stretches of a run ----------

  lemma {:induction false} ReplayConcat(xs: seq<PublishedEvent>, ys: seq<PublishedEvent>, group: string)
    ensures Replay(xs + ys, group) == Replay(xs, group) + Replay(ys, group)
  {
    if xs == [] {
      assert xs + ys == ys;
    } else {
      assert (xs + ys)[1..] == xs[1..] + ys;
      ReplayConcat(xs[1..], ys, group);
    }
  }

  lemma FollowsOn(a: BusState, b: BusState, c: BusState, g: GroupKey)
    requires QueueFollows(a, b, g) && QueueFollows(b, c, g) && AcksKept(a, b, g) && AcksKept(b, c, g)
    ensures QueueFollows(a, c, g) && AcksKept(a, c, g)
  {
    assert QueueFollows(a, c, g) by {
      hide AcksKept;
      QueueFollowsOn(a, b, c, g);
    }
    hide QueueFollows;
  }

  lemma QueueFollowsOn(a: BusState, b: BusState, c: BusState, g: GroupKey)
    requires QueueFollows(a, b, g) && QueueFollows(b, c, g)
    ensures QueueFollows(a, c, g)
  {
    hide Log, Replay;
    var la, lb, lc := Log(a, g.0), Log(b, g.0), Log(c, g.0);
    assert lc[|la|..] == lb[|la|..] + lc[|lb|..];
    ReplayConcat(lb[|la|..], lc[|lb|..], "");
    assert la == lc[..|la|];
  }

  /** Over any stretch of a run in which nobody acts for a subscribed group, however much the
      others claim, acknowledge, fail and retry, the group ends with the acknowledgements and
      deliveries it had and its queue longer by exactly the entries published meanwhile. */
  lemma {:induction false} GroupsAreIsolated(cfg: Config, partitions: nat, actions: seq<Action>, states: seq<System>,
      i: nat, j: nat, g: GroupKey)
    requires Run(cfg, partitions, actions, states) && i <= j < |states| && g in states[i].bus.queues
    requires forall n :: i <= n < j ==> ActsFor(actions[n]) != Some(g)
    ensures Untouched(states[i], states[j], g)
    decreases j
  {
    hide Inv, Apply, Enabled, Custody, QueueFollows, AcksKept, ActsFor;
    if i == j {
      SameLeaves(states[i].bus, g);
    } else {
      GroupsAreIsolated(cfg, partitions, actions, states, i, j - 1, g);
      RunNext(cfg, partitions, actions, states, j - 1);
      hide Run;
      InvParts(cfg, states[j - 1]);
      GroupThere(states[i].bus, states[j - 1].bus, g);
      StepUntouched(cfg, states[j - 1], actions[j - 1], g);
      FollowsOn(states[i].bus, states[j - 1].bus, states[j].bus, g);
    }
  }

  lemma GroupThere(bus: BusState, bus': BusState, g: GroupKey)
    requires QueueFollows(bus, bus', g)
    ensures g in bus'.queues
  {
  }
}

/** The in-memory at-least-once event bus: topic logs, one queue per (topic, consumer
    group), and the set of acknowledged deliveries. */
module Bus {
  import opened Ordering
  import opened Contracts

  datatype PublishedEvent = PublishedEvent(topic: Topic, key: string, partition: nat, offset: nat, event: EventEnvelope)

  datatype ConsumedEvent = ConsumedEvent(
    topic: Topic, key: string, partition: nat, offset: nat, event: EventEnvelope,
    consumerGroup: string, consumerId: string, deliveryCount: nat)

  datatype AckKey = AckKey(topic: Topic, group: string, partition: nat, offset: nat)

  datatype BusError = EmptyConsumer | EmptyKey | BusClosed | EmptyReason | NotSubscribed

  type GroupKey = (Topic, string)

  datatype BusState = BusState(
    partitions: nat,
    logs: map<Topic, seq<PublishedEvent>>,
    queues: map<GroupKey, seq<ConsumedEvent>>,
    acknowledged: set<AckKey>,
    closed: bool)

  // ---------- Helpers of the bus ----------

  /** The sum of the bytes `c` is encoded to in UTF-8. */
  function Utf8Sum(c: char): nat {
    var n := c as int;
    if n < 0x80 then n
    else if n < 0x800 then 0xC0 + n / 0x40 + 0x80 + n % 0x40
    else if n < 0x1_0000 then 0xE0 + n / 0x1000 + 0x80 + n / 0x40 % 0x40 + 0x80 + n % 0x40
    else 0xF0 + n / 0x4_0000 + 0x80 + n / 0x1000 % 0x40 + 0x80 + n / 0x40 % 0x40 + 0x80 + n % 0x40
  }

  function ByteSum(key: string): nat {
    if key == "" then 0 else Utf8Sum(key[0]) + ByteSum(key[1..])
  }

  function PartitionFor(key: string, partitions: nat): nat
    requires partitions >= 1
  {
    ByteSum(key) % partitions
  }

  function Log(bus: BusState, topic: Topic): seq<PublishedEvent> {
    if topic in bus.logs then bus.logs[topic] else []
  }

  function CountIn(log: seq<PublishedEvent>, partition: nat): nat {
    if log == [] then 0
    else CountIn(log[..|log| - 1], partition) + (if log[|log| - 1].partition == partition then 1 else 0)
  }

  function FirstCopy(e: PublishedEvent, group: string, consumer: string): ConsumedEvent {
    ConsumedEvent(e.topic, e.key, e.partition, e.offset, e.event, group, consumer, 1)
  }

  function AckKeyOf(m: ConsumedEvent, group: string): AckKey {
    AckKey(m.topic, group, m.partition, m.offset)
  }

  function EntryKey(e: PublishedEvent, group: string): AckKey {
    AckKey(e.topic, group, e.partition, e.offset)
  }

  // ---------- Operations on values ----------

  function NewEntry(bus: BusState, topic: Topic, event: EventEnvelope, key: string): PublishedEvent
    requires bus.partitions >= 1
  {
    var partition := PartitionFor(key, bus.partitions);
    PublishedEvent(topic, key, partition, CountIn(Log(bus, topic), partition), event)
  }

  function Append(bus: BusState, e: PublishedEvent): (r: BusState)
    ensures r.partitions == bus.partitions && r.closed == bus.closed && r.acknowledged == bus.acknowledged
    ensures forall t :: Log(r, t) == if t == e.topic then Log(bus, t) + [e] else Log(bus, t)
  {
    bus.(logs := bus.logs[e.topic := Log(bus, e.topic) + [e]],
         queues := map g | g in bus.queues ::
           if g.0 == e.topic then bus.queues[g] + [FirstCopy(e, "", "")] else bus.queues[g])
  }

  function Publish(bus: BusState, topic: Topic, event: EventEnvelope, key: string): Result<BusState, BusError>
    requires bus.partitions >= 1
  {
    if key == "" then Err(EmptyKey)
    else if bus.closed then Err(BusClosed)
    else Ok(Append(bus, NewEntry(bus, topic, event, key)))
  }

  function Replay(log: seq<PublishedEvent>, group: string): seq<ConsumedEvent> {
    if log == [] then [] else [FirstCopy(log[0], group, "")] + Replay(log[1..], group)
  }

  function Subscribe(bus: BusState, topic: Topic, group: string): Result<BusState, BusError> {
    if bus.closed then Err(BusClosed)
    else if (topic, group) in bus.queues then Ok(bus)
    else Ok(bus.(queues := bus.queues[(topic, group) := Replay(Log(bus, topic), group)]))
  }

  /** One `queue.get()`: an already acknowledged copy is dropped, any other is claimed. */
  function Take(bus: BusState, topic: Topic, group: string, consumer: string): (BusState, Option<ConsumedEvent>)
    requires (topic, group) in bus.queues && bus.queues[(topic, group)] != []
  {
    var q := bus.queues[(topic, group)];
    var rest := bus.(queues := bus.queues[(topic, group) := q[1..]]);
    if AckKeyOf(q[0], group) in bus.acknowledged then (rest, None)
    else (rest, Some(q[0].(consumerGroup := group, consumerId := consumer)))
  }

  /** `_consume` up to its next delivery; None when it would block or the bus is closed. */
  function Next(bus: BusState, topic: Topic, group: string, consumer: string): (BusState, Option<ConsumedEvent>)
    requires (topic, group) in bus.queues
    decreases |bus.queues[(topic, group)]|
  {
    if bus.closed || bus.queues[(topic, group)] == [] then (bus, None)
    else
      var (rest, claimed) := Take(bus, topic, group, consumer);
      if claimed.Some? then (rest, claimed) else Next(rest, topic, group, consumer)
  }

  /** A first `consume`: subscribe, then the next delivery. */
  function Consumed(bus: BusState, topic: Topic, group: string, consumer: string):
    Result<(BusState, Option<ConsumedEvent>), BusError>
  {
    if group == "" || consumer == "" then Err(EmptyConsumer)
    else
      match Subscribe(bus, topic, group)
      case Err(e) => Err(e)
      case Ok(subscribed) => Ok(Next(subscribed, topic, group, consumer))
  }

  function Acknowledge(bus: BusState, m: ConsumedEvent): (r: BusState)
    ensures r == bus.(acknowledged := r.acknowledged)
  {
    bus.(acknowledged := bus.acknowledged + {AckKeyOf(m, m.consumerGroup)})
  }

  function Retried(m: ConsumedEvent): ConsumedEvent {
    m.(event := NextAttempt(m.event), deliveryCount := m.deliveryCount + 1)
  }

  function Retry(bus: BusState, m: ConsumedEvent, reason: string): (r: Result<BusState, BusError>)
    ensures r.Ok? ==> r.value == bus.(queues := r.value.queues)
  {
    var g := (m.topic, m.consumerGroup);
    if reason == "" then Err(EmptyReason)
    else if g !in bus.queues then Err(NotSubscribed)
    else Ok(bus.(queues := bus.queues[g := bus.queues[g] + [Retried(m)]]))
  }

  function DeadLetterEvent(m: ConsumedEvent, reason: string): EventEnvelope {
    EventEnvelope(DeadLettered, m.event.runId, m.event.correlationId, m.event.attempt,
                  DeadLetterPayload(m.topic, m.event, reason))
  }

  /** Publish to the dead-letter topic first, acknowledge only then. */
  function DeadLetter(bus: BusState, m: ConsumedEvent, reason: string): Result<BusState, BusError>
    requires bus.partitions >= 1
  {
    match Publish(bus, Dlq, DeadLetterEvent(m, reason), m.key)
    case Err(e) => Err(e)
    case Ok(published) => Ok(Acknowledge(published, m))
  }

  // ---------- The bus as an object ----------

  class InMemoryEventBus {
    const partitions: nat
    var logs: map<Topic, seq<PublishedEvent>>
    var queues: map<GroupKey, seq<ConsumedEvent>>
    var acknowledged: set<AckKey>
    var closed: bool

    function View(): BusState
      reads this
    {
      BusState(partitions, logs, queues, acknowledged, closed)
    }

    constructor (partitions: nat)
      requires partitions >= 1
      ensures View() == BusState(partitions, map[], map[], {}, false)
    {
      this.partitions := partitions;
      logs, queues, acknowledged, closed := map[], map[], {}, false;
    }

    method PublishEvent(topic: Topic, event: EventEnvelope, key: string) returns (r: Result<PublishedEvent, BusError>)
      requires partitions >= 1
      modifies this
      ensures r.Ok? <==> Publish(old(View()), topic, event, key).Ok?
      ensures r.Err? ==> View() == old(View()) && Publish(old(View()), topic, event, key) == Err(r.error)
      ensures r.Ok? ==> Publish(old(View()), topic, event, key) == Ok(View())
      ensures r.Ok? ==> Log(View(), topic) == Log(old(View()), topic) + [r.value]
    {
      if key == "" {
        return Err(EmptyKey);
      }
      if closed {
        return Err(BusClosed);
      }
      var log := if topic in logs then logs[topic] else [];
      var partition := PartitionFor(key, partitions);
      var offset := 0;
      for i := 0 to |log|
        invariant offset == CountIn(log[..i], partition)
      {
        assert log[..i + 1][..i] == log[..i];
        if log[i].partition == partition {
          offset := offset + 1;
        }
      }
      assert log[..|log|] == log;
      var published := PublishedEvent(topic, key, partition, offset, event);
      logs := logs[topic := log + [published]];
      queues := map g | g in queues ::
        if g.0 == topic then queues[g] + [FirstCopy(published, "", "")] else queues[g];
      return Ok(published);
    }

    method SubscribeGroup(topic: Topic, group: string) returns (r: Result<(), BusError>)
      modifies this
      ensures r.Ok? <==> Subscribe(old(View()), topic, group).Ok?
      ensures r.Err? ==> View() == old(View()) && Subscribe(old(View()), topic, group) == Err(r.error)
      ensures r.Ok? ==> Subscribe(old(View()), topic, group) == Ok(View())
    {
      if closed {
        return Err(BusClosed);
      }
      if (topic, group) !in queues {
        var log := if topic in logs then logs[topic] else [];
        var queue: seq<ConsumedEvent> := [];
        for i := 0 to |log|
          invariant queue + Replay(log[i..], group) == Replay(log, group)
        {
          assert log[i..][1..] == log[i + 1..];
          queue := queue + [FirstCopy(log[i], group, "")];
        }
        assert queue == Replay(log, group);
        queues := queues[(topic, group) := queue];
      }
      return Ok(());
    }

    method Consume(topic: Topic, group: string, consumer: string) returns (r: Result<Option<ConsumedEvent>, BusError>)
      modifies this
      ensures r.Ok? <==> Consumed(old(View()), topic, group, consumer).Ok?
      ensures r.Err? ==> View() == old(View()) && Consumed(old(View()), topic, group, consumer) == Err(r.error)
      ensures r.Ok? ==> Consumed(old(View()), topic, group, consumer) == Ok((View(), r.value))
    {
      if group == "" || consumer == "" {
        return Err(EmptyConsumer);
      }
      var subscribed := SubscribeGroup(topic, group);
      if subscribed.Err? {
        return Err(subscribed.error);
      }
      var message := ClaimNext(topic, group, consumer);
      return Ok(message);
    }

    /** The loop of `_consume` up to its next yield. */
    method ClaimNext(topic: Topic, group: string, consumer: string) returns (message: Option<ConsumedEvent>)
      requires (topic, group) in queues
      modifies this
      ensures (View(), message) == Next(old(View()), topic, group, consumer)
    {
      while !closed && queues[(topic, group)] != []
        invariant (topic, group) in queues
        invariant Next(View(), topic, group, consumer) == Next(old(View()), topic, group, consumer)
        decreases |queues[(topic, group)]|
      {
        var head := queues[(topic, group)][0];
        queues := queues[(topic, group) := queues[(topic, group)][1..]];
        if AckKeyOf(head, group) !in acknowledged {
          return Some(head.(consumerGroup := group, consumerId := consumer));
        }
      }
      return None;
    }

    method AcknowledgeEvent(m: ConsumedEvent)
      modifies this
      ensures View() == Acknowledge(old(View()), m)
    {
      acknowledged := acknowledged + {AckKeyOf(m, m.consumerGroup)};
    }

    method RetryEvent(m: ConsumedEvent, reason: string) returns (r: Result<(), BusError>)
      modifies this
      ensures r.Ok? <==> Retry(old(View()), m, reason).Ok?
      ensures r.Err? ==> View() == old(View())
      ensures r.Ok? ==> Retry(old(View()), m, reason) == Ok(View())
    {
      var g := (m.topic, m.consumerGroup);
      if reason == "" {
        return Err(EmptyReason);
      }
      if g !in queues {
        return Err(NotSubscribed);
      }
      queues := queues[g := queues[g] + [Retried(m)]];
      return Ok(());
    }

    method DeadLetterEventOf(m: ConsumedEvent, reason: string) returns (r: Result<PublishedEvent, BusError>)
      requires partitions >= 1
      modifies this
      ensures r.Ok? <==> DeadLetter(old(View()), m, reason).Ok?
      ensures r.Err? ==> View() == old(View())
      ensures r.Ok? ==> DeadLetter(old(View()), m, reason) == Ok(View())
    {
      r := PublishEvent(Dlq, DeadLetterEvent(m, reason), m.key);
      if r.Ok? {
        AcknowledgeEvent(m);
      }
    }

    method Close()
      modifies this
      ensures View() == old(View()).(closed := true)
    {
      closed := true;
    }
  }

  // ---------- What is refused ----------

  /** A publisher is refused for an empty key, or else because the bus is closed; a
      subscriber only because it is closed; a consumer for an empty name first; a retry for
      an empty reason, or else because its group never subscribed. Nothing else is. */
  lemma Refusals(bus: BusState, topic: Topic, event: EventEnvelope, text: string, group: string, m: ConsumedEvent)
    requires bus.partitions >= 1
    ensures Publish(bus, topic, event, text).Ok? <==> text != "" && !bus.closed
    ensures Publish(bus, topic, event, text).Err? ==>
      Publish(bus, topic, event, text).error == if text == "" then EmptyKey else BusClosed
    ensures Subscribe(bus, topic, group).Ok? <==> !bus.closed
    ensures Consumed(bus, topic, group, text).Ok? <==> group != "" && text != "" && !bus.closed
    ensures Consumed(bus, topic, group, text).Err? ==>
      Consumed(bus, topic, group, text).error == if group == "" || text == "" then EmptyConsumer else BusClosed
    ensures Retry(bus, m, text).Ok? <==> text != "" && (m.topic, m.consumerGroup) in bus.queues
    ensures Retry(bus, m, text).Err? ==>
      Retry(bus, m, text).error == if text == "" then EmptyReason else NotSubscribed
    ensures DeadLetter(bus, m, text).Ok? <==> m.key != "" && !bus.closed
  {
    hide Append, NewEntry, Replay;
  }

  // ---------- What a consumer is given ----------

  /** Position `i` of the queue is the first whose copy has not been acknowledged. */
  ghost predicate FirstUnacked(bus: BusState, g: GroupKey, i: int)
    requires g in bus.queues
  {
    var q := bus.queues[g];
    && 0 <= i < |q| && AckKeyOf(q[i], g.1) !in bus.acknowledged
    && forall j :: 0 <= j < i ==> AckKeyOf(q[j], g.1) in bus.acknowledged
  }

  /** On an open bus a consumer is given the first copy in its group's queue not acknowledged,
      marked with group and consumer; it and the ones before it leave the queue, and nothing
      else changes. It is given nothing exactly if there is none. */
  lemma {:induction false} NextIsFirstUnacked(bus: BusState, topic: Topic, group: string, consumer: string)
    requires (topic, group) in bus.queues && !bus.closed
    ensures var g := (topic, group); var q := bus.queues[g]; var (bus', m) := Next(bus, topic, group, consumer);
      && (m.None? <==> forall i :: !FirstUnacked(bus, g, i))
      && (forall i :: FirstUnacked(bus, g, i) ==>
            && m == Some(q[i].(consumerGroup := group, consumerId := consumer))
            && bus' == bus.(queues := bus.queues[g := q[i + 1..]]))
      && (m.None? ==> bus' == bus.(queues := bus.queues[g := []]))
    decreases |bus.queues[(topic, group)]|
  {
    var g := (topic, group);
    var q := bus.queues[g];
    if q == [] {
      assert bus.queues == bus.queues[g := []];
    } else if AckKeyOf(q[0], group) in bus.acknowledged {
      var rest := bus.(queues := bus.queues[g := q[1..]]);
      NextIsFirstUnacked(rest, topic, group, consumer);
      forall i | FirstUnacked(bus, g, i)
        ensures FirstUnacked(rest, g, i - 1) && q[1..][i - 1 + 1..] == q[i + 1..]
        ensures rest.queues[g := q[i + 1..]] == bus.queues[g := q[i + 1..]]
      {
        assert forall j :: 0 <= j < i - 1 ==> q[1..][j] == q[j + 1];
      }
      forall i | FirstUnacked(rest, g, i) ensures FirstUnacked(bus, g, i + 1) {
        assert forall j :: 1 <= j <= i + 1 ==> q[j] == q[1..][j - 1];
      }
      assert rest.queues[g := []] == bus.queues[g := []];
    } else {
      assert FirstUnacked(bus, g, 0);
    }
  }

  // ---------- Partitions ----------

  /** The bytes of a character in UTF-8. */
  function Utf8(c: char): seq<int> {
    var n := c as int;
    if n < 0x80 then [n]
    else if n < 0x800 then [0xC0 + n / 0x40, 0x80 + n % 0x40]
    else if n < 0x1_0000 then [0xE0 + n / 0x1000, 0x80 + n / 0x40 % 0x40, 0x80 + n % 0x40]
    else [0xF0 + n / 0x4_0000, 0x80 + n / 0x1000 % 0x40, 0x80 + n / 0x40 % 0x40, 0x80 + n % 0x40]
  }

  function Encode(key: string): seq<int> {
    if key == "" then [] else Utf8(key[0]) + Encode(key[1..])
  }

  function Sum(bytes: seq<int>): int {
    if bytes == [] then 0 else bytes[0] + Sum(bytes[1..])
  }

  /** The code point a byte sequence of this length stands for. */
  function CodePoint(bytes: seq<int>): int {
    if |bytes| == 1 then bytes[0]
    else if |bytes| == 2 then (bytes[0] - 0xC0) * 0x40 + (bytes[1] - 0x80)
    else if |bytes| == 3 then ((bytes[0] - 0xE0) * 0x40 + (bytes[1] - 0x80)) * 0x40 + (bytes[2] - 0x80)
    else if |bytes| == 4 then
      (((bytes[0] - 0xF0) * 0x40 + (bytes[1] - 0x80)) * 0x40 + (bytes[2] - 0x80)) * 0x40 + (bytes[3] - 0x80)
    else 0
  }

  lemma Sextets(n: int)
    requires n >= 0
    ensures n == n / 0x40 * 0x40 + n % 0x40
    ensures n == (n / 0x1000 * 0x40 + n / 0x40 % 0x40) * 0x40 + n % 0x40
    ensures n == ((n / 0x4_0000 * 0x40 + n / 0x1000 % 0x40) * 0x40 + n / 0x40 % 0x40) * 0x40 + n % 0x40
  {
    var high, higher := n / 0x40, n / 0x40 / 0x40;
    assert higher == n / 0x1000 && higher / 0x40 == n / 0x4_0000;
  }

  /** It is UTF-8: bytes that decode to the character. */
  lemma Utf8Decodes(c: char)
    ensures CodePoint(Utf8(c)) == c as int
  {
    Sextets(c as int);
  }

  /** The first byte tells how many there are; all are bytes, and the others continue it. */
  lemma Utf8IsWellFormed(c: char)
    ensures forall b :: b in Utf8(c) ==> 0 <= b < 0x100
    ensures forall k :: 1 <= k < |Utf8(c)| ==> 0x80 <= Utf8(c)[k] < 0xC0
    ensures var first := Utf8(c)[0];
      |Utf8(c)| == if first < 0x80 then 1 else if 0xC0 <= first < 0xE0 then 2 else if first < 0xF0 then 3 else 4
  {
    assert c as int < 0x11_0000;
  }

  lemma {:induction false} SumConcat(a: seq<int>, b: seq<int>)
    ensures Sum(a + b) == Sum(a) + Sum(b)
  {
    if a == [] {
      assert a + b == b;
    } else {
      assert (a + b)[1..] == a[1..] + b;
      SumConcat(a[1..], b);
    }
  }

  lemma Utf8Sums(c: char)
    ensures Sum(Utf8(c)) == Utf8Sum(c)
  {
    var bytes := Utf8(c);
    assert Sum(bytes) == bytes[0] + Sum(bytes[1..]);
    if |bytes| >= 2 {
      assert Sum(bytes[1..]) == bytes[1] + Sum(bytes[1..][1..]);
    }
    if |bytes| >= 3 {
      assert Sum(bytes[1..][1..]) == bytes[2] + Sum(bytes[1..][1..][1..]);
    }
    if |bytes| == 4 {
      assert Sum(bytes[1..][1..][1..]) == bytes[3];
    }
  }

  lemma {:induction false} ByteSumIsSum(key: string)
    ensures ByteSum(key) == Sum(Encode(key))
  {
    if key == "" {
    } else {
      ByteSumIsSum(key[1..]);
      SumConcat(Utf8(key[0]), Encode(key[1..]));
      assert Sum(Utf8(key[0])) == Utf8Sum(key[0]) by { Utf8Sums(key[0]); }
    }
  }

  /** A key's partition is the sum of its encoded bytes modulo the number of partitions, so it
      is one of them and depends on the key alone. */
  lemma PartitionOfKey(key: string, partitions: nat)
    requires partitions >= 1
    ensures PartitionFor(key, partitions) == Sum(Encode(key)) % partitions < partitions
  {
    ByteSumIsSum(key);
  }

  // ---------- Offsets ----------

  ghost predicate LogOk(partitions: nat, topic: Topic, log: seq<PublishedEvent>)
    requires partitions >= 1
  {
    forall i :: 0 <= i < |log| ==>
      && log[i].topic == topic
      && log[i].partition == PartitionFor(log[i].key, partitions)
      && log[i].offset == CountIn(log[..i], log[i].partition)
  }

  ghost predicate LogsOk(bus: BusState)
    requires bus.partitions >= 1
  {
    forall t :: t in bus.logs ==> LogOk(bus.partitions, t, bus.logs[t])
  }

  lemma {:induction false} CountGrows(log: seq<PublishedEvent>, i: nat, partition: nat)
    requires i <= |log|
    ensures CountIn(log[..i], partition) <= CountIn(log, partition)
    ensures i < |log| && log[i].partition == partition ==> CountIn(log[..i], partition) < CountIn(log, partition)
    decreases |log|
  {
    if i == |log| {
      assert log[..i] == log;
    } else {
      var n := |log| - 1;
      assert log[..n][..i] == log[..i];
      CountGrows(log[..n], i, partition);
      if i < n {
        assert log[..n][i] == log[i];
      }
    }
  }

  /** In a log, entries of one partition have strictly increasing offsets, so partition and
      offset identify one entry; and every offset below the count is taken. */
  lemma OffsetsIdentify(partitions: nat, topic: Topic, log: seq<PublishedEvent>)
    requires partitions >= 1 && LogOk(partitions, topic, log)
    ensures forall i, j :: 0 <= i < j < |log| && log[i].partition == log[j].partition ==> log[i].offset < log[j].offset
    ensures forall i :: 0 <= i < |log| ==> log[i].offset < CountIn(log, log[i].partition)
  {
    forall i, j | 0 <= i < j < |log| && log[i].partition == log[j].partition ensures log[i].offset < log[j].offset {
      assert log[..j][..i] == log[..i] && log[..j][i] == log[i];
      CountGrows(log[..j], i, log[i].partition);
    }
    forall i | 0 <= i < |log| ensures log[i].offset < CountIn(log, log[i].partition) {
      CountGrows(log, i, log[i].partition);
    }
  }

  lemma {:induction false} OffsetTaken(partitions: nat, topic: Topic, log: seq<PublishedEvent>, partition: nat,
      offset: nat)
    requires partitions >= 1 && LogOk(partitions, topic, log) && offset < CountIn(log, partition)
    ensures exists i :: 0 <= i < |log| && log[i].partition == partition && log[i].offset == offset
    decreases |log|
  {
    hide PartitionFor;
    var n := |log| - 1;
    assert forall i :: 0 <= i < n ==> log[..n][i] == log[i] && log[..n][..i] == log[..i];
    if offset < CountIn(log[..n], partition) {
      OffsetTaken(partitions, topic, log[..n], partition, offset);
      var i :| 0 <= i < n && log[..n][i].partition == partition && log[..n][i].offset == offset;
      assert log[i].partition == partition && log[i].offset == offset;
    } else {
      assert log[n].partition == partition && log[n].offset == offset;
    }
  }

  /** Offsets of a partition leave no gap: they are exactly 0 to count - 1. */
  lemma OffsetsDense(partitions: nat, topic: Topic, log: seq<PublishedEvent>, partition: nat, offset: nat)
    requires partitions >= 1 && LogOk(partitions, topic, log)
    ensures offset < CountIn(log, partition) <==>
      exists i :: 0 <= i < |log| && log[i].partition == partition && log[i].offset == offset
  {
    OffsetsIdentify(partitions, topic, log);
    hide LogOk;
    if offset < CountIn(log, partition) {
      OffsetTaken(partitions, topic, log, partition, offset);
    }
  }

  lemma AppendKeepsLogs(bus: BusState, topic: Topic, event: EventEnvelope, key: string)
    requires bus.partitions >= 1 && LogsOk(bus)
    ensures LogsOk(Append(bus, NewEntry(bus, topic, event, key)))
    ensures forall e :: e in Log(bus, topic) ==>
      (e.partition, e.offset) != (NewEntry(bus, topic, event, key).partition, NewEntry(bus, topic, event, key).offset)
  {
    var log := Log(bus, topic);
    var e := NewEntry(bus, topic, event, key);
    assert LogOk(bus.partitions, topic, log);
    OffsetsIdentify(bus.partitions, topic, log);
    ExtendedLogOk(bus, topic, event, key);
    hide NewEntry, LogOk;
  }

  lemma ExtendedLogOk(bus: BusState, topic: Topic, event: EventEnvelope, key: string)
    requires bus.partitions >= 1 && LogsOk(bus)
    ensures LogOk(bus.partitions, topic, Log(bus, topic) + [NewEntry(bus, topic, event, key)])
  {
    hide PartitionFor, CountIn;
    var log, n := Log(bus, topic), |Log(bus, topic)|;
    var log' := log + [NewEntry(bus, topic, event, key)];
    assert LogOk(bus.partitions, topic, log);
    forall i | 0 <= i < |log'|
      ensures log'[i].topic == topic && log'[i].partition == PartitionFor(log'[i].key, bus.partitions)
      ensures log'[i].offset == CountIn(log'[..i], log'[i].partition)
    {
      if i < n {
        assert log'[..i] == log[..i] && log'[i] == log[i];
      } else {
        assert log'[..n] == log;
      }
    }
  }

  // ---------- One live copy ----------

  /** A delivery of a log entry: same place and key; the event is the entry's, attempted
      once more for each delivery beyond the first. */
  predicate CopyOf(m: ConsumedEvent, e: PublishedEvent) {
    && m.topic == e.topic && m.key == e.key && m.partition == e.partition && m.offset == e.offset
    && m.deliveryCount >= 1
    && m.event == e.event.(attempt := e.event.attempt + m.deliveryCount - 1)
  }

  ghost predicate HasEntry(log: seq<PublishedEvent>, m: ConsumedEvent) {
    exists e :: e in log && CopyOf(m, e)
  }

  ghost predicate Queued(q: seq<ConsumedEvent>, e: PublishedEvent) {
    exists m :: m in q && m.partition == e.partition && m.offset == e.offset
  }

  ghost predicate DistinctPlaces(q: seq<ConsumedEvent>) {
    forall i, j :: 0 <= i < j < |q| ==> (q[i].partition, q[i].offset) != (q[j].partition, q[j].offset)
  }

  ghost predicate KnownKey(bus: BusState, k: AckKey) {
    && (k.topic, k.group) in bus.queues
    && exists e :: e in Log(bus, k.topic) && EntryKey(e, k.group) == k
  }

  /** One group's queue: distinct copies of entries, none acknowledged or in flight, and no
      entry forgotten. */
  ghost predicate QueueLive(bus: BusState, inFlight: set<AckKey>, g: GroupKey)
    requires g in bus.queues
  {
    var q, log := bus.queues[g], Log(bus, g.0);
    && DistinctPlaces(q)
    && (forall m :: m in q ==>
        HasEntry(log, m) && AckKeyOf(m, g.1) !in bus.acknowledged && AckKeyOf(m, g.1) !in inFlight)
    && (forall e :: e in log ==> EntryKey(e, g.1) in bus.acknowledged || EntryKey(e, g.1) in inFlight || Queued(q, e))
  }

  /** The state between operations, `inFlight` being the deliveries claimed and not yet
      acknowledged, retried or dead-lettered. */
  ghost predicate Live(bus: BusState, inFlight: set<AckKey>) {
    && bus.partitions >= 1 && LogsOk(bus)
    && (forall g :: g in bus.queues ==> QueueLive(bus, inFlight, g))
    && bus.acknowledged !! inFlight
    && (forall k :: k in bus.acknowledged || k in inFlight ==> KnownKey(bus, k))
  }

  /** For a subscribed group, every log entry is in exactly one of three places: done, with
      one consumer, or in the queue at one position. */
  lemma ExactlyOneCopy(bus: BusState, inFlight: set<AckKey>, g: GroupKey, e: PublishedEvent)
    requires Live(bus, inFlight) && g in bus.queues && e in Log(bus, g.0)
    ensures var k := EntryKey(e, g.1); var q := bus.queues[g];
      && (k in bus.acknowledged ==> k !in inFlight && !Queued(q, e))
      && (k in inFlight ==> !Queued(q, e))
      && (k !in bus.acknowledged && k !in inFlight ==> Queued(q, e))
      && forall i, j :: 0 <= i < |q| && 0 <= j < |q| && AckKeyOf(q[i], g.1) == k && AckKeyOf(q[j], g.1) == k ==> i == j
  {
    assert QueueLive(bus, inFlight, g);
    assert e.topic == g.0;
    var q := bus.queues[g];
    forall m | m in q && m.partition == e.partition && m.offset == e.offset
      ensures EntryKey(e, g.1) !in bus.acknowledged && EntryKey(e, g.1) !in inFlight
    {
      assert HasEntry(Log(bus, g.0), m);
      assert AckKeyOf(m, g.1) == EntryKey(e, g.1);
    }
  }

  lemma PublishKeepsLive(bus: BusState, inFlight: set<AckKey>, topic: Topic, event: EventEnvelope, key: string)
    requires Live(bus, inFlight)
    ensures Live(Append(bus, NewEntry(bus, topic, event, key)), inFlight)
  {
    hide Utf8Sum, LogOk;
    AppendKeepsLogs(bus, topic, event, key);
    var e := NewEntry(bus, topic, event, key);
    hide NewEntry;
    var bus' := Append(bus, e);
    assert e.topic == topic;
    forall g | g in bus'.queues ensures QueueLive(bus', inFlight, g) {
      assert QueueLive(bus, inFlight, g);
      if g.0 == topic {
        AppendKeepsQueue(bus, inFlight, g, e);
      }
    }
    forall k | k in bus'.acknowledged || k in inFlight ensures KnownKey(bus', k) {
      assert KnownKey(bus, k);
      var x :| x in Log(bus, k.topic) && EntryKey(x, k.group) == k;
      assert x in Log(bus', k.topic);
    }
  }

  /** The copies already queued stay copies of entries, apart from the new one. */
  lemma OldCopiesStay(q: seq<ConsumedEvent>, log: seq<PublishedEvent>, e: PublishedEvent)
    requires DistinctPlaces(q) && forall m :: m in q ==> HasEntry(log, m)
    requires forall x :: x in log ==> (x.partition, x.offset) != (e.partition, e.offset)
    ensures var q' := q + [FirstCopy(e, "", "")];
      DistinctPlaces(q') && forall m :: m in q' ==> HasEntry(log + [e], m)
  {
    var c := FirstCopy(e, "", "");
    assert CopyOf(c, e) && e in log + [e];
    forall m | m in q ensures HasEntry(log + [e], m) && (m.partition, m.offset) != (c.partition, c.offset) {
      var x :| x in log && CopyOf(m, x);
      assert x in log + [e];
    }
    hide CopyOf, HasEntry;
  }

  lemma QueuedStays(q: seq<ConsumedEvent>, c: ConsumedEvent, x: PublishedEvent)
    requires Queued(q, x) || (c.partition == x.partition && c.offset == x.offset)
    ensures Queued(q + [c], x)
  {
    if Queued(q, x) {
      var m :| m in q && m.partition == x.partition && m.offset == x.offset;
      assert m in q + [c];
    } else {
      assert c in q + [c];
    }
  }

  lemma AppendKeepsQueue(bus: BusState, inFlight: set<AckKey>, g: GroupKey, e: PublishedEvent)
    requires Live(bus, inFlight) && g in bus.queues && e.topic == g.0
    requires forall x :: x in Log(bus, g.0) ==> (x.partition, x.offset) != (e.partition, e.offset)
    ensures QueueLive(Append(bus, e), inFlight, g)
  {
    var bus' := Append(bus, e);
    var q, log := bus.queues[g], Log(bus, g.0);
    var c := FirstCopy(e, "", "");
    assert bus'.queues[g] == q + [c] && Log(bus', g.0) == log + [e];
    assert QueueLive(bus, inFlight, g);
    assert !KnownKey(bus, AckKeyOf(c, g.1));
    OldCopiesStay(q, log, e);
    hide LogsOk, HasEntry, DistinctPlaces, Queued, Append;
    forall x | x in log + [e]
      ensures EntryKey(x, g.1) in bus.acknowledged || EntryKey(x, g.1) in inFlight || Queued(q + [c], x)
    {
      if x !in log || Queued(q, x) {
        QueuedStays(q, c, x);
      }
    }
  }

  lemma {:induction false} ReplayFacts(log: seq<PublishedEvent>, group: string)
    ensures |Replay(log, group)| == |log|
    ensures forall i :: 0 <= i < |log| ==> Replay(log, group)[i] == FirstCopy(log[i], group, "")
  {
    if log == [] {
    } else {
      ReplayFacts(log[1..], group);
    }
  }

  /** Late subscribers get the whole log replayed, so nothing published before is missed. */
  lemma SubscribeKeepsLive(bus: BusState, inFlight: set<AckKey>, topic: Topic, group: string)
    requires Live(bus, inFlight) && Subscribe(bus, topic, group).Ok?
    ensures Live(Subscribe(bus, topic, group).value, inFlight)
  {
    var bus' := Subscribe(bus, topic, group).value;
    var log := Log(bus, topic);
    if (topic, group) !in bus.queues {
      var q := bus'.queues[(topic, group)];
      ReplayFacts(log, group);
      LogIds(bus, topic);
      forall m | m in q ensures HasEntry(log, m) && AckKeyOf(m, group) !in bus.acknowledged
          && AckKeyOf(m, group) !in inFlight {
        var i :| 0 <= i < |q| && q[i] == m;
        assert log[i] in log && CopyOf(m, log[i]);
        assert !KnownKey(bus, AckKeyOf(m, group));
      }
      forall e | e in log ensures Queued(q, e) {
        var i :| 0 <= i < |log| && log[i] == e;
        assert q[i] in q;
      }
      assert QueueLive(bus', inFlight, (topic, group));
    }
    forall g | g in bus'.queues ensures QueueLive(bus', inFlight, g) {
      if g != (topic, group) {
        assert QueueLive(bus, inFlight, g);
      }
    }
    forall k | k in bus'.acknowledged || k in inFlight ensures KnownKey(bus', k) {
      assert KnownKey(bus, k);
    }
  }

  lemma LogIds(bus: BusState, topic: Topic)
    requires bus.partitions >= 1 && LogsOk(bus)
    ensures var log := Log(bus, topic);
      && (forall e :: e in log ==> e.topic == topic)
      && forall i, j :: 0 <= i < j < |log| ==> (log[i].partition, log[i].offset) != (log[j].partition, log[j].offset)
  {
    assert LogOk(bus.partitions, topic, Log(bus, topic));
    OffsetsIdentify(bus.partitions, topic, Log(bus, topic));
  }

  /** A claim moves one copy from the queue into flight; under the protocol the head of a
      queue is never an acknowledged leftover. */
  lemma TakeKeepsLive(bus: BusState, inFlight: set<AckKey>, topic: Topic, group: string, consumer: string)
    requires Live(bus, inFlight) && (topic, group) in bus.queues && bus.queues[(topic, group)] != []
    ensures var (bus', m) := Take(bus, topic, group, consumer);
      && m.Some?
      && m.value.topic == topic && m.value.consumerGroup == group
      && HasEntry(Log(bus, topic), m.value)
      && AckKeyOf(m.value, group) !in inFlight
      && Live(bus', inFlight + {AckKeyOf(m.value, group)})
  {
    var g := (topic, group);
    var q, log := bus.queues[g], Log(bus, topic);
    assert QueueLive(bus, inFlight, g);
    assert q[0] in q;
    var e :| e in log && CopyOf(q[0], e);
    LogIds(bus, topic);
    var (bus', claimed) := Take(bus, topic, group, consumer);
    var m := claimed.value;
    assert CopyOf(m, e);
    var k := AckKeyOf(m, group);
    assert k == EntryKey(e, group);
    forall h | h in bus'.queues ensures QueueLive(bus', inFlight + {k}, h) {
      assert QueueLive(bus, inFlight, h);
      if h == g {
        TailLive(bus, inFlight, g, k);
      } else {
        OtherQueueUnaffected(bus, inFlight, h, k);
      }
    }
    forall x | x in bus'.acknowledged || x in inFlight + {k} ensures KnownKey(bus', x) {
      if x != k {
        assert KnownKey(bus, x);
      }
    }
  }

  lemma TailLive(bus: BusState, inFlight: set<AckKey>, g: GroupKey, k: AckKey)
    requires Live(bus, inFlight) && g in bus.queues && bus.queues[g] != [] && k == AckKeyOf(bus.queues[g][0], g.1)
    ensures QueueLive(bus.(queues := bus.queues[g := bus.queues[g][1..]]), inFlight + {k}, g)
  {
    var q, log := bus.queues[g], Log(bus, g.0);
    assert QueueLive(bus, inFlight, g);
    LogIds(bus, g.0);
    assert q[0] in q;
    forall m | m in q[1..] ensures m in q && AckKeyOf(m, g.1) != k {
      var i :| 0 <= i < |q[1..]| && q[1..][i] == m;
      assert q[i + 1] == m;
    }
    forall e | e in log ensures EntryKey(e, g.1) in bus.acknowledged || EntryKey(e,
        g.1) in inFlight + {k} || Queued(q[1..], e) {
      if Queued(q, e) {
        var m :| m in q && m.partition == e.partition && m.offset == e.offset;
        assert m == q[0] || m in q[1..];
        assert HasEntry(log, q[0]);
      }
    }
  }

  /** A delivery of one group has no copy in another group's queue. */
  lemma OtherQueueUnaffected(bus: BusState, inFlight: set<AckKey>, h: GroupKey, k: AckKey)
    requires Live(bus, inFlight) && h in bus.queues && h != (k.topic, k.group)
    ensures forall m :: m in bus.queues[h] ==> AckKeyOf(m, h.1) != k
  {
  }

  /** Acknowledging a delivery in flight retires its only copy. */
  lemma AckKeepsLive(bus: BusState, inFlight: set<AckKey>, m: ConsumedEvent)
    requires Live(bus, inFlight) && AckKeyOf(m, m.consumerGroup) in inFlight
    ensures Live(Acknowledge(bus, m), inFlight - {AckKeyOf(m, m.consumerGroup)})
  {
    var bus' := Acknowledge(bus, m);
    var k := AckKeyOf(m, m.consumerGroup);
    forall g | g in bus'.queues ensures QueueLive(bus', inFlight - {k}, g) {
      assert QueueLive(bus, inFlight, g);
    }
    forall x | x in bus'.acknowledged || x in inFlight - {k} ensures KnownKey(bus', x) {
      assert KnownKey(bus, x);
    }
  }

  /** Retrying a delivery in flight puts its only copy back in its own group's queue, with
      attempt and delivery count advanced together. */
  lemma RetryKeepsLive(bus: BusState, inFlight: set<AckKey>, m: ConsumedEvent, reason: string)
    requires Live(bus, inFlight) && AckKeyOf(m, m.consumerGroup) in inFlight && reason != ""
    requires HasEntry(Log(bus, m.topic), m)
    ensures Retry(bus, m, reason).Ok?
    ensures Live(Retry(bus, m, reason).value, inFlight - {AckKeyOf(m, m.consumerGroup)})
  {
    var k := AckKeyOf(m, m.consumerGroup);
    assert KnownKey(bus, k);
    var g := (m.topic, m.consumerGroup);
    var bus' := Retry(bus, m, reason).value;
    RequeueLive(bus, inFlight, m);
    hide LogsOk, HasEntry;
    forall h | h in bus'.queues && h != g ensures QueueLive(bus', inFlight - {k}, h) {
      OthersWithout(bus, inFlight, h, k, bus');
    }
    hide QueueLive;
    forall x | x in bus'.acknowledged || x in inFlight - {k} ensures KnownKey(bus', x) {
      assert KnownKey(bus, x);
    }
  }

  /** A group whose deliveries are not concerned stays as it is. */
  lemma OthersWithout(bus: BusState, inFlight: set<AckKey>, h: GroupKey, k: AckKey, bus': BusState)
    requires Live(bus, inFlight) && h in bus.queues && h != (k.topic, k.group)
    requires bus'.logs == bus.logs && bus'.acknowledged == bus.acknowledged
    requires h in bus'.queues && bus'.queues[h] == bus.queues[h]
    ensures QueueLive(bus', inFlight - {k}, h)
  {
    assert QueueLive(bus, inFlight, h);
    LogIds(bus, h.0);
    hide LogsOk, HasEntry, Queued;
  }

  /** A delivery in flight and the queued ones are at different places of the log. */
  lemma InFlightApart(bus: BusState, inFlight: set<AckKey>, m: ConsumedEvent)
    requires Live(bus, inFlight) && AckKeyOf(m, m.consumerGroup) in inFlight && (m.topic, m.consumerGroup) in bus.queues
    ensures forall x :: x in bus.queues[(m.topic, m.consumerGroup)] ==>
        (x.partition, x.offset) != (m.partition, m.offset)
  {
    var g := (m.topic, m.consumerGroup);
    assert QueueLive(bus, inFlight, g);
    LogIds(bus, m.topic);
    hide LogsOk;
    forall x | x in bus.queues[g] ensures (x.partition, x.offset) != (m.partition, m.offset) {
      assert HasEntry(Log(bus, m.topic), x) && AckKeyOf(x, g.1) !in inFlight;
    }
  }

  lemma RequeueLive(bus: BusState, inFlight: set<AckKey>, m: ConsumedEvent)
    requires Live(bus, inFlight) && AckKeyOf(m, m.consumerGroup) in inFlight
    requires HasEntry(Log(bus, m.topic), m) && (m.topic, m.consumerGroup) in bus.queues
    ensures var g := (m.topic, m.consumerGroup);
      QueueLive(bus.(queues := bus.queues[g := bus.queues[g] + [Retried(m)]]),
                inFlight - {AckKeyOf(m, m.consumerGroup)}, g)
  {
    var g := (m.topic, m.consumerGroup);
    assert QueueLive(bus, inFlight, g) && bus.acknowledged !! inFlight;
    InFlightApart(bus, inFlight, m);
    LogIds(bus, m.topic);
    hide Live, LogsOk;
    RequeuedLive(bus, inFlight, m);
  }

  lemma RequeuedLive(bus: BusState, inFlight: set<AckKey>, m: ConsumedEvent)
    requires AckKeyOf(m, m.consumerGroup) in inFlight && bus.acknowledged !! inFlight
    requires HasEntry(Log(bus, m.topic), m) && (m.topic, m.consumerGroup) in bus.queues
    requires QueueLive(bus, inFlight, (m.topic, m.consumerGroup))
    requires forall e :: e in Log(bus, m.topic) ==> e.topic == m.topic
    requires forall x :: x in bus.queues[(m.topic, m.consumerGroup)] ==>
        (x.partition, x.offset) != (m.partition, m.offset)
    ensures var g := (m.topic, m.consumerGroup);
      QueueLive(bus.(queues := bus.queues[g := bus.queues[g] + [Retried(m)]]),
                inFlight - {AckKeyOf(m, m.consumerGroup)}, g)
  {
    var g := (m.topic, m.consumerGroup);
    var q, log, r, k := bus.queues[g], Log(bus, m.topic), Retried(m), AckKeyOf(m, m.consumerGroup);
    RetriedHasEntry(log, m);
    assert AckKeyOf(r, g.1) == k;
    hide HasEntry, Queued;
    forall x | x in log
      ensures EntryKey(x, g.1) in bus.acknowledged || EntryKey(x, g.1) in inFlight - {k} || Queued(q + [r], x)
    {
      if Queued(q, x) || EntryKey(x, g.1) == k {
        QueuedStays(q, r, x);
      }
    }
  }

  lemma RetriedHasEntry(log: seq<PublishedEvent>, m: ConsumedEvent)
    requires HasEntry(log, m)
    ensures HasEntry(log, Retried(m))
  {
    var e :| e in log && CopyOf(m, e);
    assert CopyOf(Retried(m), e);
  }
}

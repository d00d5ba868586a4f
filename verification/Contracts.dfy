/** Topics, events and payloads exchanged on the bus. Event identifiers, timestamps and
    causation links are not represented. */
module Contracts {
  import opened Ordering

  datatype Topic =
    | AnalysisRequests | OptimizationRequests | OptimizationResults
    | VerificationEvents | SystemEvents | Dlq | OtherTopic(name: string)

  datatype EventType =
    | WorkloadOptimizationRequested | WorkloadOptimizationCompleted | DeadLettered | OtherEvent(kind: string)

  /** A request carries identifiers that may be missing; a result carries what the
      coordinator reads; a dead letter carries the event it gives up on. */
  datatype Payload =
    | RequestPayload(taskId: Option<string>, workloadId: Option<string>, namespace: Option<string>,
        contextRef: Option<string>)
    | ResultPayload(task: string, workload: string, accepted: bool)
    | DeadLetterPayload(sourceTopic: Topic, sourceEvent: EventEnvelope, reason: string)
    | OtherPayload

  datatype EventEnvelope = EventEnvelope(
    eventType: EventType, runId: string, correlationId: string, attempt: nat, payload: Payload)

  function NextAttempt(e: EventEnvelope): EventEnvelope {
    e.(attempt := e.attempt + 1)
  }

  /** `e` after some number of further attempts. */
  predicate LaterAttempt(later: EventEnvelope, e: EventEnvelope) {
    later == e.(attempt := later.attempt) && later.attempt >= e.attempt
  }
}

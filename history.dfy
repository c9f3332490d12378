/** The history events the client reads and builds. The event type tag and its
    attributes are one closed sum type: every tag carries exactly the attribute
    shape that belongs to it. */
module History {

  newtype byte = b: int | 0 <= b < 256

  /** A serialised value, as produced and consumed by the payload converter. */
  type Payload = seq<byte>

  /** Time as read from the client's clock. */
  type Timestamp = int

  datatype EventAttributes =
    | ExecutionStarted(name: string, inputs: seq<Payload>)
    | ExecutionFinished(result: Payload, error: string)
    | ExecutionCanceled
    | ExecutionTerminated
    | SignalReceived(name: string, arg: Payload)
      /** Activity, timer and other scheduling events, identified by their tag only. */
    | OtherEvent(tag: nat)

  datatype HistoryEvent = HistoryEvent(timestamp: Timestamp, attributes: EventAttributes)

  datatype WorkflowInstance = WorkflowInstance(instanceID: string, executionID: string)

  /** The unit handed to the backend: an event addressed to an instance. */
  datatype WorkflowEvent = WorkflowEvent(instance: WorkflowInstance, event: HistoryEvent)

  /** The events that end an execution and so carry its outcome. */
  predicate IsTerminal(e: HistoryEvent) {
    e.attributes.ExecutionFinished? || e.attributes.ExecutionCanceled? || e.attributes.ExecutionTerminated?
  }

  /** No event of `h` ends the execution. */
  predicate NoTerminal(h: seq<HistoryEvent>) {
    forall j :: 0 <= j < |h| ==> !IsTerminal(h[j])
  }
}

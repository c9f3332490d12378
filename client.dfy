/** The workflow client: starting and signalling instances, and reading an
    instance's result back out of its history.

    Everything the client reaches through I/O or through libraries is a
    parameter here: the clock reading (`now`), the fresh execution id, the
    payload converter's outcome (`inputs`, `arg`, `decode`), and the backend's
    answers (`backendCreate`, `backendSignal`, `waitError`, `history`). */
module Client {
  import opened Wrappers
  import opened History

  /** Go's `time.Duration`: a signed 64-bit count of nanoseconds. */
  newtype Duration = d: int | -0x8000_0000_0000_0000 <= d < 0x8000_0000_0000_0000

  const Second: Duration := 1_000_000_000

  /** The wait used when the caller passes a zero timeout. */
  const DefaultWaitTimeout: Duration := 20 * Second

  datatype WorkflowInstanceOptions = WorkflowInstanceOptions(instanceID: string)

  /** The errors the client returns. Each is a distinct value, as Go's sentinel
      errors are distinct by identity: `WorkflowFailed("workflow canceled")`
      reads like `WorkflowCanceled` but is not it. */
  datatype ClientError =
    | ArgumentsNotConverted(cause: string)
    | InstanceNotCreated(cause: string)
    | BackendFailed(cause: string)
    | DidNotFinishInTime(cause: string)
    | HistoryNotRead(cause: string)
    | WorkflowFailed(message: string)
    | ResultNotConverted(cause: string)
    | WorkflowCanceled
    | WorkflowTerminated
    | ResultEventNotFound

  /** The text of an error; a wrapped error reads "context: cause". */
  function ErrorText(e: ClientError): string {
    match e
    case ArgumentsNotConverted(c) => "could not convert arguments: " + c
    case InstanceNotCreated(c) => "could not create workflow instance: " + c
    case BackendFailed(c) => c
    case DidNotFinishInTime(c) => "workflow did not finish in time: " + c
    case HistoryNotRead(c) => "could not get workflow history: " + c
    case WorkflowFailed(m) => m
    case ResultNotConverted(c) => "could not convert result: " + c
    case WorkflowCanceled => "workflow canceled"
    case WorkflowTerminated => "workflow terminated"
    case ResultEventNotFound => "workflow finished, but could not find result event"
  }

  /** The two sentinels differ from each other, and a workflow error is never
      either sentinel, even when its message spells one of theirs. */
  lemma SentinelsAreDistinct(message: string)
    ensures WorkflowCanceled != WorkflowTerminated
    ensures ErrorText(WorkflowCanceled) != ErrorText(WorkflowTerminated)
    ensures WorkflowFailed(message) != WorkflowCanceled && WorkflowFailed(message) != WorkflowTerminated
    ensures ErrorText(WorkflowFailed(message)) == message
  {
  }

  // ---------------------------------------------------------------------------
  // Waiting

  /** The timeout `WaitForWorkflowInstance` actually waits for: zero stands for
      the default, every other value is kept. */
  function WaitTimeout(timeout: Duration): (t: Duration)
    ensures t != 0
    ensures timeout == 0 ==> t == DefaultWaitTimeout
    ensures timeout != 0 ==> t == timeout
  {
    if timeout == 0 then DefaultWaitTimeout else timeout
  }

  /** Corollary of `WaitTimeout`'s contract: normalising a timeout twice is
      the same as normalising it once. */
  lemma WaitTimeoutIdempotent(timeout: Duration)
    ensures WaitTimeout(WaitTimeout(timeout)) == WaitTimeout(timeout)
  {
  }

  // ---------------------------------------------------------------------------
  // Starting an instance

  /** The start message `CreateWorkflowInstance` hands to the backend, or the
      conversion error that stops it first. */
  function StartMessage(
    options: WorkflowInstanceOptions, workflowName: string, inputs: Result<seq<Payload>, string>,
    now: Timestamp, executionID: string): (r: Result<WorkflowEvent, ClientError>)
    ensures inputs.Failure? <==> r.Failure?
    ensures inputs.Failure? ==> r.error == ArgumentsNotConverted(inputs.error)
    ensures inputs.Success? ==>
              && r.value.instance == WorkflowInstance(options.instanceID, executionID)
              && r.value.event.timestamp == now
              && r.value.event.attributes == ExecutionStarted(workflowName, inputs.value)
  {
    match inputs
    case Failure(cause) => Failure(ArgumentsNotConverted(cause))
    case Success(payloads) =>
      var startedEvent := HistoryEvent(now, ExecutionStarted(workflowName, payloads));
      Success(WorkflowEvent(WorkflowInstance(options.instanceID, executionID), startedEvent))
  }

  /** Creating an instance: convert the arguments, build the start message,
      and let the backend store it. `backendCreate` is the backend's answer to
      a given message (`None` for success). */
  function CreateWorkflowInstance(
    options: WorkflowInstanceOptions, workflowName: string, inputs: Result<seq<Payload>, string>,
    now: Timestamp, executionID: string, backendCreate: WorkflowEvent -> Option<string>)
    : (r: Result<WorkflowInstance, ClientError>)
    ensures inputs.Failure? ==> r == Failure(ArgumentsNotConverted(inputs.error))
    ensures inputs.Success? ==>
              var message := WorkflowEvent(WorkflowInstance(options.instanceID, executionID),
                                           HistoryEvent(now, ExecutionStarted(workflowName, inputs.value)));
              && (backendCreate(message).Some? ==> r == Failure(InstanceNotCreated(backendCreate(message).value)))
              && (backendCreate(message).None? ==> r == Success(message.instance))
  {
    match StartMessage(options, workflowName, inputs, now, executionID)
    case Failure(e) => Failure(e)
    case Success(message) =>
      match backendCreate(message)
      case Some(cause) => Failure(InstanceNotCreated(cause))
      case None => Success(message.instance)
  }

  // ---------------------------------------------------------------------------
  // Signalling an instance

  /** The signal event `SignalWorkflow` hands to the backend, or the
      conversion error that stops it first. */
  function SignalEvent(name: string, arg: Result<Payload, string>, now: Timestamp)
    : (r: Result<HistoryEvent, ClientError>)
    ensures arg.Failure? <==> r.Failure?
    ensures arg.Failure? ==> r.error == ArgumentsNotConverted(arg.error)
    ensures arg.Success? ==> r.value.timestamp == now && r.value.attributes == SignalReceived(name, arg.value)
  {
    match arg
    case Failure(cause) => Failure(ArgumentsNotConverted(cause))
    case Success(input) => Success(HistoryEvent(now, SignalReceived(name, input)))
  }

  /** Signalling: convert the argument, build the event, and pass the
      backend's own error (unwrapped) back to the caller. */
  function SignalWorkflow(
    instanceID: string, name: string, arg: Result<Payload, string>, now: Timestamp,
    backendSignal: (string, HistoryEvent) -> Option<string>): (r: Option<ClientError>)
    ensures arg.Failure? ==> r == Some(ArgumentsNotConverted(arg.error))
    ensures arg.Success? ==>
              var event := HistoryEvent(now, SignalReceived(name, arg.value));
              && (backendSignal(instanceID, event).Some? ==> r == Some(BackendFailed(backendSignal(instanceID, event).value)))
              && (backendSignal(instanceID, event).None? ==> r == None)
  {
    match SignalEvent(name, arg, now)
    case Failure(e) => Some(e)
    case Success(event) =>
      match backendSignal(instanceID, event)
      case Some(cause) => Some(BackendFailed(cause))
      case None => None
  }

  // ---------------------------------------------------------------------------
  // Reading the result

  /** What a single history event decides when the backward scan reaches it,
      or `None` when the scan moves past it. */
  function EventOutcome<T>(e: HistoryEvent, decode: Payload -> Result<T, string>, zero: T)
    : (r: Option<(T, Option<ClientError>)>)
    ensures r.Some? <==> IsTerminal(e)
    ensures r.Some? && r.value.1.Some? ==> r.value.0 == zero
  {
    match e.attributes
    case ExecutionFinished(result, error) =>
      if error != "" then Some((zero, Some(WorkflowFailed(error))))
      else (match decode(result)
            case Failure(cause) => Some((zero, Some(ResultNotConverted(cause))))
            case Success(value) => Some((value, None)))
    case ExecutionCanceled => Some((zero, Some(WorkflowCanceled)))
    case ExecutionTerminated => Some((zero, Some(WorkflowTerminated)))
    case _ => None
  }

  /** The backward scan over a history, newest event first. */
  function ScanResult<T>(h: seq<HistoryEvent>, decode: Payload -> Result<T, string>, zero: T)
    : (r: (T, Option<ClientError>))
    ensures r.1.Some? ==> r.0 == zero
    decreases |h|
  {
    if |h| == 0 then (zero, Some(ResultEventNotFound))
    else
      match EventOutcome(h[|h| - 1], decode, zero)
      case Some(outcome) => outcome
      case None => ScanResult(h[..|h| - 1], decode, zero)
  }

  /** `GetWorkflowResult`, after the wait and the history read. `waitError` is
      the error of waiting for the instance (its timeout normalised by
      `WaitTimeout`), `history` the backend's history read. */
  method GetWorkflowResult<T>(
    zero: T, waitError: Option<string>, history: Result<seq<HistoryEvent>, string>,
    decode: Payload -> Result<T, string>) returns (value: T, err: Option<ClientError>)
    ensures err.Some? ==> value == zero
    ensures waitError.Some? ==> err == Some(DidNotFinishInTime(waitError.value))
    ensures waitError.None? && history.Failure? ==> err == Some(HistoryNotRead(history.error))
    ensures waitError.None? && history.Success? ==> (value, err) == ScanResult(history.value, decode, zero)
  {
    if waitError.Some? {
      return zero, Some(DidNotFinishInTime(waitError.value));
    }
    if history.Failure? {
      return zero, Some(HistoryNotRead(history.error));
    }
    var h := history.value;
    var i: int := |h| - 1;
    assert h[..i + 1] == h;
    while i >= 0
      invariant -1 <= i < |h|
      invariant ScanResult(h, decode, zero) == ScanResult(h[..i + 1], decode, zero)
      decreases i
    {
      var event := h[i];
      assert h[..i + 1][..i] == h[..i];
      match event.attributes {
        case ExecutionFinished(result, error) =>
          if error != "" {
            return zero, Some(WorkflowFailed(error));
          }
          var decoded := decode(result);
          if decoded.Failure? {
            return zero, Some(ResultNotConverted(decoded.error));
          }
          return decoded.value, None;
        case ExecutionCanceled =>
          return zero, Some(WorkflowCanceled);
        case ExecutionTerminated =>
          return zero, Some(WorkflowTerminated);
        case _ =>
      }
      i := i - 1;
    }
    return zero, Some(ResultEventNotFound);
  }

  /** The most recent terminal event decides the outcome, and what it decides
      depends on its kind. */
  lemma {:induction false} LatestTerminalDecides<T>(
    before: seq<HistoryEvent>, e: HistoryEvent, after: seq<HistoryEvent>,
    decode: Payload -> Result<T, string>, zero: T)
    requires IsTerminal(e) && NoTerminal(after)
    ensures var r := ScanResult(before + [e] + after, decode, zero);
            var a := e.attributes;
            && (a.ExecutionFinished? && a.error != "" ==> r == (zero, Some(WorkflowFailed(a.error))))
            && (a.ExecutionFinished? && a.error == "" && decode(a.result).Success? ==>
                  r == (decode(a.result).value, None))
            && (a.ExecutionFinished? && a.error == "" && decode(a.result).Failure? ==>
                  r == (zero, Some(ResultNotConverted(decode(a.result).error))))
            && (a.ExecutionCanceled? ==> r == (zero, Some(WorkflowCanceled)))
            && (a.ExecutionTerminated? ==> r == (zero, Some(WorkflowTerminated)))
    decreases |after|
  {
    var h := before + [e] + after;
    if after == [] {
      assert h[|h| - 1] == e;
    } else {
      var shorter := after[..|after| - 1];
      assert h[|h| - 1] == after[|after| - 1];
      assert h[..|h| - 1] == before + [e] + shorter;
      assert NoTerminal(shorter) by {
        forall j | 0 <= j < |shorter| ensures !IsTerminal(shorter[j]) {
          assert shorter[j] == after[j];
        }
      }
      LatestTerminalDecides(before, e, shorter, decode, zero);
    }
  }

  /** A history without a terminal event, the empty one included, has no result. */
  lemma {:induction false} NoTerminalNoResult<T>(h: seq<HistoryEvent>, decode: Payload -> Result<T, string>, zero: T)
    requires NoTerminal(h)
    ensures ScanResult(h, decode, zero) == (zero, Some(ResultEventNotFound))
    decreases |h|
  {
    if h != [] {
      var shorter := h[..|h| - 1];
      assert NoTerminal(shorter) by {
        forall j | 0 <= j < |shorter| ensures !IsTerminal(shorter[j]) {
          assert shorter[j] == h[j];
        }
      }
      NoTerminalNoResult(shorter, decode, zero);
    }
  }

  /** Events before a terminal event are never looked at. */
  lemma {:induction false} EarlierHistoryIgnored<T>(
    before: seq<HistoryEvent>, after: seq<HistoryEvent>, decode: Payload -> Result<T, string>, zero: T)
    requires !NoTerminal(after)
    ensures ScanResult(before + after, decode, zero) == ScanResult(after, decode, zero)
    decreases |after|
  {
    var h := before + after;
    var last := after[|after| - 1];
    assert h[|h| - 1] == last;
    if !IsTerminal(last) {
      var shorter := after[..|after| - 1];
      assert h[..|h| - 1] == before + shorter;
      assert !NoTerminal(shorter) by {
        var j :| 0 <= j < |after| && IsTerminal(after[j]);
        assert j < |after| - 1;
        assert shorter[j] == after[j];
      }
      EarlierHistoryIgnored(before, shorter, decode, zero);
    }
  }

  /** A non-terminal event, wherever it stands, does not change the outcome. */
  lemma {:induction false} NonTerminalIgnored<T>(
    before: seq<HistoryEvent>, e: HistoryEvent, after: seq<HistoryEvent>,
    decode: Payload -> Result<T, string>, zero: T)
    requires !IsTerminal(e)
    ensures ScanResult(before + [e] + after, decode, zero) == ScanResult(before + after, decode, zero)
    decreases |after|
  {
    var h, g := before + [e] + after, before + after;
    if after == [] {
      assert h[..|h| - 1] == g;
    } else {
      var shorter := after[..|after| - 1];
      assert h[|h| - 1] == g[|g| - 1] == after[|after| - 1];
      assert h[..|h| - 1] == before + [e] + shorter;
      assert g[..|g| - 1] == before + shorter;
      NonTerminalIgnored(before, e, shorter, decode, zero);
    }
  }

  /** Appending a start or signal event the client built to a history leaves
      the result read from it unchanged. */
  lemma ClientEventsLeaveResultUnchanged<T>(
    h: seq<HistoryEvent>, name: string, arg: Result<Payload, string>, now: Timestamp,
    decode: Payload -> Result<T, string>, zero: T,
    options: WorkflowInstanceOptions, inputs: Result<seq<Payload>, string>, executionID: string)
    ensures SignalEvent(name, arg, now).Success? ==>
              ScanResult(h + [SignalEvent(name, arg, now).value], decode, zero) == ScanResult(h, decode, zero)
    ensures StartMessage(options, name, inputs, now, executionID).Success? ==>
              var started := StartMessage(options, name, inputs, now, executionID).value.event;
              ScanResult(h + [started], decode, zero) == ScanResult(h, decode, zero)
  {
    if SignalEvent(name, arg, now).Success? {
      var e := SignalEvent(name, arg, now).value;
      NonTerminalIgnored(h, e, [], decode, zero);
      assert h + [e] + [] == h + [e] && h + [] == h;
    }
    if StartMessage(options, name, inputs, now, executionID).Success? {
      var e := StartMessage(options, name, inputs, now, executionID).value.event;
      NonTerminalIgnored(h, e, [], decode, zero);
      assert h + [e] + [] == h + [e] && h + [] == h;
    }
  }
}

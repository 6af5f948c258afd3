/** The provider-neutral values the run pipeline passes between its parts. */
module ModelTypes {
  import opened Text

  datatype Option<+T> = None | Some(value: T)

  /** Why an operation returned without a value.
      `Unfinished` is not an error of the program: it says that the observed part of an
      environment ended while the execution was still going on. */
  datatype Fault = StorageFailed | InvalidValue | InvalidStart | Unfinished

  datatype Result<+T> = Ok(value: T) | Err(fault: Fault) {
    predicate IsFailure() { Err? }

    function PropagateFailure<U>(): Result<U>
      requires Err?
    {
      Err(fault)
    }

    function Extract(): T
      requires Ok?
    {
      value
    }
  }

  datatype Role = System | User | Assistant | Tool | Notice

  type CallId = nat

  datatype ToolCall = ToolCall(callId: CallId, name: string, argumentsJson: string)

  /** One model-context message. No tool calls is the empty sequence: the constructor of an
      assistant tool-call message refuses an empty list, so the two cannot be confused. */
  datatype ModelMessage = ModelMessage(
    role: Role,
    content: string,
    toolCalls: seq<ToolCall>,
    toolCallId: Option<CallId>,
    cacheControl: bool)

  function NewMessage(role: Role, content: string): Result<ModelMessage> {
    if IsBlank(content) || role == Tool then Err(InvalidValue)
    else Ok(ModelMessage(role, content, [], None, false))
  }

  function AssistantToolCalls(calls: seq<ToolCall>): Result<ModelMessage> {
    if calls == [] then Err(InvalidValue)
    else Ok(ModelMessage(Assistant, "", calls, None, false))
  }

  function ToolResult(callId: CallId, content: string): Result<ModelMessage> {
    if IsBlank(content) then Err(InvalidValue)
    else Ok(ModelMessage(Tool, content, [], Some(callId), false))
  }

  /** The reasoning of one provider round, attached to the tool calls of that round. */
  datatype AssistantReasoning = AssistantReasoning(toolCallIds: seq<CallId>, text: string)

  datatype FinishReason = Stop | Length | ToolCalls | ContentFilter | Error | Unknown

  datatype Usage = NotReported | Reported(inputTokens: nat, outputTokens: nat, totalTokens: nat)

  datatype ModelEvent =
    | Started
    | TextDelta(content: string)
    | ReasoningDelta(content: string)
    | ToolCallReady(call: ToolCall)
    | UsageReport(usage: Usage)
    | Finished(reason: FinishReason)

  /** The order rules of one normalized stream (`ModelStreamLifecycleDto`). */
  datatype Lifecycle = Lifecycle(started: bool, terminal: bool, usageSeen: bool) {

    predicate Accepts(event: ModelEvent) {
      match event
      case Started => !started && !terminal
      case UsageReport(_) => started && !terminal && !usageSeen
      case _ => started && !terminal
    }

    function After(event: ModelEvent): Lifecycle {
      match event
      case Started => this.(started := true)
      case Finished(_) => this.(terminal := true)
      case UsageReport(_) => this.(usageSeen := true)
      case _ => this
    }
  }

  const FRESH_LIFECYCLE := Lifecycle(false, false, false)

  /** The rules a stream is left under; `None` when they rejected an event of it. */
  function LifecycleOf(events: seq<ModelEvent>): Option<Lifecycle> {
    if events == [] then Some(FRESH_LIFECYCLE)
    else
      var before := LifecycleOf(events[..|events| - 1]);
      if before.Some? && before.value.Accepts(events[|events| - 1]) then Some(before.value.After(events[|events| - 1]))
      else None
  }

  /** A stream in order: it starts once and at its beginning, ends at most once and last, and reports
      usage at most once. */
  predicate InStreamOrder(events: seq<ModelEvent>) {
    && (forall i :: 0 <= i < |events| ==> (events[i].Started? <==> i == 0))
    && (forall i :: 0 <= i < |events| && events[i].Finished? ==> i == |events| - 1)
    && (forall i, j :: 0 <= i < j < |events| && events[i].UsageReport? ==> !events[j].UsageReport?)
  }

  /** The order rules accept exactly the streams in order, and remember what they saw. */
  lemma {:induction false} AcceptedIffInOrder(events: seq<ModelEvent>)
    ensures LifecycleOf(events).Some? <==> InStreamOrder(events)
    ensures LifecycleOf(events).Some? ==>
              LifecycleOf(events).value == Lifecycle(events != [],
                                                     events != [] && events[|events| - 1].Finished?,
                                                     exists i :: 0 <= i < |events| && events[i].UsageReport?)
  {
    if events == [] {
    } else {
      var before, last := events[..|events| - 1], events[|events| - 1];
      AcceptedIffInOrder(before);
      assert events == before + [last];
      if InStreamOrder(events) {
        assert InStreamOrder(before);
      }
      if before != [] && before[|before| - 1].Finished? {
        assert events[|before| - 1].Finished?;
      }
    }
  }
}

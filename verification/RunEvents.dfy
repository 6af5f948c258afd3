/** What a run asks of the world around it, and what happens during a run. */
module RunEvents {
  import opened ModelTypes
  import opened RunStatus

  // ------------------------------------------------------------- environment

  /** What the host did to the run's cancellation handle since the executor last looked at it. */
  datatype Signal = Quiet | Cancel | Stop

  /** What ended one wait for the provider stream, when it was not the cancellation. */
  datatype Poll = Item(event: ModelEvent) | ItemError(retryable: bool) | StreamEnded | IdleTimeout

  datatype ToolOutcome =
    | ToolCompleted(content: string)
    | ToolPartial(content: string)
    | ToolCancelled(content: string)
    | ToolFailed(content: string)

  /** The tool port commits the call row and the result row itself; a port that breaks may have
      committed none, one or both of them. */
  datatype PortReply = Replied(outcome: ToolOutcome) | Broke(rows: nat)

  /** Everything outside the executor: what it sees at its n-th look at the cancellation handle,
      hears from its n-th wait for the provider, gets as the tool port's n-th reply, finds as the
      n-th batch of pending turns, and whether its n-th durable write fails. The horizon only says
      how much of a run is observed: every finite part of every run is one environment. */
  datatype Environment = Environment(
    signal: nat -> Signal,
    poll: nat -> Poll,
    port: nat -> PortReply,
    turns: nat -> seq<string>,
    storageFails: nat -> bool,
    horizon: nat)

  // ------------------------------------------------------------------ history

  const INTERRUPT_NOTICE: string := "[The call was stopped before a final result.]"
  const INTERRUPTED_MARKER: string := "[interrupted]"
  const RUN_STOP_NOTICE: string := "[The run was stopped before a final answer.]"

  /** What a cut answer carries behind its text: the marker on a line of its own. */
  const CUT_SUFFIX: string := "\n" + INTERRUPTED_MARKER

  datatype RowKind = UserRow | AssistantRow | ToolCallRow | ToolResultRow | NoticeRow

  /** One committed transcript row. `cut` says that the row was committed by the interrupted-step
      path, which wrote the marker behind the model's own text. */
  datatype Row = Row(kind: RowKind, text: string, reasoning: Option<string>, callId: Option<CallId>, cut: bool)

  const NOTICE_ROW := Row(NoticeRow, INTERRUPT_NOTICE, None, None, false)
  const STOP_ROW := Row(NoticeRow, RUN_STOP_NOTICE, None, None, false)

  /** One happening of a run: what the executor did, what it was told, what it or the tool port
      committed, and what it saw of the host. A batch of pending turns is one transaction. */
  datatype Happening =
    | AttemptBegan
    | Requested(step: nat, messages: seq<ModelMessage>, reasoning: seq<AssistantReasoning>)
    | Heard(poll: Poll)
    | RoundCancelled
    | RoundFailedWith(retryable: bool)
    | RoundCalled(calls: seq<ToolCall>)
    | Dispatched(call: ToolCall)
    | PortAnswered(reply: PortReply)
    | Answered(callId: CallId, content: string)
    | TurnsJoined(turns: seq<string>)
    | Appended(row: Row)
    | StatusWritten(status: Status, usage: Option<Usage>)
    | Signalled(signal: Signal)
    | SignalCleared
    | Stopping

  datatype History = Beginning | After(past: History, latest: Happening)
}

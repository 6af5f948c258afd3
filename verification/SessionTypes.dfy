/** The committed values and transient frames a session stream carries. */
module SessionTypes {
  import opened ModelTypes
  import opened RunStatus

  type SessionId = nat
  type RunId = nat
  type MessageId = nat

  datatype MessageKind = UserMessage | AssistantMessage | ToolCallMessage | ToolResultMessage | NoticeMessage

  /** A committed transcript row under its durable identity. */
  datatype MessageRow = MessageRow(id: MessageId, session: SessionId, kind: MessageKind, text: string)

  datatype RunProjection = RunProjection(session: SessionId, runId: RunId, status: Status, openCalls: nat)

  datatype Channel = ReasoningChannel | AnswerChannel

  datatype TextDelta = TextDelta(session: SessionId, runId: RunId, step: nat, channel: Channel, text: string)

  datatype SessionFrame = Content(row: MessageRow) | RunStatusFrame(run: RunProjection) | Delta(delta: TextDelta)
}

/** The AG-UI 1.0 events, decoded, and the thread messages they carry. */
module Events {
  import opened Prelude
  import opened JsonDocument

  datatype EventType =
    | RunStarted | RunFinished | RunError | StepStarted | StepFinished
    | TextMessageStart | TextMessageContent | TextMessageEnd | TextMessageChunk
    | ToolCallStart | ToolCallArgs | ToolCallEnd | ToolCallChunk | ToolCallResult
    | StateSnapshot | StateDelta | MessagesSnapshot | ActivitySnapshot | ActivityDelta
    | ReasoningStart | ReasoningEnd
    | ReasoningMessageStart | ReasoningMessageContent | ReasoningMessageEnd | ReasoningMessageChunk
    | ReasoningEncryptedValue | SubagentStarted | SubagentFinished | SubagentError | Raw | Custom

  /** Message content: absent, a string, a list of parts, or something else. */
  datatype Content = NoContent | Text(text: string) | Parts(parts: seq<Part>) | OtherContent
  datatype Part = Part(typ: string, text: string)

  datatype MessageToolCall = MessageToolCall(id: string, name: string, arguments: string, encryptedValue: string)

  datatype Message = Message(
    id: string, role: string, content: Content, name: string, toolCalls: seq<MessageToolCall>,
    toolCallId: string, error: string, encryptedValue: string)

  datatype Interrupt = Interrupt(id: string, reason: string, message: string, toolCallId: string)

  datatype OutcomeType = Success | Interrupted | Cancelled

  /** Why a run ended; pending is None when the agent did not send the list. */
  datatype Outcome = Outcome(typ: OutcomeType, pending: Option<seq<string>>, interrupts: seq<Interrupt>)

  /** A flat union of every event type's fields. An absent string field is "". `delta` is the text of a
      streaming event, `patch` the operations of a STATE_DELTA (None when they do not decode). */
  datatype Event = Event(
    typ: EventType, threadId: string, runId: string, outcome: Option<Outcome>, hasResult: bool,
    stepName: string, messageId: string, role: string, name: string, delta: Option<string>,
    toolCallId: string, toolCallName: string, parentMessageId: string, content: Content,
    snapshot: Option<Json>, patch: Option<seq<PatchOp>>, messages: seq<Message>,
    subtype: string, entityId: string, encryptedValue: string,
    chunked: bool)

  /** An event of the given type with no other field set. */
  function Blank(typ: EventType): Event {
    Event(typ, "", "", None, false, "", "", "", "", None, "", "", "", NoContent, None, None, [], "", "", "", false)
  }

  predicate IsChunk(e: Event) {
    e.typ.TextMessageChunk? || e.typ.ToolCallChunk? || e.typ.ReasoningMessageChunk?
  }

  function DeltaText(e: Event): string { if e.delta.Some? then e.delta.value else "" }

  /** The text parts joined by newlines. */
  function PartsText(parts: seq<Part>): string {
    var texts := Filter((p: Part) => p.typ == "text", parts);
    JoinTexts(Map((p: Part) => p.text, texts))
  }

  function JoinTexts(texts: seq<string>): string {
    if texts == [] then "" else if |texts| == 1 then texts[0] else texts[0] + "\n" + JoinTexts(texts[1..])
  }

  function ContentText(c: Content): string {
    match c case Text(t) => t case Parts(ps) => PartsText(ps) case _ => ""
  }
}

/**
 * What the stream accumulator of internal/genai/genai.go receives: decoded events of the Chat,
 * native and Responses protocols. JSON text is left out; a payload arrives classified.
 */
module StreamEvents {
  import opened Bytes
  import opened LimitedText

  const GENERIC_ERROR: Bytes := "upstream reported an error"

  datatype Call = Call(name: Bytes, arguments: Bytes)

  datatype ToolPart = ToolPart(index: Option<int>, id: Bytes, toolType: Bytes, function_: Option<Call>)

  datatype Delta = Delta(
    content: Bytes, reasoning: Bytes, reasoningContent: Bytes, refusal: Bytes,
    toolCalls: seq<ToolPart>, functionCall: Option<Call>)

  datatype Choice = Choice(index: Option<int>, text: Bytes, finishReason: Option<Bytes>, delta: Option<Delta>)

  /** `error` is the message of an error that is neither absent nor null. */
  datatype Part = Part(partType: Bytes, text: Bytes, refusal: Bytes, status: Bytes, error: Option<Bytes>)

  /** `arguments` is the first non-empty of the item's argument-like fields. */
  datatype Item = Item(
    id: Bytes, callID: Bytes, itemType: Bytes, name: Bytes, status: Bytes, arguments: Bytes,
    error: Option<Bytes>, content: seq<Part>, summary: seq<Part>)

  /** The fields that decide whether a payload ends the stream, and how. */
  datatype Envelope = Envelope(
    eventType: Bytes, stop: bool, error: Option<Bytes>, message: Bytes, code: Bytes,
    response: Option<ResponseObject>)

  datatype ResponseObject = ResponseObject(output: seq<Item>, error: Option<Bytes>)

  datatype Indexes = Indexes(output: Option<int>, content: Option<int>, summary: Option<int>, command: Option<int>)

  /** `delta`, `content` and `codeText` are "" when the field is not a JSON string. */
  datatype Event = Event(
    envelope: Envelope, delta: Bytes, content: Bytes, reasoning: Bytes, reasoningContent: Bytes,
    refusal: Bytes, text: Bytes, arguments: Bytes, input: Bytes, name: Bytes, status: Bytes,
    codeText: Bytes, command: Bytes, itemID: Bytes, indexes: Indexes, stopType: Bytes,
    choices: seq<Choice>, item: Option<Item>, part: Option<Part>)

  /**
   * A payload of the stream. `event` is None when the text is JSON but does not fit the event
   * type; `envelopeOK` and `responseOK` say whether it fits the two smaller types that
   * decodeStreamTerminal and ParseResponse read it as.
   */
  datatype Payload =
    | NotJSON
    | JSON(envelope: Envelope, event: Option<Event>, envelopeOK: bool, responseOK: bool)

  predicate WellFormedPayload(p: Payload) {
    p.JSON? && p.event.Some? ==> p.event.value.envelope == p.envelope
  }

  /** The event types that observeResponses tells apart. */
  datatype EventKind =
    | TextDelta | RefusalDelta | ReasoningDelta | SummaryDelta
    | FunctionDelta | CustomToolDelta | MCPDelta | CodeDelta
    | ShellCommand | ShellDelta
    | TextDone | RefusalDone | ReasoningDone | SummaryDone
    | FunctionDone | CustomToolDone | MCPDone | CodeDone
    | ItemAdded | ItemDone | PartAdded | PartDone | SummaryPartAdded | SummaryPartDone
    | OtherEvent

  function EventKindOf(t: Bytes): EventKind {
    var delta, done := DeltaKindOf(t), DoneKindOf(t);
    if !delta.OtherEvent? then delta else if !done.OtherEvent? then done else ItemKindOf(t)
  }

  function DeltaKindOf(t: Bytes): (kind: EventKind)
    ensures IsDeltaKind(kind) || kind.OtherEvent?
  {
    var text, tool := TextDeltaKindOf(t), ToolDeltaKindOf(t);
    if !text.OtherEvent? then text else if !tool.OtherEvent? then tool else CommandKindOf(t)
  }

  function TextDeltaKindOf(t: Bytes): (kind: EventKind)
    ensures IsDeltaKind(kind) || kind.OtherEvent?
  {
    if t == "response.output_text.delta" || t == "response.text.delta" then TextDelta
    else if t == "response.refusal.delta" then RefusalDelta
    else if t == "response.reasoning_text.delta" then ReasoningDelta
    else if t == "response.reasoning_summary_text.delta" then SummaryDelta
    else OtherEvent
  }

  function ToolDeltaKindOf(t: Bytes): (kind: EventKind)
    ensures IsDeltaKind(kind) || kind.OtherEvent?
  {
    if t == "response.function_call_arguments.delta" then FunctionDelta
    else if t == "response.custom_tool_call_input.delta" then CustomToolDelta
    else if t == "response.mcp_call_arguments.delta" then MCPDelta
    else if t == "response.code_interpreter_call_code.delta" then CodeDelta
    else OtherEvent
  }

  function CommandKindOf(t: Bytes): (kind: EventKind)
    ensures IsDeltaKind(kind) || kind.OtherEvent?
  {
    if t == "response.shell_call_command.added" || t == "response.shell_call_command.done" then ShellCommand
    else if t == "response.shell_call_command.delta" then ShellDelta
    else OtherEvent
  }

  function DoneKindOf(t: Bytes): (kind: EventKind)
    ensures IsDoneKind(kind) || kind.OtherEvent?
  {
    var kind := TextDoneKindOf(t);
    if !kind.OtherEvent? then kind else ToolDoneKindOf(t)
  }

  function TextDoneKindOf(t: Bytes): (kind: EventKind)
    ensures IsDoneKind(kind) || kind.OtherEvent?
  {
    if t == "response.output_text.done" || t == "response.text.done" then TextDone
    else if t == "response.refusal.done" then RefusalDone
    else if t == "response.reasoning_text.done" then ReasoningDone
    else if t == "response.reasoning_summary_text.done" then SummaryDone
    else OtherEvent
  }

  function ToolDoneKindOf(t: Bytes): (kind: EventKind)
    ensures IsDoneKind(kind) || kind.OtherEvent?
  {
    if t == "response.function_call_arguments.done" then FunctionDone
    else if t == "response.custom_tool_call_input.done" then CustomToolDone
    else if t == "response.mcp_call_arguments.done" then MCPDone
    else if t == "response.code_interpreter_call_code.done" then CodeDone
    else OtherEvent
  }

  function ItemKindOf(t: Bytes): (kind: EventKind)
    ensures IsPartKind(kind) || kind.ItemDone? || kind.OtherEvent?
  {
    if t == "response.output_item.added" then ItemAdded
    else if t == "response.output_item.done" then ItemDone
    else if t == "response.content_part.added" then PartAdded
    else if t == "response.content_part.done" then PartDone
    else if t == "response.reasoning_summary_part.added" then SummaryPartAdded
    else if t == "response.reasoning_summary_part.done" then SummaryPartDone
    else OtherEvent
  }

  /** The types whose events append to a part, or change a command. */
  predicate IsDeltaKind(kind: EventKind) {
    || kind.TextDelta? || kind.RefusalDelta? || kind.ReasoningDelta? || kind.SummaryDelta?
    || kind.FunctionDelta? || kind.CustomToolDelta? || kind.MCPDelta? || kind.CodeDelta?
    || kind.ShellCommand? || kind.ShellDelta?
  }

  /** The types whose events set a text of a part. */
  predicate IsDoneKind(kind: EventKind) {
    || kind.TextDone? || kind.RefusalDone? || kind.ReasoningDone? || kind.SummaryDone?
    || kind.FunctionDone? || kind.CustomToolDone? || kind.MCPDone? || kind.CodeDone?
  }

  /** The types whose events bring whole parts. */
  predicate IsPartKind(kind: EventKind) {
    kind.ItemAdded? || kind.PartAdded? || kind.PartDone? || kind.SummaryPartAdded? || kind.SummaryPartDone?
  }

  function Index(value: Option<int>, fallback: int): int {
    if value.Some? && value.value >= 0 then value.value else fallback
  }

  /** streamStatus: whether the item is complete, whether it failed, and the error message. */
  function Status(status: Bytes, error: Option<Bytes>): (bool, bool, Bytes) {
    if error.Some? then (false, true, error.value)
    else if status == "failed" || status == "error" then (false, true, GENERIC_ERROR)
    else if Unfinished(status) || status == "in_progress" || status == "queued" then (false, false, "")
    else (true, false, "")
  }

  predicate Unfinished(status: Bytes) {
    status == "incomplete" || status == "cancelled" || status == "canceled"
  }

  /** streamToolLifecycle: the tool type and status that a "response.<type>_call.<status>" event reports. */
  function ToolLifecycle(eventType: Bytes): Option<(Bytes, Bytes)> {
    if !HasPrefix(eventType, "response.") then None
    else
      var name := eventType[|"response."|..];
      var completed := LifecycleOf(name, "completed");
      var failed := LifecycleOf(name, "failed");
      if completed.Some? then completed else if failed.Some? then failed else LifecycleOf(name, "incomplete")
  }

  function LifecycleOf(name: Bytes, status: Bytes): Option<(Bytes, Bytes)> {
    if !HasSuffix(name, "." + status) then None
    else
      var toolType := name[..|name| - |status| - 1];
      if HasSuffix(toolType, "_call") then Some((toolType, status)) else None
  }

  /** streamEventFailed */
  predicate EventFailed(e: Envelope) {
    e.eventType == "response.failed" || e.eventType == "error" || (e.eventType == "" && e.error.Some?)
  }

  /** The event types that end a stream, the stop of a native answer, and an error with no type. */
  predicate EndsStream(e: Envelope) {
    || e.eventType == "response.completed" || e.eventType == "response.incomplete"
    || e.eventType == "response.failed" || e.eventType == "error"
    || e.stop || (e.eventType == "" && e.error.Some?)
  }

  /** streamEventErrorMessage, and streamEnvelopeErrorMessage on the same fields */
  function EventErrorMessage(e: Envelope): Bytes {
    if e.message != "" then Truncate(e.message)
    else if e.error.Some? then e.error.value
    else if e.response.Some? && e.response.value.error.Some? then e.response.value.error.value
    else if e.code != "" then e.code
    else GENERIC_ERROR
  }

  datatype Terminal = NotTerminal | Terminal(incomplete: bool, failed: bool, message: Bytes)

  /** decodeStreamTerminal: what a payload that is no event still says about the end of the stream. */
  function DecodeTerminal(p: Payload): Terminal {
    if p.NotJSON? || !p.envelopeOK then NotTerminal
    else
      var e := p.envelope;
      if e.eventType == "response.completed" then Terminal(false, false, "")
      else if e.eventType == "response.incomplete" then Terminal(true, false, "")
      else if e.eventType == "response.failed" || e.eventType == "error" then
        Terminal(false, true, EventErrorMessage(e))
      else if e.stop then Terminal(false, false, "")
      else if e.eventType == "" && e.error.Some? then Terminal(false, true, EventErrorMessage(e))
      else NotTerminal
  }

  /** The parts of ParseResponse's result that decide the outcome. */
  datatype Response = Response(terminal: bool, incomplete: bool, failed: bool)

  function ParseResponse(p: Payload): Option<Response> {
    if p.NotJSON? || !p.responseOK then None
    else
      var e := p.envelope;
      var nested := e.response.Some? && e.response.value.error.Some?;
      var typeTerminal := e.eventType == "response.completed" || e.eventType == "response.failed"
        || e.eventType == "response.incomplete" || e.eventType == "error" || e.stop;
      Some(Response(
        typeTerminal || e.error.Some? || nested,
        e.eventType == "response.incomplete",
        e.error.Some? || nested || e.eventType == "response.failed" || e.eventType == "error"))
  }
}

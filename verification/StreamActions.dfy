/**
 * What each event asks of the accumulator: the observeChat, observeNative and observeResponses
 * methods of internal/genai/genai.go read an event and call state, finishChoice,
 * markResponseOutputStatus and finishResponseOutput. The calls depend on the event only, save
 * that a choice that has finished is skipped.
 */
module StreamActions {
  import opened Bytes
  import opened StreamEvents
  import opened StreamParts

  datatype Action =
    /** Get or create the part and edit it. */
    | Update(key: Key, edits: seq<Edit>)
    /** Get or create a tool part, edit it, and change one of its shell commands. */
    | UpdateShell(outputIndex: int, edits: seq<Edit>, commandIndex: int, command: Bytes, authoritative: bool)
    /** Edit the part if it is live. */
    | Revise(key: Key, edits: seq<Edit>)
    | SetChoiceReason(source: Source, index: int, reason: Bytes)
    | FinishChoice(source: Source, index: int, reason: Bytes)
    | MarkOutput(outputIndex: int, status: Bytes, error: Option<Bytes>)
    | FinishOutput(outputIndex: int, verdict: Verdict)

  function ChatKey(kind: Kind, choiceIndex: int, toolIndex: int): Key {
    Key(Chat, kind, choiceIndex, -1, -1, toolIndex)
  }

  function NativeKey(kind: Kind): Key {
    Key(Native, kind, 0, -1, -1, -1)
  }

  function ResponsesKey(kind: Kind, outputIndex: int, contentIndex: int): Key {
    Key(Responses, kind, -1, outputIndex, contentIndex, -1)
  }

  function ToolKey(outputIndex: int): Key {
    ResponsesKey(ToolCall, outputIndex, -1)
  }

  function SummaryKey(outputIndex: int, summaryIndex: int): Key {
    ResponsesKey(Reasoning, outputIndex, -2 - summaryIndex)
  }

  /** The indexes that the outputs of a part are labelled with. */
  function LabelsOf(key: Key): Labels {
    match key.source
    case Chat => Labels(Some(key.choiceIndex), None, None, if key.kind == ToolCall then Some(key.toolIndex) else None)
    case Native => Labels(None, None, None, None)
    case Responses =>
      Labels(None, Some(key.outputIndex),
        if key.kind == ToolCall then None
        else if key.contentIndex >= 0 then Some(key.contentIndex)
        else Some(-2 - key.contentIndex), None)
  }

  /** A text that is not empty is appended to its part. */
  function Tell(to: Key, field: Field, s: Bytes, at: int): seq<Action> {
    if s == "" then [] else [Update(to, [Touch(at), AppendTo(field, s)])]
  }

  /** The reasoning of a delta; the longer field name wins. */
  function PreferredReasoning(reasoningContent: Bytes, reasoning: Bytes): Bytes {
    if reasoningContent == "" then reasoning else reasoningContent
  }

  // ---------- Chat ----------

  function UpdateChat(kind: Kind, choiceIndex: int, edits: seq<Edit>): Action {
    Update(ChatKey(kind, choiceIndex, -1), edits)
  }

  function UpdateChatTool(choiceIndex: int, toolIndex: int, edits: seq<Edit>): Action {
    Update(ChatKey(ToolCall, choiceIndex, toolIndex), edits)
  }

  function ToolEdits(tool: ToolPart, at: int): seq<Edit> {
    var call := tool.function_.GetOr(Call("", ""));
    if tool.id == "" && tool.toolType == "" && call.name == "" && call.arguments == "" then []
    else [Touch(at), Replace(ToolIDText, tool.id), Replace(ToolTypeText, tool.toolType),
          AppendTo(NameText, call.name), AppendTo(ArgumentsText, call.arguments)]
  }

  function ToolActions(tools: seq<ToolPart>, position: nat, choiceIndex: int, at: int): seq<Action>
    decreases |tools|
  {
    if tools == [] then []
    else
      [UpdateChatTool(choiceIndex, Index(tools[0].index, position), ToolEdits(tools[0], at))]
      + ToolActions(tools[1..], position + 1, choiceIndex, at)
  }

  function DeltaTextActions(delta: Delta, choiceIndex: int, at: int): seq<Action> {
    Tell(ChatKey(Reasoning, choiceIndex, -1), ReasoningText,
      PreferredReasoning(delta.reasoningContent, delta.reasoning), at)
    + SpeechActions(delta, choiceIndex, at)
  }

  function SpeechActions(delta: Delta, choiceIndex: int, at: int): seq<Action> {
    if delta.content == "" && delta.refusal == "" then []
    else [UpdateChat(Kind.Response, choiceIndex,
           [Touch(at), AppendTo(ContentText, delta.content), AppendTo(RefusalText, delta.refusal)])]
  }

  function FunctionCallActions(call: Option<Call>, choiceIndex: int, at: int): seq<Action> {
    if call.None? || call.value == Call("", "") then []
    else [UpdateChatTool(choiceIndex, 0,
           [Touch(at), Replace(ToolTypeText, "function"), AppendTo(NameText, call.value.name),
            AppendTo(ArgumentsText, call.value.arguments)])]
  }

  function DeltaActions(delta: Delta, choiceIndex: int, at: int): seq<Action> {
    DeltaTextActions(delta, choiceIndex, at)
    + ToolActions(delta.toolCalls, 0, choiceIndex, at)
    + FunctionCallActions(delta.functionCall, choiceIndex, at)
  }

  function ChoiceTextActions(choice: Choice, choiceIndex: int, at: int): seq<Action> {
    Tell(ChatKey(Kind.Response, choiceIndex, -1), ContentText, choice.text, at)
  }

  function ChoiceReasonActions(choice: Choice, choiceIndex: int, finishOutputs: bool): seq<Action> {
    match choice.finishReason
    case None => []
    case Some(reason) =>
      if finishOutputs then [FinishChoice(Chat, choiceIndex, reason)] else [SetChoiceReason(Chat, choiceIndex, reason)]
  }

  function ChoiceActions(choice: Choice, choiceIndex: int, at: int, finishOutputs: bool): seq<Action> {
    (if choice.delta.None? then [] else DeltaActions(choice.delta.value, choiceIndex, at))
    + ChoiceTextActions(choice, choiceIndex, at)
    + ChoiceReasonActions(choice, choiceIndex, finishOutputs)
  }

  // ---------- Native ----------

  function NativeActions(event: Event, at: int, finishOutputs: bool): seq<Action> {
    if event.envelope.eventType != "" || event.choices != [] then []
    else
      Tell(NativeKey(Reasoning), ReasoningText, PreferredReasoning(event.reasoningContent, event.reasoning), at)
      + Tell(NativeKey(Kind.Response), ContentText, event.content, at)
      + NativeStopActions(event, finishOutputs)
  }

  function NativeStopActions(event: Event, finishOutputs: bool): seq<Action> {
    var reason := if event.stopType == "" then "stop" else event.stopType;
    if !event.envelope.stop then []
    else if finishOutputs then [FinishChoice(Native, 0, reason)]
    else [SetChoiceReason(Native, 0, reason)]
  }

  // ---------- Responses ----------

  function UpdatePart(kind: Kind, outputIndex: int, contentIndex: int, itemID: Bytes, edits: seq<Edit>): Action {
    Update(ResponsesKey(kind, outputIndex, contentIndex), [Replace(ItemIDText, itemID)] + edits)
  }

  function UpdateSummary(outputIndex: int, summaryIndex: int, itemID: Bytes, edits: seq<Edit>): Action {
    Update(SummaryKey(outputIndex, summaryIndex), [Replace(ItemIDText, itemID)] + edits)
  }

  function UpdateTool(outputIndex: int, itemID: Bytes, edits: seq<Edit>): Action {
    Update(ToolKey(outputIndex), ToolStart(itemID) + edits)
  }

  function ToolStart(itemID: Bytes): seq<Edit> {
    [Replace(ItemIDText, itemID), DefaultToolID(itemID)]
  }

  function AppendToPart(kind: Kind, field: Field, outputIndex: int, contentIndex: int, itemID: Bytes, text: Bytes,
          at: int): seq<Action> {
    if text == "" then []
    else [UpdatePart(kind, outputIndex, contentIndex, itemID, [Touch(at), AppendTo(field, text)])]
  }

  function AppendToTool(outputIndex: int, itemID: Bytes, toolType: Bytes, name: Bytes, text: Bytes, at: int): Action {
    UpdateTool(outputIndex, itemID,
      [Touch(at), Replace(ToolTypeText, toolType), Replace(NameText, name), AppendTo(ArgumentsText, text)])
  }

  function ReplaceTool(outputIndex: int, itemID: Bytes, toolType: Bytes, name: Bytes, text: Bytes, at: int): Action {
    UpdateTool(outputIndex, itemID,
      [Touch(at), Replace(ToolTypeText, toolType), Replace(NameText, name), Replace(ArgumentsText, text)])
  }

  function ShellAction(outputIndex: int, commandIndex: int, itemID: Bytes, command: Bytes, at: int,
          authoritative: bool): Action {
    UpdateShell(outputIndex, ToolStart(itemID) + [Touch(at), Replace(ToolTypeText, "shell_call")],
      commandIndex, command, authoritative)
  }

  function PartKind(part: Part): Kind {
    if Contains(part.partType, "reasoning") || Contains(part.partType, "summary") then Reasoning else Kind.Response
  }

  /** observeResponsePart */
  function PartActions(part: Part, outputIndex: int, contentIndex: int, itemID: Bytes, at: int,
          authoritative: bool): seq<Action> {
    var kind := PartKind(part);
    var value := if part.text == "" then part.refusal else part.text;
    var touch := if value == "" then [] else [Touch(at)];
    if value == "" && !authoritative then []
    else
      var (field, text) :=
        if kind == Reasoning then (ReasoningText, part.text)
        else if part.refusal != "" then (RefusalText, part.refusal)
        else (ContentText, part.text);
      [UpdatePart(kind, outputIndex, contentIndex, itemID,
        touch + if authoritative then [Replace(field, text), ApplyStatus(part.status, part.error)]
                else [AppendTo(field, text)])]
  }

  /** observeResponseSummaryPart */
  function SummaryPartAction(part: Part, outputIndex: int, summaryIndex: int, itemID: Bytes, at: int,
          authoritative: bool): Action {
    UpdateSummary(outputIndex, summaryIndex, itemID,
      (if part.text == "" then []
       else [Touch(at),
             if authoritative then Replace(ReasoningText, part.text) else AppendTo(ReasoningText, part.text)])
      + (if authoritative then [ApplyStatus(part.status, part.error)] else []))
  }

  function PartsActions(parts: seq<Part>, position: nat, outputIndex: int, itemID: Bytes, at: int,
          authoritative: bool): seq<Action>
    decreases |parts|
  {
    if parts == [] then []
    else
      PartActions(parts[0], outputIndex, position, itemID, at, authoritative)
      + PartsActions(parts[1..], position + 1, outputIndex, itemID, at, authoritative)
  }

  function SummariesActions(parts: seq<Part>, position: nat, outputIndex: int, itemID: Bytes, at: int,
          authoritative: bool): seq<Action>
    decreases |parts|
  {
    if parts == [] then []
    else
      [SummaryPartAction(parts[0], outputIndex, position, itemID, at, authoritative)]
      + SummariesActions(parts[1..], position + 1, outputIndex, itemID, at, authoritative)
  }

  /** observeResponseItem */
  function ItemActions(item: Item, outputIndex: int, at: int, authoritative: bool): seq<Action> {
    if item.itemType == "message" then PartsActions(item.content, 0, outputIndex, item.id, at, authoritative)
    else if item.itemType == "reasoning" then
      PartsActions(item.content, 0, outputIndex, item.id, at, authoritative)
      + SummariesActions(item.summary, 0, outputIndex, item.id, at, authoritative)
    else if !HasSuffix(item.itemType, "_call") && item.itemType != "program" then []
    else
      [UpdateTool(outputIndex, item.id,
        [Touch(at), Replace(ToolIDText, if item.callID == "" then item.id else item.callID),
         Replace(ToolTypeText, item.itemType), Replace(NameText, item.name)]
        + (if authoritative then
             [Replace(ArgumentsText, item.arguments), SetAuthoritative(item.arguments != ""),
              ApplyOutputStatus(item.status, item.error)]
             + (if item.itemType == "program" then [SetCompleted] else [])
           else [AppendTo(ArgumentsText, item.arguments)]))]
  }

  /** streamPartWithEventStatus */
  function PartWithStatus(part: Part, event: Event): Part {
    part.(status := if event.status != "" then event.status else part.status,
          error := if event.envelope.error.Some? then event.envelope.error else part.error)
  }

  function LifecycleActions(event: Event, outputIndex: int): seq<Action> {
    match ToolLifecycle(event.envelope.eventType)
    case None => []
    case Some((toolType, status)) =>
      [Revise(ToolKey(outputIndex), ToolStart(event.itemID)
        + [Replace(ToolTypeText, toolType), Replace(NameText, event.name),
           ApplyStatus(status, event.envelope.error), LifecycleMessage(event.envelope.message)])]
  }

  function FinalItemsActions(items: seq<Item>, position: nat, at: int): seq<Action>
    decreases |items|
  {
    if items == [] then []
    else
      ItemActions(items[0], position, at, true) + [MarkOutput(position, items[0].status, items[0].error)]
      + FinalItemsActions(items[1..], position + 1, at)
  }

  function ItemDoneActions(item: Option<Item>, outputIndex: int, at: int): seq<Action> {
    match item
    case None => [FinishOutput(outputIndex, Verdict(true, false, ""))]
    case Some(item) =>
      var (complete, failed, message) := Status(item.status, item.error);
      ItemActions(item, outputIndex, at, true)
      + [MarkOutput(outputIndex, item.status, item.error),
        FinishOutput(outputIndex, Verdict(complete, failed, message))]
  }

  function PartEventActions(event: Event, outputIndex: int, at: int, authoritative: bool): seq<Action> {
    if event.part.None? then []
    else
      PartActions(if authoritative then PartWithStatus(event.part.value, event) else event.part.value,
        outputIndex, Index(event.indexes.content, 0), event.itemID, at, authoritative)
  }

  function SummaryPartEventActions(event: Event, outputIndex: int, at: int, authoritative: bool): seq<Action> {
    if event.part.None? then []
    else
      [SummaryPartAction(if authoritative then PartWithStatus(event.part.value, event) else event.part.value,
        outputIndex, Index(event.indexes.summary, 0), event.itemID, at, authoritative)]
  }

  function SummaryDeltaActions(event: Event, outputIndex: int, at: int): seq<Action> {
    if event.delta == "" then []
    else
      [UpdateSummary(outputIndex, Index(event.indexes.summary, 0), event.itemID,
        [Touch(at), AppendTo(ReasoningText, event.delta)])]
  }

  function ItemAddedActions(item: Option<Item>, outputIndex: int, at: int): seq<Action> {
    if item.None? then [] else ItemActions(item.value, outputIndex, at, false)
  }

  function TypedActions(event: Event, at: int): seq<Action> {
    KindActions(EventKindOf(event.envelope.eventType), event, at)
  }

  /** The switch of observeResponses. */
  function KindActions(kind: EventKind, event: Event, at: int): seq<Action> {
    var id, output, content := event.itemID, Index(event.indexes.output, 0), Index(event.indexes.content, 0);
    match kind
    case TextDelta => AppendToPart(Kind.Response, ContentText, output, content, id, event.delta, at)
    case RefusalDelta => AppendToPart(Kind.Response, RefusalText, output, content, id, event.delta, at)
    case ReasoningDelta => AppendToPart(Reasoning, ReasoningText, output, content, id, event.delta, at)
    case SummaryDelta => SummaryDeltaActions(event, output, at)
    case FunctionDelta => [AppendToTool(output, id, "function_call", "", event.delta, at)]
    case CustomToolDelta => [AppendToTool(output, id, "custom_tool_call", "", event.delta, at)]
    case MCPDelta => [AppendToTool(output, id, "mcp_call", event.name, event.delta, at)]
    case CodeDelta => [AppendToTool(output, id, "code_interpreter_call", "", event.delta, at)]
    case ShellCommand => [ShellAction(output, Index(event.indexes.command, 0), id, event.command, at, true)]
    case ShellDelta => [ShellAction(output, Index(event.indexes.command, 0), id, event.delta, at, false)]
    case TextDone => [UpdatePart(Kind.Response, output, content, id, [Touch(at), Replace(ContentText, event.text)])]
    case RefusalDone =>
      [UpdatePart(Kind.Response, output, content, id,
        [Touch(at), Replace(RefusalText, if event.refusal == "" then event.text else event.refusal)])]
    case ReasoningDone => [UpdatePart(Reasoning, output, content, id, [Touch(at), Replace(ReasoningText, event.text)])]
    case SummaryDone =>
      [UpdateSummary(output, Index(event.indexes.summary, 0), id, [Touch(at), Replace(ReasoningText, event.text)])]
    case FunctionDone => [ReplaceTool(output, id, "function_call", event.name, event.arguments, at)]
    case CustomToolDone => [ReplaceTool(output, id, "custom_tool_call", event.name, event.input, at)]
    case MCPDone => [ReplaceTool(output, id, "mcp_call", event.name, event.arguments, at)]
    case CodeDone => [ReplaceTool(output, id, "code_interpreter_call", "", event.codeText, at)]
    case ItemAdded => ItemAddedActions(event.item, output, at)
    case ItemDone => ItemDoneActions(event.item, output, at)
    case PartAdded => PartEventActions(event, output, at, false)
    case PartDone => PartEventActions(event, output, at, true)
    case SummaryPartAdded => SummaryPartEventActions(event, output, at, false)
    case SummaryPartDone => SummaryPartEventActions(event, output, at, true)
    case OtherEvent => []
  }

  function ResponsesActions(event: Event, at: int): seq<Action> {
    var t := event.envelope.eventType;
    if t == "" then []
    else
      TypedActions(event, at)
      + LifecycleActions(event, Index(event.indexes.output, 0))
      + (if event.envelope.response.Some?
            && (t == "response.completed" || t == "response.failed" || t == "response.incomplete")
         then FinalItemsActions(event.envelope.response.value.output, 0, at)
         else [])
  }
}

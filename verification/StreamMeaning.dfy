/**
 * What each event does to each part, field by field, read off the event's type and fields with no
 * regard to the accumulator: `Heard` follows one part through one event, for all three protocols.
 * While the caps are not reached, a part is what it was with each event heard in turn.
 */
module StreamMeaning {
  import opened Bytes
  import opened LimitedText
  import opened StreamEvents
  import opened StreamParts
  import opened StreamActions
  import opened StreamAssembly
  import opened StreamTexts
  import opened StreamRuns
  import opened StreamOrder

  // ---------- One part ----------

  /** The first thing that a part is told starts it. */
  function Begun(s: State, at: int): State {
    if s.started then s else s.(started := true, start := at)
  }

  /** A name, a type, an id: the last one that is not empty. */
  function Named(s: State, f: Field, value: Bytes, limit: nat): State {
    if value == "" then s else s.(texts := s.texts[f := SetTo(value, MetadataLimit(limit))])
  }

  function Grown(s: State, f: Field, value: Bytes, limit: nat): State {
    s.(texts := s.texts[f := Appended(TextAt(s.texts, f), value, limit)])
  }

  function Settled(s: State, f: Field, value: Bytes, limit: nat): State {
    s.(texts := s.texts[f := SetTo(value, limit)])
  }

  /** Names of tools come in pieces in Chat. */
  function NameGrown(s: State, value: Bytes, limit: nat): State {
    if value == "" then s else Grown(s, NameText, value, MetadataLimit(limit))
  }

  /** A status: an error or a failure fails the part, and a better message replaces a worse one. */
  function StatusHeard(s: State, status: Bytes, error: Option<Bytes>): State {
    if error.Some? || status == "failed" || status == "error" then
      var message := error.GetOr("upstream reported an error");
      s.(flags := s.flags.(failed := true),
         errorMessage := if s.errorMessage == "" || message != "upstream reported an error" then message
                         else s.errorMessage)
    else if status == "incomplete" || status == "cancelled" || status == "canceled" then
      s.(flags := s.flags.(incomplete := true))
    else s
  }

  // ---------- Chat ----------

  function ToolCallHeard(s: State, tool: ToolPart, at: int, limit: nat): State {
    var name := if tool.function_.Some? then tool.function_.value.name else "";
    var arguments := if tool.function_.Some? then tool.function_.value.arguments else "";
    if tool.id == "" && tool.toolType == "" && name == "" && arguments == "" then s
    else
      var named := Named(Named(Begun(s, at), ToolIDText, tool.id, limit), ToolTypeText, tool.toolType, limit);
      Grown(NameGrown(named, name, limit), ArgumentsText, arguments, limit)
  }

  /** The calls whose index, or position if they have none, is that of the part. */
  function ToolCallsHeard(s: State, tools: seq<ToolPart>, position: nat, toolIndex: int, at: int, limit: nat): State
    decreases |tools|
  {
    if tools == [] then s
    else
      ToolCallsHeard(if Index(tools[0].index, position) == toolIndex then ToolCallHeard(s, tools[0], at, limit) else s,
        tools[1..], position + 1, toolIndex, at, limit)
  }

  /** The older function call is that of the first tool. */
  function FunctionCallHeard(s: State, call: Option<Call>, toolIndex: int, at: int, limit: nat): State {
    if call.None? || toolIndex != 0 || (call.value.name == "" && call.value.arguments == "") then s
    else
      Grown(NameGrown(Named(Begun(s, at), ToolTypeText, "function", limit), call.value.name, limit),
        ArgumentsText, call.value.arguments, limit)
  }

  function ReasoningHeard(s: State, longName: Bytes, shortName: Bytes, at: int, limit: nat): State {
    if longName != "" then Grown(Begun(s, at), ReasoningText, longName, limit)
    else if shortName != "" then Grown(Begun(s, at), ReasoningText, shortName, limit)
    else s
  }

  function ContentHeard(s: State, content: Bytes, at: int, limit: nat): State {
    if content == "" then s else Grown(Begun(s, at), ContentText, content, limit)
  }

  function SpeechHeard(s: State, delta: Delta, at: int, limit: nat): State {
    if delta.content == "" && delta.refusal == "" then s
    else Grown(Grown(Begun(s, at), ContentText, delta.content, limit), RefusalText, delta.refusal, limit)
  }

  /** A delta, by the part of its choice that listens. */
  function DeltaHeard(s: State, key: Key, delta: Delta, at: int, limit: nat): State {
    match key.kind
    case Reasoning => ReasoningHeard(s, delta.reasoningContent, delta.reasoning, at, limit)
    case Response => SpeechHeard(s, delta, at, limit)
    case ToolCall =>
      FunctionCallHeard(ToolCallsHeard(s, delta.toolCalls, 0, key.toolIndex, at, limit), delta.functionCall,
        key.toolIndex, at, limit)
  }

  /** The parts of a choice. */
  predicate OfChoice(key: Key, choiceIndex: int) {
    && key.source == Chat && key.choiceIndex == choiceIndex && key.outputIndex == -1 && key.contentIndex == -1
    && (key.kind != ToolCall ==> key.toolIndex == -1)
  }

  function ChoiceHeard(s: State, key: Key, choice: Choice, at: int, limit: nat): State {
    var r := if choice.delta.Some? then DeltaHeard(s, key, choice.delta.value, at, limit) else s;
    if key.kind == Kind.Response then ContentHeard(r, choice.text, at, limit) else r
  }

  /** The choices whose index, or position if they have none, is that of the part; not those that have finished. */
  function ChoicesHeard(s: State, key: Key, finished: set<(Source, int)>, choices: seq<Choice>, position: nat,
          at: int, limit: nat): State
    decreases |choices|
  {
    if choices == [] then s
    else
      var index := Index(choices[0].index, position);
      var r := if OfChoice(key, index) && (Chat, index) !in finished then ChoiceHeard(s, key, choices[0], at, limit)
               else s;
      ChoicesHeard(r, key, finished, choices[1..], position + 1, at, limit)
  }

  // ---------- Native ----------

  function NativeHeard(s: State, key: Key, event: Event, at: int, limit: nat): State {
    if event.envelope.eventType != "" || event.choices != [] then s
    else if key == Key(Native, Reasoning, 0, -1, -1, -1) then
      ReasoningHeard(s, event.reasoningContent, event.reasoning, at, limit)
    else if key == Key(Native, Kind.Response, 0, -1, -1, -1) then ContentHeard(s, event.content, at, limit)
    else s
  }

  // ---------- Responses ----------

  function ItemNamed(s: State, id: Bytes, limit: nat): State {
    Named(s, ItemIDText, id, limit)
  }

  /** A tool without an id of its own has that of its item. */
  function ToolNamed(s: State, id: Bytes, limit: nat): State {
    var r := ItemNamed(s, id, limit);
    if TextAt(r.texts, ToolIDText).value == "" then Named(r, ToolIDText, id, limit) else r
  }

  function TextTold(s: State, id: Bytes, f: Field, value: Bytes, at: int, limit: nat): State {
    if value == "" then s else Grown(Begun(ItemNamed(s, id, limit), at), f, value, limit)
  }

  function TextSettled(s: State, id: Bytes, f: Field, value: Bytes, at: int, limit: nat): State {
    Settled(Begun(ItemNamed(s, id, limit), at), f, value, limit)
  }

  function ToolTyped(s: State, id: Bytes, toolType: Bytes, name: Bytes, at: int, limit: nat): State {
    Named(Named(Begun(ToolNamed(s, id, limit), at), ToolTypeText, toolType, limit), NameText, name, limit)
  }

  function ToolTold(s: State, id: Bytes, toolType: Bytes, name: Bytes, value: Bytes, at: int, limit: nat): State {
    Grown(ToolTyped(s, id, toolType, name, at, limit), ArgumentsText, value, limit)
  }

  function ToolSettled(s: State, id: Bytes, toolType: Bytes, name: Bytes, value: Bytes, at: int, limit: nat): State {
    Settled(ToolTyped(s, id, toolType, name, at, limit), ArgumentsText, value, limit)
  }

  function CommandHeard(s: State, id: Bytes, index: int, value: Bytes, settled: bool, at: int, limit: nat): State {
    var r := ToolTyped(s, id, "shell_call", "", at, limit);
    var text := if settled then SetTo(value, limit)
                else Appended(if index in r.shell then r.shell[index] else EMPTY, value, limit);
    r.(shell := r.shell[index := text])
  }

  /** A part is reasoning if its type says so. */
  function KindOfPart(part: Part): Kind {
    if Contains(part.partType, "reasoning") || Contains(part.partType, "summary") then Reasoning else Kind.Response
  }

  /** The text that a part brings, and which of its texts that is. */
  function Brings(part: Part): (Field, Bytes) {
    if KindOfPart(part) == Reasoning then (ReasoningText, part.text)
    else if part.refusal != "" then (RefusalText, part.refusal)
    else (ContentText, part.text)
  }

  /** A part that is added tells its text; one that has nothing to tell is not heard. */
  function PartAddedHeard(s: State, part: Part, id: Bytes, at: int, limit: nat): State {
    if part.text == "" && part.refusal == "" then s
    else Grown(Begun(ItemNamed(s, id, limit), at), Brings(part).0, Brings(part).1, limit)
  }

  /** A part that is done settles its text and brings its status. */
  function PartDoneHeard(s: State, part: Part, status: Bytes, error: Option<Bytes>, id: Bytes, at: int,
          limit: nat): State {
    var named := ItemNamed(s, id, limit);
    var begun := if part.text == "" && part.refusal == "" then named else Begun(named, at);
    StatusHeard(Settled(begun, Brings(part).0, Brings(part).1, limit), status, error)
  }

  function SummaryAddedHeard(s: State, part: Part, id: Bytes, at: int, limit: nat): State {
    if part.text == "" then ItemNamed(s, id, limit)
    else Grown(Begun(ItemNamed(s, id, limit), at), ReasoningText, part.text, limit)
  }

  function SummaryDoneHeard(s: State, part: Part, status: Bytes, error: Option<Bytes>, id: Bytes, at: int,
          limit: nat): State {
    var named := ItemNamed(s, id, limit);
    var said := if part.text == "" then named else Settled(Begun(named, at), ReasoningText, part.text, limit);
    StatusHeard(said, status, error)
  }

  /** A part of an item that is added, or that is done and brings its own status. */
  function PartHeard(s: State, part: Part, done: bool, id: Bytes, at: int, limit: nat): State {
    if done then PartDoneHeard(s, part, part.status, part.error, id, at, limit)
    else PartAddedHeard(s, part, id, at, limit)
  }

  function SummaryHeard(s: State, part: Part, done: bool, id: Bytes, at: int, limit: nat): State {
    if done then SummaryDoneHeard(s, part, part.status, part.error, id, at, limit)
    else SummaryAddedHeard(s, part, id, at, limit)
  }

  function PartOfItem(kind: Kind, outputIndex: int, contentIndex: int): Key {
    Key(Responses, kind, -1, outputIndex, contentIndex, -1)
  }

  /** The parts of a summary are reasoning parts of their own, numbered downwards from -2. */
  function SummaryOfItem(outputIndex: int, summaryIndex: int): Key {
    PartOfItem(Reasoning, outputIndex, -2 - summaryIndex)
  }

  function ToolOfItem(outputIndex: int): Key {
    PartOfItem(ToolCall, outputIndex, -1)
  }

  predicate IsToolItem(item: Item) {
    item.itemType != "message" && item.itemType != "reasoning"
    && (HasSuffix(item.itemType, "_call") || item.itemType == "program")
  }

  function ToolItemTyped(s: State, item: Item, at: int, limit: nat): State {
    var begun := Begun(ToolNamed(s, item.id, limit), at);
    var id := if item.callID == "" then item.id else item.callID;
    Named(Named(Named(begun, ToolIDText, id, limit), ToolTypeText, item.itemType, limit), NameText, item.name, limit)
  }

  /** The status of a whole output can also say that it is complete. */
  function OutputStatusHeard(s: State, status: Bytes, error: Option<Bytes>): State {
    var r := StatusHeard(s, status, error);
    if status == "completed" then r.(flags := r.flags.(completed := true)) else r
  }

  /** A tool item that is done: its arguments are settled, in full if there are any, and its status is heard. */
  function ToolItemDone(s: State, item: Item, at: int, limit: nat): State {
    var settled := Settled(ToolItemTyped(s, item, at, limit), ArgumentsText, item.arguments, limit);
    var given := settled.(flags := settled.flags.(argumentsAuthoritative := item.arguments != ""));
    var ended := OutputStatusHeard(given, item.status, item.error);
    if item.itemType == "program" then ended.(flags := ended.flags.(completed := true)) else ended
  }

  /** An item that is added or done: its contents, its summaries, or its tool call, each by its own part. */
  function ItemHeard(s: State, key: Key, item: Item, done: bool, outputIndex: int, at: int, limit: nat): State {
    if item.itemType == "message" || item.itemType == "reasoning" then
      var p, q := key.contentIndex, -2 - key.contentIndex;
      if 0 <= p < |item.content| && key == PartOfItem(KindOfPart(item.content[p]), outputIndex, p) then
        PartHeard(s, item.content[p], done, item.id, at, limit)
      else if item.itemType == "reasoning" && 0 <= q < |item.summary| && key == SummaryOfItem(outputIndex, q) then
        SummaryHeard(s, item.summary[q], done, item.id, at, limit)
      else s
    else if !IsToolItem(item) || key != ToolOfItem(outputIndex) then s
    else if done then ToolItemDone(s, item, at, limit)
    else Grown(ToolItemTyped(s, item, at, limit), ArgumentsText, item.arguments, limit)
  }

  /** The status of an event goes before that of its part. */
  function StatusOf(part: Part, event: Event): Bytes {
    if event.status != "" then event.status else part.status
  }

  function ErrorOf(part: Part, event: Event): Option<Bytes> {
    if event.envelope.error.Some? then event.envelope.error else part.error
  }

  /** What an event tells one part: a fragment of a text, or with `settles` the whole of it. */
  datatype Telling =
    | OfText(to: Key, field: Field, value: Bytes, settles: bool)
    | OfTool(output: int, toolType: Bytes, name: Bytes, value: Bytes, settles: bool)
    | OfCommand(output: int, index: int, value: Bytes, settles: bool)

  /** The types whose events add to a text of a message or of reasoning. */
  function TextTelling(event: Event): Option<Telling> {
    var t, output, content := event.envelope.eventType, Index(event.indexes.output, 0), Index(event.indexes.content, 0);
    var text, thought := PartOfItem(Kind.Response, output, content), PartOfItem(Reasoning, output, content);
    var summary := SummaryOfItem(output, Index(event.indexes.summary, 0));
    if t == "response.output_text.delta" || t == "response.text.delta" then
      Some(OfText(text, ContentText, event.delta, false))
    else if t == "response.refusal.delta" then Some(OfText(text, RefusalText, event.delta, false))
    else if t == "response.reasoning_text.delta" then Some(OfText(thought, ReasoningText, event.delta, false))
    else if t == "response.reasoning_summary_text.delta" then Some(OfText(summary, ReasoningText, event.delta, false))
    else None
  }

  /** The types whose events add to the arguments of a tool. */
  function ToolTelling(event: Event): Option<Telling> {
    var t, output := event.envelope.eventType, Index(event.indexes.output, 0);
    if t == "response.function_call_arguments.delta" then
      Some(OfTool(output, "function_call", "", event.delta, false))
    else if t == "response.custom_tool_call_input.delta" then
      Some(OfTool(output, "custom_tool_call", "", event.delta, false))
    else if t == "response.mcp_call_arguments.delta" then
      Some(OfTool(output, "mcp_call", event.name, event.delta, false))
    else if t == "response.code_interpreter_call_code.delta" then
      Some(OfTool(output, "code_interpreter_call", "", event.delta, false))
    else None
  }

  /** The types whose events add to a command of a tool, or define it. */
  function CommandTelling(event: Event): Option<Telling> {
    var t, output, command := event.envelope.eventType, Index(event.indexes.output, 0), Index(event.indexes.command, 0);
    if t == "response.shell_call_command.added" || t == "response.shell_call_command.done" then
      Some(OfCommand(output, command, event.command, true))
    else if t == "response.shell_call_command.delta" then Some(OfCommand(output, command, event.delta, false))
    else None
  }

  /** The types whose events settle a text of a message or of reasoning. */
  function TextSettling(event: Event): Option<Telling> {
    var t, output, content := event.envelope.eventType, Index(event.indexes.output, 0), Index(event.indexes.content, 0);
    var text, thought := PartOfItem(Kind.Response, output, content), PartOfItem(Reasoning, output, content);
    var summary := SummaryOfItem(output, Index(event.indexes.summary, 0));
    if t == "response.output_text.done" || t == "response.text.done" then
      Some(OfText(text, ContentText, event.text, true))
    else if t == "response.refusal.done" then
      Some(OfText(text, RefusalText, if event.refusal == "" then event.text else event.refusal, true))
    else if t == "response.reasoning_text.done" then Some(OfText(thought, ReasoningText, event.text, true))
    else if t == "response.reasoning_summary_text.done" then Some(OfText(summary, ReasoningText, event.text, true))
    else None
  }

  /** The types whose events settle the arguments of a tool. */
  function ToolSettling(event: Event): Option<Telling> {
    var t, output := event.envelope.eventType, Index(event.indexes.output, 0);
    if t == "response.function_call_arguments.done" then
      Some(OfTool(output, "function_call", event.name, event.arguments, true))
    else if t == "response.custom_tool_call_input.done" then
      Some(OfTool(output, "custom_tool_call", event.name, event.input, true))
    else if t == "response.mcp_call_arguments.done" then
      Some(OfTool(output, "mcp_call", event.name, event.arguments, true))
    else if t == "response.code_interpreter_call_code.done" then
      Some(OfTool(output, "code_interpreter_call", "", event.codeText, true))
    else None
  }

  /** What an event tells one part, by its type. */
  function TellingOf(event: Event): Option<Telling> {
    FirstOf(FirstOf(TextTelling(event), FirstOf(ToolTelling(event), CommandTelling(event))),
      FirstOf(TextSettling(event), ToolSettling(event)))
  }

  function FirstOf(a: Option<Telling>, b: Option<Telling>): Option<Telling> {
    if a.Some? then a else b
  }

  /** The part once it has been told that; `id` is the item's. */
  function TellingHeard(s: State, key: Key, telling: Telling, id: Bytes, at: int, limit: nat): State {
    match telling
    case OfText(to, f, value, settles) =>
      if key != to then s
      else if settles then TextSettled(s, id, f, value, at, limit)
      else TextTold(s, id, f, value, at, limit)
    case OfTool(output, toolType, name, value, settles) =>
      if key != ToolOfItem(output) then s
      else if settles then ToolSettled(s, id, toolType, name, value, at, limit)
      else ToolTold(s, id, toolType, name, value, at, limit)
    case OfCommand(output, index, value, settles) =>
      if key != ToolOfItem(output) then s else CommandHeard(s, id, index, value, settles, at, limit)
  }

  /** The types whose events bring a whole item or a whole part. */
  function PartTypeHeard(s: State, key: Key, event: Event, at: int, limit: nat): State {
    var t, id := event.envelope.eventType, event.itemID;
    var output, content := Index(event.indexes.output, 0), Index(event.indexes.content, 0);
    var summary := SummaryOfItem(output, Index(event.indexes.summary, 0));
    if t == "response.output_item.added" then
      if event.item.Some? then ItemHeard(s, key, event.item.value, false, output, at, limit) else s
    else if event.part.None? then s
    else
      var part := event.part.value;
      var status, error := StatusOf(part, event), ErrorOf(part, event);
      if t == "response.content_part.added" && key == PartOfItem(KindOfPart(part), output, content) then
        PartAddedHeard(s, part, id, at, limit)
      else if t == "response.content_part.done" && key == PartOfItem(KindOfPart(part), output, content) then
        PartDoneHeard(s, part, status, error, id, at, limit)
      else if t == "response.reasoning_summary_part.added" && key == summary then
        SummaryAddedHeard(s, part, id, at, limit)
      else if t == "response.reasoning_summary_part.done" && key == summary then
        SummaryDoneHeard(s, part, status, error, id, at, limit)
      else s
  }

  function TypeHeard(s: State, key: Key, event: Event, at: int, limit: nat): State {
    var telling := TellingOf(event);
    if event.envelope.eventType == "" then s
    else if telling.Some? then TellingHeard(s, key, telling.value, event.itemID, at, limit)
    else PartTypeHeard(s, key, event, at, limit)
  }

  // ---------- Events ----------

  /** The part once the event has been heard. */
  function Heard(s: State, key: Key, finished: set<(Source, int)>, event: Event, at: int, limit: nat): State {
    TypeHeard(
      NativeHeard(
        ChoicesHeard(s, key, finished, event.choices, 0, at, limit),
        key, event, at, limit),
      key, event, at, limit)
  }

  function AllHeard(s: State, key: Key, finished: set<(Source, int)>, arrivals: seq<Arrival>, limit: nat): State
    decreases |arrivals|
  {
    if arrivals == [] then s
    else
      var r := Heard(s, key, finished, arrivals[0].event, arrivals[0].at, limit);
      AllHeard(r, key, finished, arrivals[1..], limit)
  }

  /** The type reports the lifecycle of a tool call: response.<name>_call.<status>. */
  predicate ReportsLifecycle(t: Bytes) {
    HasPrefix(t, "response.")
    && (HasSuffix(t, "_call.completed") || HasSuffix(t, "_call.failed") || HasSuffix(t, "_call.incomplete"))
  }

  /** An event that tells parts something and ends nothing: no stream, no output and no choice. */
  predicate OnlyTells(finished: set<(Source, int)>, event: Event) {
    && !EndsStream(event.envelope)
    && event.envelope.eventType != "response.output_item.done" && !ReportsLifecycle(event.envelope.eventType)
    && forall i :: 0 <= i < |event.choices| && event.choices[i].finishReason.Some? ==>
         (Chat, Index(event.choices[i].index, i)) in finished
  }

  predicate AllTell(finished: set<(Source, int)>, arrivals: seq<Arrival>) {
    forall i :: 0 <= i < |arrivals| ==> OnlyTells(finished, arrivals[i].event)
  }

  // ---------- Actions, as one part hears them ----------

  /** The part after the actions that are for it. */
  function On(s: State, actions: seq<Action>, key: Key, limit: nat): State {
    Changed(s, EditsFor(actions, key), CommandsFor(actions, key), limit)
  }

  lemma {:induction false} EditsForBoth(x: seq<Action>, y: seq<Action>, key: Key)
    ensures EditsFor(x + y, key) == EditsFor(x, key) + EditsFor(y, key)
    ensures CommandsFor(x + y, key) == CommandsFor(x, key) + CommandsFor(y, key)
    decreases |x|
  {
    if x == [] {
      assert x + y == y;
    } else {
      assert (x + y)[0] == x[0] && (x + y)[1..] == x[1..] + y;
      EditsForBoth(x[1..], y, key);
      Associative(if IsFor(x[0], key) then x[0].edits else [], EditsFor(x[1..], key), EditsFor(y, key));
      Associative(if IsFor(x[0], key) then CommandsOf(x[0]) else [], CommandsFor(x[1..], key), CommandsFor(y, key));
    }
  }

  lemma OnBoth(s: State, x: seq<Action>, y: seq<Action>, key: Key, limit: nat)
    ensures On(s, x + y, key, limit) == On(On(s, x, key, limit), y, key, limit)
  {
    EditsForBoth(x, y, key);
    ChangedAppend(s, EditsFor(x, key), CommandsFor(x, key), EditsFor(y, key), CommandsFor(y, key), limit);
  }

  lemma OnNone(s: State, key: Key, limit: nat)
    ensures On(s, [], key, limit) == s
  {
  }

  lemma OnUpdate(s: State, to: Key, edits: seq<Edit>, key: Key, limit: nat)
    ensures On(s, [Update(to, edits)], key, limit) == if key == to then ApplyEdits(s, edits, limit) else s
  {
    var actions := [Update(to, edits)];
    assert actions[1..] == [] && EditsFor(actions, key) == if key == to then edits else [];
    assert CommandsFor(actions, key) == [];
    EditsIgnoreShell(s, edits, s.shell, limit);
  }

  lemma OnOther(s: State, action: Action, key: Key, limit: nat)
    requires !IsUpdate(action)
    ensures On(s, [action], key, limit) == s
  {
    assert NoneFor([action], key);
    Unheard(s, [action], key, limit);
  }

  lemma OnCommand(s: State, outputIndex: int, edits: seq<Edit>, index: int, value: Bytes, settled: bool, key: Key,
          limit: nat)
    ensures var r := ApplyEdits(s, edits, limit);
            On(s, [UpdateShell(outputIndex, edits, index, value, settled)], key, limit)
            == if key != ToolKey(outputIndex) then s
               else r.(shell := r.shell[index := if settled then SetTo(value, limit)
                                                 else Appended(CommandAt(r.shell, index), value, limit)])
  {
    var actions := [UpdateShell(outputIndex, edits, index, value, settled)];
    var command := Command(index, value, settled);
    assert actions[1..] == [] && EditsFor(actions, key) == if key == ToolKey(outputIndex) then edits else [];
    assert CommandsFor(actions, key) == if key == ToolKey(outputIndex) then [command] else [];
    EditsIgnoreShell(s, edits, s.shell, limit);
    OneCommand(s.shell, command, limit);
  }

  // ---------- A few edits ----------

  lemma Edits1(s: State, a: Edit, limit: nat)
    ensures ApplyEdits(s, [a], limit) == ApplyEdit(s, a, limit)
  {
    assert [a][1..] == [];
  }

  lemma Edits2(s: State, a: Edit, b: Edit, limit: nat)
    ensures ApplyEdits(s, [a, b], limit) == ApplyEdit(ApplyEdit(s, a, limit), b, limit)
  {
    assert [a, b][1..] == [b];
    Edits1(ApplyEdit(s, a, limit), b, limit);
  }

  lemma EditsThen(s: State, e: seq<Edit>, f: seq<Edit>, g: seq<Edit>, limit: nat)
    requires g == e + f
    ensures ApplyEdits(s, g, limit) == ApplyEdits(ApplyEdits(s, e, limit), f, limit)
  {
    ApplyEditsAppend(s, e, f, limit);
  }

  lemma Edits3(s: State, a: Edit, b: Edit, c: Edit, limit: nat)
    ensures ApplyEdits(s, [a, b, c], limit) == ApplyEdit(ApplyEdit(ApplyEdit(s, a, limit), b, limit), c, limit)
  {
    EditsThen(s, [a], [b, c], [a, b, c], limit);
    Edits1(s, a, limit);
    Edits2(ApplyEdit(s, a, limit), b, c, limit);
  }

  lemma Edits4(s: State, a: Edit, b: Edit, c: Edit, d: Edit, limit: nat)
    ensures ApplyEdits(s, [a, b, c, d], limit)
         == ApplyEdit(ApplyEdit(ApplyEdit(ApplyEdit(s, a, limit), b, limit), c, limit), d, limit)
  {
    EditsThen(s, [a, b], [c, d], [a, b, c, d], limit);
    Edits2(s, a, b, limit);
    Edits2(ApplyEdit(ApplyEdit(s, a, limit), b, limit), c, d, limit);
  }

  // ---------- Chat ----------

  lemma CallNamed(s: State, id: Bytes, toolType: Bytes, at: int, limit: nat)
    ensures ApplyEdits(s, [Touch(at), Replace(ToolIDText, id), Replace(ToolTypeText, toolType)], limit)
         == Named(Named(Begun(s, at), ToolIDText, id, limit), ToolTypeText, toolType, limit)
  {
    Edits3(s, Touch(at), Replace(ToolIDText, id), Replace(ToolTypeText, toolType), limit);
  }

  lemma CallSaid(s: State, name: Bytes, arguments: Bytes, limit: nat)
    ensures ApplyEdits(s, [AppendTo(NameText, name), AppendTo(ArgumentsText, arguments)], limit)
         == Grown(NameGrown(s, name, limit), ArgumentsText, arguments, limit)
  {
    Edits2(s, AppendTo(NameText, name), AppendTo(ArgumentsText, arguments), limit);
  }

  lemma ToolCallMeans(s: State, tool: ToolPart, at: int, limit: nat)
    ensures ApplyEdits(s, ToolEdits(tool, at), limit) == ToolCallHeard(s, tool, at, limit)
  {
    var call := tool.function_.GetOr(Call("", ""));
    if ToolEdits(tool, at) != [] {
      var names := [Touch(at), Replace(ToolIDText, tool.id), Replace(ToolTypeText, tool.toolType)];
      var says := [AppendTo(NameText, call.name), AppendTo(ArgumentsText, call.arguments)];
      EditsThen(s, names, says, ToolEdits(tool, at), limit);
      CallNamed(s, tool.id, tool.toolType, at, limit);
      CallSaid(ApplyEdits(s, names, limit), call.name, call.arguments, limit);
    }
  }

  lemma {:induction false} ToolCallsMean(s: State, tools: seq<ToolPart>, position: nat, i: int, at: int, key: Key,
          limit: nat)
    requires OfChoice(key, i) && key.kind == ToolCall
    ensures On(s, ToolActions(tools, position, i, at), key, limit)
         == ToolCallsHeard(s, tools, position, key.toolIndex, at, limit)
    decreases |tools|
  {
    if tools == [] {
      OnNone(s, key, limit);
    } else {
      var to, edits := ChatKey(ToolCall, i, Index(tools[0].index, position)), ToolEdits(tools[0], at);
      OnBoth(s, [Update(to, edits)], ToolActions(tools[1..], position + 1, i, at), key, limit);
      OnUpdate(s, to, edits, key, limit);
      ToolCallMeans(s, tools[0], at, limit);
      ToolCallsMean(On(s, [Update(to, edits)], key, limit), tools[1..], position + 1, i, at, key, limit);
    }
  }

  /** Actions for other parts are not heard. */
  predicate NoneFor(actions: seq<Action>, key: Key) {
    forall i :: 0 <= i < |actions| ==> !IsFor(actions[i], key)
  }

  lemma {:induction false} Unheard(s: State, actions: seq<Action>, key: Key, limit: nat)
    requires NoneFor(actions, key)
    ensures On(s, actions, key, limit) == s
  {
    if actions == [] {
      OnNone(s, key, limit);
    } else {
      assert NoneFor(actions[1..], key);
      Unheard(s, actions[1..], key, limit);
      assert [] + EditsFor(actions[1..], key) == EditsFor(actions[1..], key);
      assert [] + CommandsFor(actions[1..], key) == CommandsFor(actions[1..], key);
    }
  }

  lemma {:induction false} ToolsForOthers(tools: seq<ToolPart>, position: nat, i: int, at: int, key: Key)
    requires !OfChoice(key, i) || key.kind != ToolCall
    ensures NoneFor(ToolActions(tools, position, i, at), key)
    decreases |tools|
  {
    if tools != [] {
      ToolsForOthers(tools[1..], position + 1, i, at, key);
    }
  }

  lemma TellMeans(s: State, to: Key, f: Field, value: Bytes, at: int, key: Key, limit: nat)
    requires Joins(f)
    ensures On(s, Tell(to, f, value, at), key, limit)
         == if key == to && value != "" then Grown(Begun(s, at), f, value, limit) else s
  {
    if value == "" {
      OnNone(s, key, limit);
    } else {
      OnUpdate(s, to, [Touch(at), AppendTo(f, value)], key, limit);
      Edits2(s, Touch(at), AppendTo(f, value), limit);
    }
  }

  lemma SpeechMeans(s: State, delta: Delta, i: int, at: int, key: Key, limit: nat)
    ensures On(s, SpeechActions(delta, i, at), key, limit)
         == if key == ChatKey(Kind.Response, i, -1) then SpeechHeard(s, delta, at, limit) else s
  {
    if delta.content == "" && delta.refusal == "" {
      OnNone(s, key, limit);
    } else {
      var a, b, c := Touch(at), AppendTo(ContentText, delta.content), AppendTo(RefusalText, delta.refusal);
      OnUpdate(s, ChatKey(Kind.Response, i, -1), [a, b, c], key, limit);
      Edits3(s, a, b, c, limit);
    }
  }

  lemma FunctionCallMeans(s: State, call: Option<Call>, i: int, at: int, key: Key, limit: nat)
    ensures On(s, FunctionCallActions(call, i, at), key, limit)
         == if key == ChatKey(ToolCall, i, 0) then FunctionCallHeard(s, call, 0, at, limit) else s
  {
    if call.None? || call.value == Call("", "") {
      OnNone(s, key, limit);
    } else {
      var a, b := Touch(at), Replace(ToolTypeText, "function");
      var c, d := AppendTo(NameText, call.value.name), AppendTo(ArgumentsText, call.value.arguments);
      OnUpdate(s, ChatKey(ToolCall, i, 0), [a, b, c, d], key, limit);
      EditsThen(s, [a, b], [c, d], [a, b, c, d], limit);
      FunctionNamed(s, at, limit);
      CallSaid(ApplyEdits(s, [a, b], limit), call.value.name, call.value.arguments, limit);
    }
  }

  lemma FunctionNamed(s: State, at: int, limit: nat)
    ensures ApplyEdits(s, [Touch(at), Replace(ToolTypeText, "function")], limit)
         == Named(Begun(s, at), ToolTypeText, "function", limit)
  {
    Edits2(s, Touch(at), Replace(ToolTypeText, "function"), limit);
  }

  lemma DeltaMeans(s: State, delta: Delta, i: int, at: int, key: Key, limit: nat)
    ensures On(s, DeltaActions(delta, i, at), key, limit)
         == if OfChoice(key, i) then DeltaHeard(s, key, delta, at, limit) else s
  {
    var reasoning := PreferredReasoning(delta.reasoningContent, delta.reasoning);
    var thinks, says := Tell(ChatKey(Reasoning, i, -1), ReasoningText, reasoning, at), SpeechActions(delta, i, at);
    var tools, call := ToolActions(delta.toolCalls, 0, i, at), FunctionCallActions(delta.functionCall, i, at);
    OnBoth(s, thinks + says + tools, call, key, limit);
    OnBoth(s, thinks + says, tools, key, limit);
    OnBoth(s, thinks, says, key, limit);
    TellMeans(s, ChatKey(Reasoning, i, -1), ReasoningText, reasoning, at, key, limit);
    var r := On(s, thinks, key, limit);
    SpeechMeans(r, delta, i, at, key, limit);
    var t := On(r, says, key, limit);
    if OfChoice(key, i) && key.kind == ToolCall {
      ToolCallsMean(t, delta.toolCalls, 0, i, at, key, limit);
    } else {
      ToolsForOthers(delta.toolCalls, 0, i, at, key);
      Unheard(t, tools, key, limit);
    }
    FunctionCallMeans(On(t, tools, key, limit), delta.functionCall, i, at, key, limit);
  }

  lemma ReasonMeans(s: State, choice: Choice, i: int, finishes: bool, key: Key, limit: nat)
    ensures On(s, ChoiceReasonActions(choice, i, finishes), key, limit) == s
  {
    if choice.finishReason.None? {
      OnNone(s, key, limit);
    } else {
      OnOther(s, ChoiceReasonActions(choice, i, finishes)[0], key, limit);
    }
  }

  lemma ChoiceMeans(s: State, choice: Choice, i: int, at: int, finishes: bool, key: Key, limit: nat)
    ensures On(s, ChoiceActions(choice, i, at, finishes), key, limit)
         == if OfChoice(key, i) then ChoiceHeard(s, key, choice, at, limit) else s
  {
    var delta := if choice.delta.None? then [] else DeltaActions(choice.delta.value, i, at);
    var text, reason := ChoiceTextActions(choice, i, at), ChoiceReasonActions(choice, i, finishes);
    OnBoth(s, delta + text, reason, key, limit);
    OnBoth(s, delta, text, key, limit);
    if choice.delta.Some? {
      DeltaMeans(s, choice.delta.value, i, at, key, limit);
    } else {
      OnNone(s, key, limit);
    }
    TellMeans(On(s, delta, key, limit), ChatKey(Kind.Response, i, -1), ContentText, choice.text, at, key, limit);
    ReasonMeans(On(s, delta + text, key, limit), choice, i, finishes, key, limit);
  }

  lemma {:induction false} ChoicesMean(s: State, finished: set<(Source, int)>, choices: seq<Choice>, position: nat,
          at: int, finishes: bool, key: Key, limit: nat)
    ensures On(s, ChoicesActions(finished, choices, position, at, finishes), key, limit)
         == ChoicesHeard(s, key, finished, choices, position, at, limit)
    decreases |choices|
  {
    if choices == [] {
      OnNone(s, key, limit);
    } else {
      var i := Index(choices[0].index, position);
      var first := FirstChoiceActions(finished, choices[0], position, at, finishes);
      OnBoth(s, first, ChoicesActions(finished, choices[1..], position + 1, at, finishes), key, limit);
      if (Chat, i) in finished {
        OnNone(s, key, limit);
      } else {
        ChoiceMeans(s, choices[0], i, at, finishes, key, limit);
      }
      ChoicesMean(On(s, first, key, limit), finished, choices[1..], position + 1, at, finishes, key, limit);
    }
  }

  // ---------- Native ----------

  lemma StopMeans(s: State, event: Event, finishes: bool, key: Key, limit: nat)
    ensures On(s, NativeStopActions(event, finishes), key, limit) == s
  {
    if event.envelope.stop {
      OnOther(s, NativeStopActions(event, finishes)[0], key, limit);
    } else {
      OnNone(s, key, limit);
    }
  }

  lemma NativeMeans(s: State, event: Event, at: int, finishes: bool, key: Key, limit: nat)
    ensures On(s, NativeActions(event, at, finishes), key, limit) == NativeHeard(s, key, event, at, limit)
  {
    if event.envelope.eventType != "" || event.choices != [] {
      OnNone(s, key, limit);
    } else {
      var reasoning := PreferredReasoning(event.reasoningContent, event.reasoning);
      var thinks := Tell(NativeKey(Reasoning), ReasoningText, reasoning, at);
      var says := Tell(NativeKey(Kind.Response), ContentText, event.content, at);
      OnBoth(s, thinks + says, NativeStopActions(event, finishes), key, limit);
      OnBoth(s, thinks, says, key, limit);
      TellMeans(s, NativeKey(Reasoning), ReasoningText, reasoning, at, key, limit);
      TellMeans(On(s, thinks, key, limit), NativeKey(Kind.Response), ContentText, event.content, at, key, limit);
      StopMeans(On(s, thinks + says, key, limit), event, finishes, key, limit);
    }
  }

  // ---------- Responses ----------

  /** The actions that tell it. */
  function ToldBy(telling: Telling, id: Bytes, at: int): seq<Action> {
    match telling
    case OfText(to, f, value, settles) =>
      if !settles && value == "" then []
      else [Update(to, [Replace(ItemIDText, id)]
          + [Touch(at), if settles then Replace(f, value) else AppendTo(f, value)])]
    case OfTool(output, toolType, name, value, settles) =>
      [UpdateTool(output, id, [Touch(at), Replace(ToolTypeText, toolType), Replace(NameText, name),
        if settles then Replace(ArgumentsText, value) else AppendTo(ArgumentsText, value)])]
    case OfCommand(output, index, value, settles) => [ShellAction(output, index, id, value, at, settles)]
  }

  lemma TextEditsMean(s: State, id: Bytes, f: Field, value: Bytes, at: int, limit: nat)
    requires Joins(f)
    ensures ApplyEdits(s, [Replace(ItemIDText, id)] + [Touch(at), AppendTo(f, value)], limit)
         == Grown(Begun(ItemNamed(s, id, limit), at), f, value, limit)
    ensures ApplyEdits(s, [Replace(ItemIDText, id)] + [Touch(at), Replace(f, value)], limit)
         == Settled(Begun(ItemNamed(s, id, limit), at), f, value, limit)
  {
    var a, b, c, d := Replace(ItemIDText, id), Touch(at), AppendTo(f, value), Replace(f, value);
    EditsThen(s, [a], [b, c], [a] + [b, c], limit);
    EditsThen(s, [a], [b, d], [a] + [b, d], limit);
    Edits1(s, a, limit);
    Edits2(ItemNamed(s, id, limit), b, c, limit);
    Edits2(ItemNamed(s, id, limit), b, d, limit);
  }

  lemma TextMeans(s: State, telling: Telling, id: Bytes, at: int, key: Key, limit: nat)
    requires telling.OfText? && Joins(telling.field)
    ensures On(s, ToldBy(telling, id, at), key, limit) == TellingHeard(s, key, telling, id, at, limit)
  {
    var OfText(to, f, value, settles) := telling;
    TextEditsMean(s, id, f, value, at, limit);
    if !settles && value == "" {
      OnNone(s, key, limit);
    } else {
      OnUpdate(s, to, ToldBy(telling, id, at)[0].edits, key, limit);
    }
  }

  lemma ToolNamedMeans(s: State, id: Bytes, limit: nat)
    ensures ApplyEdits(s, ToolStart(id), limit) == ToolNamed(s, id, limit)
  {
    Edits2(s, Replace(ItemIDText, id), DefaultToolID(id), limit);
  }

  lemma ToolTypedMeans(s: State, id: Bytes, toolType: Bytes, name: Bytes, at: int, limit: nat)
    ensures ApplyEdits(s, ToolStart(id) + [Touch(at), Replace(ToolTypeText, toolType), Replace(NameText, name)], limit)
         == ToolTyped(s, id, toolType, name, at, limit)
  {
    var a, b, c := Touch(at), Replace(ToolTypeText, toolType), Replace(NameText, name);
    EditsThen(s, ToolStart(id), [a, b, c], ToolStart(id) + [a, b, c], limit);
    ToolNamedMeans(s, id, limit);
    Edits3(ToolNamed(s, id, limit), a, b, c, limit);
  }

  lemma ToolMeans(s: State, telling: Telling, id: Bytes, at: int, key: Key, limit: nat)
    requires telling.OfTool?
    ensures On(s, ToldBy(telling, id, at), key, limit) == TellingHeard(s, key, telling, id, at, limit)
  {
    var OfTool(output, toolType, name, value, settles) := telling;
    var a, b, c := Touch(at), Replace(ToolTypeText, toolType), Replace(NameText, name);
    var last := if settles then Replace(ArgumentsText, value) else AppendTo(ArgumentsText, value);
    var start, edits := ToolStart(id) + [a, b, c], ToolStart(id) + [a, b, c, last];
    assert edits == start + [last];
    OnUpdate(s, ToolKey(output), edits, key, limit);
    EditsThen(s, start, [last], edits, limit);
    ToolTypedMeans(s, id, toolType, name, at, limit);
    Edits1(ToolTyped(s, id, toolType, name, at, limit), last, limit);
  }

  lemma ShellTypedMeans(s: State, id: Bytes, at: int, limit: nat)
    ensures ApplyEdits(s, ToolStart(id) + [Touch(at), Replace(ToolTypeText, "shell_call")], limit)
         == ToolTyped(s, id, "shell_call", "", at, limit)
  {
    var a, b := Touch(at), Replace(ToolTypeText, "shell_call");
    EditsThen(s, ToolStart(id), [a, b], ToolStart(id) + [a, b], limit);
    ToolNamedMeans(s, id, limit);
    Edits2(ToolNamed(s, id, limit), a, b, limit);
  }

  lemma CommandMeans(s: State, telling: Telling, id: Bytes, at: int, key: Key, limit: nat)
    requires telling.OfCommand?
    ensures On(s, ToldBy(telling, id, at), key, limit) == TellingHeard(s, key, telling, id, at, limit)
  {
    var OfCommand(output, index, value, settles) := telling;
    OnCommand(s, output, ToolStart(id) + [Touch(at), Replace(ToolTypeText, "shell_call")], index, value, settles, key,
      limit);
    ShellTypedMeans(s, id, at, limit);
  }

  lemma TellingMeans(s: State, telling: Telling, id: Bytes, at: int, key: Key, limit: nat)
    requires telling.OfText? ==> Joins(telling.field)
    ensures On(s, ToldBy(telling, id, at), key, limit) == TellingHeard(s, key, telling, id, at, limit)
  {
    match telling
    case OfText(_, _, _, _) => TextMeans(s, telling, id, at, key, limit);
    case OfTool(_, _, _, _, _) => ToolMeans(s, telling, id, at, key, limit);
    case OfCommand(_, _, _, _) => CommandMeans(s, telling, id, at, key, limit);
  }

  /** The table, by the names that the code has for the types. */
  function KindTelling(kind: EventKind, event: Event): Option<Telling> {
    var output, content := Index(event.indexes.output, 0), Index(event.indexes.content, 0);
    var text, thought := PartOfItem(Kind.Response, output, content), PartOfItem(Reasoning, output, content);
    var summary, command := SummaryOfItem(output, Index(event.indexes.summary, 0)), Index(event.indexes.command, 0);
    match kind
    case TextDelta => Some(OfText(text, ContentText, event.delta, false))
    case RefusalDelta => Some(OfText(text, RefusalText, event.delta, false))
    case ReasoningDelta => Some(OfText(thought, ReasoningText, event.delta, false))
    case SummaryDelta => Some(OfText(summary, ReasoningText, event.delta, false))
    case FunctionDelta => Some(OfTool(output, "function_call", "", event.delta, false))
    case CustomToolDelta => Some(OfTool(output, "custom_tool_call", "", event.delta, false))
    case MCPDelta => Some(OfTool(output, "mcp_call", event.name, event.delta, false))
    case CodeDelta => Some(OfTool(output, "code_interpreter_call", "", event.delta, false))
    case ShellCommand => Some(OfCommand(output, command, event.command, true))
    case ShellDelta => Some(OfCommand(output, command, event.delta, false))
    case TextDone => Some(OfText(text, ContentText, event.text, true))
    case RefusalDone =>
      Some(OfText(text, RefusalText, if event.refusal == "" then event.text else event.refusal, true))
    case ReasoningDone => Some(OfText(thought, ReasoningText, event.text, true))
    case SummaryDone => Some(OfText(summary, ReasoningText, event.text, true))
    case FunctionDone => Some(OfTool(output, "function_call", event.name, event.arguments, true))
    case CustomToolDone => Some(OfTool(output, "custom_tool_call", event.name, event.input, true))
    case MCPDone => Some(OfTool(output, "mcp_call", event.name, event.arguments, true))
    case CodeDone => Some(OfTool(output, "code_interpreter_call", "", event.codeText, true))
    case _ => None
  }

  lemma TextTypes(event: Event)
    ensures TextTelling(event) == KindTelling(TextDeltaKindOf(event.envelope.eventType), event)
  {
  }

  lemma ToolTypes(event: Event)
    ensures ToolTelling(event) == KindTelling(ToolDeltaKindOf(event.envelope.eventType), event)
  {
    match ToolDeltaKindOf(event.envelope.eventType)
    case FunctionDelta =>
    case CustomToolDelta =>
    case MCPDelta =>
    case CodeDelta =>
    case OtherEvent =>
  }

  lemma CommandTypes(event: Event)
    ensures CommandTelling(event) == KindTelling(CommandKindOf(event.envelope.eventType), event)
  {
  }

  lemma SettlingTypes(event: Event)
    ensures TextSettling(event) == KindTelling(TextDoneKindOf(event.envelope.eventType), event)
  {
  }

  lemma CallSettlingTypes(event: Event)
    requires var t := event.envelope.eventType;
             t == "response.function_call_arguments.done" || t == "response.custom_tool_call_input.done"
    ensures ToolSettling(event) == KindTelling(ToolDoneKindOf(event.envelope.eventType), event)
  {
  }

  lemma OtherSettlingTypes(event: Event)
    requires var t := event.envelope.eventType;
             t != "response.function_call_arguments.done" && t != "response.custom_tool_call_input.done"
    ensures ToolSettling(event) == KindTelling(ToolDoneKindOf(event.envelope.eventType), event)
  {
  }

  lemma ToolSettlingTypes(event: Event)
    ensures ToolSettling(event) == KindTelling(ToolDoneKindOf(event.envelope.eventType), event)
  {
    var t := event.envelope.eventType;
    if t == "response.function_call_arguments.done" || t == "response.custom_tool_call_input.done" {
      CallSettlingTypes(event);
    } else {
      OtherSettlingTypes(event);
    }
  }

  lemma KindMeans(kind: EventKind, event: Event, at: int)
    requires KindTelling(kind, event).Some?
    ensures var telling := KindTelling(kind, event).value;
            && (telling.OfText? ==> Joins(telling.field))
            && KindActions(kind, event, at) == ToldBy(telling, event.itemID, at)
  {
    match kind
    case TextDelta =>
    case RefusalDelta =>
    case ReasoningDelta =>
    case SummaryDelta =>
    case FunctionDelta =>
    case CustomToolDelta =>
    case MCPDelta =>
    case CodeDelta =>
    case ShellCommand =>
    case ShellDelta =>
    case _ => DoneMeans(kind, event, at);
  }

  lemma DoneMeans(kind: EventKind, event: Event, at: int)
    requires IsDoneKind(kind)
    ensures var telling := KindTelling(kind, event).value;
            && (telling.OfText? ==> Joins(telling.field))
            && KindActions(kind, event, at) == ToldBy(telling, event.itemID, at)
  {
  }

  /** The first kind that is one. */
  function FirstKind(a: EventKind, b: EventKind): EventKind {
    if a.OtherEvent? then b else a
  }

  lemma FirstTells(a: EventKind, b: EventKind, event: Event)
    requires IsDeltaKind(a) || IsDoneKind(a) || a.OtherEvent?
    ensures KindTelling(FirstKind(a, b), event) == FirstOf(KindTelling(a, event), KindTelling(b, event))
  {
    KindsTell(a, event);
  }

  /** The kind of a type is the first that a group of types gives it. */
  lemma KindByGroups(t: Bytes)
    ensures EventKindOf(t)
         == FirstKind(FirstKind(TextDeltaKindOf(t), FirstKind(ToolDeltaKindOf(t), CommandKindOf(t))),
              FirstKind(FirstKind(TextDoneKindOf(t), ToolDoneKindOf(t)), ItemKindOf(t)))
  {
  }

  lemma TypesTell(event: Event)
    ensures TellingOf(event) == KindTelling(EventKindOf(event.envelope.eventType), event)
  {
    var t := event.envelope.eventType;
    TextTypes(event);
    ToolTypes(event);
    CommandTypes(event);
    SettlingTypes(event);
    ToolSettlingTypes(event);
    KindByGroups(t);
    KindsCombine(event, TextDeltaKindOf(t), ToolDeltaKindOf(t), CommandKindOf(t), TextDoneKindOf(t), ToolDoneKindOf(t),
      ItemKindOf(t), TextTelling(event), ToolTelling(event), CommandTelling(event), TextSettling(event),
      ToolSettling(event));
  }

  lemma KindsCombine(event: Event, a: EventKind, b: EventKind, c: EventKind, d: EventKind, e: EventKind, f: EventKind,
          x: Option<Telling>, y: Option<Telling>, z: Option<Telling>, u: Option<Telling>, v: Option<Telling>)
    requires (IsDeltaKind(a) || a.OtherEvent?) && (IsDeltaKind(b) || b.OtherEvent?) && (IsDeltaKind(c) || c.OtherEvent?)
    requires (IsDoneKind(d) || d.OtherEvent?) && (IsDoneKind(e) || e.OtherEvent?)
    requires IsPartKind(f) || f.ItemDone? || f.OtherEvent?
    requires x == KindTelling(a, event) && y == KindTelling(b, event) && z == KindTelling(c, event)
    requires u == KindTelling(d, event) && v == KindTelling(e, event)
    ensures FirstOf(FirstOf(x, FirstOf(y, z)), FirstOf(u, v))
         == KindTelling(FirstKind(FirstKind(a, FirstKind(b, c)), FirstKind(FirstKind(d, e), f)), event)
  {
    KindsTell(f, event);
    FirstTells(b, c, event);
    FirstTells(a, FirstKind(b, c), event);
    FirstTells(d, e, event);
    FirstTells(FirstKind(d, e), f, event);
    FirstTells(FirstKind(a, FirstKind(b, c)), FirstKind(FirstKind(d, e), f), event);
  }

  lemma KindsTell(kind: EventKind, event: Event)
    ensures KindTelling(kind, event).Some? <==> IsDeltaKind(kind) || IsDoneKind(kind)
  {
  }

  // ---------- Items and parts ----------

  lemma StatusMeans(s: State, status: Bytes, error: Option<Bytes>, limit: nat)
    ensures ApplyEdit(s, ApplyStatus(status, error), limit) == StatusHeard(s, status, error)
  {
  }

  lemma PartAddedMeans(s: State, part: Part, output: int, content: int, id: Bytes, at: int, key: Key, limit: nat)
    ensures On(s, PartActions(part, output, content, id, at, false), key, limit)
         == if key == PartOfItem(KindOfPart(part), output, content) then PartAddedHeard(s, part, id, at, limit) else s
  {
    if part.text == "" && part.refusal == "" {
      OnNone(s, key, limit);
    } else {
      var a, b, c := Replace(ItemIDText, id), Touch(at), AppendTo(Brings(part).0, Brings(part).1);
      assert [a] + ([b] + [c]) == [a, b, c];
      OnUpdate(s, PartOfItem(KindOfPart(part), output, content), [a, b, c], key, limit);
      Edits3(s, a, b, c, limit);
    }
  }

  lemma PartDoneMeans(s: State, part: Part, output: int, content: int, id: Bytes, at: int, key: Key, limit: nat)
    ensures On(s, PartActions(part, output, content, id, at, true), key, limit)
         == if key == PartOfItem(KindOfPart(part), output, content)
            then PartDoneHeard(s, part, part.status, part.error, id, at, limit) else s
  {
    var a, c, d := Replace(ItemIDText, id), Replace(Brings(part).0, Brings(part).1),
      ApplyStatus(part.status, part.error);
    var touch := if part.text == "" && part.refusal == "" then [] else [Touch(at)];
    OnUpdate(s, PartOfItem(KindOfPart(part), output, content), [a] + (touch + [c, d]), key, limit);
    EditsThen(s, [a], touch + [c, d], [a] + (touch + [c, d]), limit);
    Edits1(s, a, limit);
    var named := ItemNamed(s, id, limit);
    EditsThen(named, touch, [c, d], touch + [c, d], limit);
    if touch != [] {
      Edits1(named, Touch(at), limit);
    }
    var begun := ApplyEdits(named, touch, limit);
    Edits2(begun, c, d, limit);
    StatusMeans(ApplyEdit(begun, c, limit), part.status, part.error, limit);
  }

  lemma SummaryAddedMeans(s: State, part: Part, output: int, summary: int, id: Bytes, at: int, key: Key, limit: nat)
    ensures On(s, [SummaryPartAction(part, output, summary, id, at, false)], key, limit)
         == if key == SummaryOfItem(output, summary) then SummaryAddedHeard(s, part, id, at, limit) else s
  {
    var a, b, c := Replace(ItemIDText, id), Touch(at), AppendTo(ReasoningText, part.text);
    var edits := [a] + ((if part.text == "" then [] else [b, c]) + []);
    OnUpdate(s, SummaryOfItem(output, summary), edits, key, limit);
    if part.text == "" {
      assert edits == [a];
      Edits1(s, a, limit);
    } else {
      assert edits == [a, b, c];
      Edits3(s, a, b, c, limit);
    }
  }

  lemma SummaryDoneMeans(s: State, part: Part, output: int, summary: int, id: Bytes, at: int, key: Key, limit: nat)
    ensures On(s, [SummaryPartAction(part, output, summary, id, at, true)], key, limit)
         == if key == SummaryOfItem(output, summary)
            then SummaryDoneHeard(s, part, part.status, part.error, id, at, limit) else s
  {
    var a, b, c := Replace(ItemIDText, id), Touch(at), Replace(ReasoningText, part.text);
    var d := ApplyStatus(part.status, part.error);
    var edits := [a] + ((if part.text == "" then [] else [b, c]) + [d]);
    OnUpdate(s, SummaryOfItem(output, summary), edits, key, limit);
    if part.text == "" {
      assert edits == [a, d];
      Edits2(s, a, d, limit);
      StatusMeans(ApplyEdit(s, a, limit), part.status, part.error, limit);
    } else {
      assert edits == [a, b, c, d];
      Edits4(s, a, b, c, d, limit);
      StatusMeans(ApplyEdit(ApplyEdit(ApplyEdit(s, a, limit), b, limit), c, limit), part.status, part.error, limit);
    }
  }

  lemma PartMeans(s: State, part: Part, done: bool, output: int, content: int, id: Bytes, at: int, key: Key, limit: nat)
    ensures On(s, PartActions(part, output, content, id, at, done), key, limit)
         == if key == PartOfItem(KindOfPart(part), output, content) then PartHeard(s, part, done, id, at, limit) else s
  {
    if done {
      PartDoneMeans(s, part, output, content, id, at, key, limit);
    } else {
      PartAddedMeans(s, part, output, content, id, at, key, limit);
    }
  }

  lemma SummaryMeans(s: State, part: Part, done: bool, output: int, summary: int, id: Bytes, at: int, key: Key,
          limit: nat)
    ensures On(s, [SummaryPartAction(part, output, summary, id, at, done)], key, limit)
         == if key == SummaryOfItem(output, summary) then SummaryHeard(s, part, done, id, at, limit) else s
  {
    if done {
      SummaryDoneMeans(s, part, output, summary, id, at, key, limit);
    } else {
      SummaryAddedMeans(s, part, output, summary, id, at, key, limit);
    }
  }

  /** Of the contents from this position on, the one that is the part's own. */
  function ContentsHeard(s: State, parts: seq<Part>, done: bool, position: nat, output: int, id: Bytes, at: int,
          key: Key, limit: nat): State {
    var p := key.contentIndex - position;
    if 0 <= p < |parts| && key == PartOfItem(KindOfPart(parts[p]), output, position + p)
    then PartHeard(s, parts[p], done, id, at, limit) else s
  }

  function SummariesHeard(s: State, parts: seq<Part>, done: bool, position: nat, output: int, id: Bytes, at: int,
          key: Key, limit: nat): State {
    var q := -2 - key.contentIndex - position;
    if 0 <= q < |parts| && key == SummaryOfItem(output, position + q)
    then SummaryHeard(s, parts[q], done, id, at, limit) else s
  }

  lemma FirstContent(s: State, parts: seq<Part>, done: bool, position: nat, output: int, id: Bytes, at: int, key: Key,
          limit: nat)
    requires parts != []
    ensures var r := if key == PartOfItem(KindOfPart(parts[0]), output, position)
                     then PartHeard(s, parts[0], done, id, at, limit) else s;
            ContentsHeard(r, parts[1..], done, position + 1, output, id, at, key, limit)
            == ContentsHeard(s, parts, done, position, output, id, at, key, limit)
  {
    var p := key.contentIndex - position;
    assert 0 < p < |parts| ==> parts[1..][p - 1] == parts[p];
  }

  lemma FirstSummary(s: State, parts: seq<Part>, done: bool, position: nat, output: int, id: Bytes, at: int, key: Key,
          limit: nat)
    requires parts != []
    ensures var r := if key == SummaryOfItem(output, position) then SummaryHeard(s, parts[0], done, id, at, limit)
                     else s;
            SummariesHeard(r, parts[1..], done, position + 1, output, id, at, key, limit)
            == SummariesHeard(s, parts, done, position, output, id, at, key, limit)
  {
    var q := -2 - key.contentIndex - position;
    assert 0 < q < |parts| ==> parts[1..][q - 1] == parts[q];
  }

  lemma {:induction false} ContentsMean(s: State, parts: seq<Part>, done: bool, position: nat, output: int, id: Bytes,
          at: int, key: Key, limit: nat)
    ensures On(s, PartsActions(parts, position, output, id, at, done), key, limit)
         == ContentsHeard(s, parts, done, position, output, id, at, key, limit)
    decreases |parts|
  {
    if parts == [] {
      OnNone(s, key, limit);
    } else {
      var first := PartActions(parts[0], output, position, id, at, done);
      OnBoth(s, first, PartsActions(parts[1..], position + 1, output, id, at, done), key, limit);
      PartMeans(s, parts[0], done, output, position, id, at, key, limit);
      ContentsMean(On(s, first, key, limit), parts[1..], done, position + 1, output, id, at, key, limit);
      FirstContent(s, parts, done, position, output, id, at, key, limit);
    }
  }

  lemma {:induction false} SummariesMean(s: State, parts: seq<Part>, done: bool, position: nat, output: int, id: Bytes,
          at: int, key: Key, limit: nat)
    ensures On(s, SummariesActions(parts, position, output, id, at, done), key, limit)
         == SummariesHeard(s, parts, done, position, output, id, at, key, limit)
    decreases |parts|
  {
    if parts == [] {
      OnNone(s, key, limit);
    } else {
      var first := [SummaryPartAction(parts[0], output, position, id, at, done)];
      OnBoth(s, first, SummariesActions(parts[1..], position + 1, output, id, at, done), key, limit);
      SummaryMeans(s, parts[0], done, output, position, id, at, key, limit);
      SummariesMean(On(s, first, key, limit), parts[1..], done, position + 1, output, id, at, key, limit);
      FirstSummary(s, parts, done, position, output, id, at, key, limit);
    }
  }

  lemma ItemTypedMeans(s: State, item: Item, at: int, limit: nat)
    ensures var id := if item.callID == "" then item.id else item.callID;
            ApplyEdits(ToolNamed(s, item.id, limit), [Touch(at), Replace(ToolIDText, id),
              Replace(ToolTypeText, item.itemType), Replace(NameText, item.name)], limit)
            == ToolItemTyped(s, item, at, limit)
  {
    var id := if item.callID == "" then item.id else item.callID;
    var r := ToolNamed(s, item.id, limit);
    var a, b, c, d := Touch(at), Replace(ToolIDText, id), Replace(ToolTypeText, item.itemType),
      Replace(NameText, item.name);
    EditsThen(r, [a, b, c], [d], [a, b, c, d], limit);
    CallNamed(r, id, item.itemType, at, limit);
    Edits1(ApplyEdits(r, [a, b, c], limit), d, limit);
  }

  lemma ToolItemMeans(s: State, item: Item, last: seq<Edit>, output: int, at: int, key: Key, limit: nat)
    ensures var id := if item.callID == "" then item.id else item.callID;
            var names := [Touch(at), Replace(ToolIDText, id), Replace(ToolTypeText, item.itemType),
                          Replace(NameText, item.name)];
            On(s, [UpdateTool(output, item.id, names + last)], key, limit)
            == if key == ToolOfItem(output) then ApplyEdits(ToolItemTyped(s, item, at, limit), last, limit) else s
  {
    var id := if item.callID == "" then item.id else item.callID;
    var start, names := ToolStart(item.id), [Touch(at), Replace(ToolIDText, id),
                                             Replace(ToolTypeText, item.itemType), Replace(NameText, item.name)];
    OnUpdate(s, ToolKey(output), start + (names + last), key, limit);
    EditsThen(s, start, names + last, start + (names + last), limit);
    ToolNamedMeans(s, item.id, limit);
    EditsThen(ToolNamed(s, item.id, limit), names, last, names + last, limit);
    ItemTypedMeans(s, item, at, limit);
  }

  lemma ItemMeans(s: State, item: Item, done: bool, output: int, at: int, key: Key, limit: nat)
    ensures On(s, ItemActions(item, output, at, done), key, limit) == ItemHeard(s, key, item, done, output, at, limit)
  {
    if item.itemType == "message" || item.itemType == "reasoning" {
      MessageMeans(s, item, done, output, at, key, limit);
    } else if !IsToolItem(item) {
      OnNone(s, key, limit);
    } else if done {
      ToolDoneMeans(s, item, output, at, key, limit);
    } else {
      ToolItemMeans(s, item, [AppendTo(ArgumentsText, item.arguments)], output, at, key, limit);
      Edits1(ToolItemTyped(s, item, at, limit), AppendTo(ArgumentsText, item.arguments), limit);
    }
  }

  function DoneEdits(item: Item): seq<Edit> {
    [Replace(ArgumentsText, item.arguments), SetAuthoritative(item.arguments != ""),
     ApplyOutputStatus(item.status, item.error)]
    + (if item.itemType == "program" then [SetCompleted] else [])
  }

  lemma OutputStatusMeans(s: State, status: Bytes, error: Option<Bytes>, limit: nat)
    ensures ApplyEdit(s, ApplyOutputStatus(status, error), limit) == OutputStatusHeard(s, status, error)
  {
  }

  lemma DoneEditsMean(s: State, item: Item, at: int, limit: nat)
    ensures ApplyEdits(ToolItemTyped(s, item, at, limit), DoneEdits(item), limit) == ToolItemDone(s, item, at, limit)
  {
    var a, b, c := Replace(ArgumentsText, item.arguments), SetAuthoritative(item.arguments != ""),
      ApplyOutputStatus(item.status, item.error);
    var r := ToolItemTyped(s, item, at, limit);
    var last := if item.itemType == "program" then [SetCompleted] else [];
    EditsThen(r, [a, b, c], last, DoneEdits(item), limit);
    Edits3(r, a, b, c, limit);
    OutputStatusMeans(ApplyEdit(ApplyEdit(r, a, limit), b, limit), item.status, item.error, limit);
    if last != [] {
      Edits1(ApplyEdits(r, [a, b, c], limit), SetCompleted, limit);
    }
  }

  lemma ToolDoneMeans(s: State, item: Item, output: int, at: int, key: Key, limit: nat)
    requires IsToolItem(item)
    ensures On(s, ItemActions(item, output, at, true), key, limit) == ItemHeard(s, key, item, true, output, at, limit)
  {
    ToolItemMeans(s, item, DoneEdits(item), output, at, key, limit);
    DoneEditsMean(s, item, at, limit);
  }

  lemma MessageMeans(s: State, item: Item, done: bool, output: int, at: int, key: Key, limit: nat)
    requires item.itemType == "message" || item.itemType == "reasoning"
    ensures On(s, ItemActions(item, output, at, done), key, limit) == ItemHeard(s, key, item, done, output, at, limit)
  {
    var contents := PartsActions(item.content, 0, output, item.id, at, done);
    ContentsMean(s, item.content, done, 0, output, item.id, at, key, limit);
    if item.itemType == "reasoning" {
      OnBoth(s, contents, SummariesActions(item.summary, 0, output, item.id, at, done), key, limit);
      SummariesMean(On(s, contents, key, limit), item.summary, done, 0, output, item.id, at, key, limit);
    }
  }

  /** PartTypeHeard, by the names that the code has for the types. */
  function PartKindHeard(s: State, key: Key, kind: EventKind, event: Event, at: int, limit: nat): State {
    var output, id := Index(event.indexes.output, 0), event.itemID;
    var summary := SummaryOfItem(output, Index(event.indexes.summary, 0));
    if kind.ItemAdded? then
      if event.item.Some? then ItemHeard(s, key, event.item.value, false, output, at, limit) else s
    else if event.part.None? then s
    else
      var part := event.part.value;
      var own := PartOfItem(KindOfPart(part), output, Index(event.indexes.content, 0));
      var status, error := StatusOf(part, event), ErrorOf(part, event);
      match kind
      case PartAdded => if key == own then PartAddedHeard(s, part, id, at, limit) else s
      case PartDone => if key == own then PartDoneHeard(s, part, status, error, id, at, limit) else s
      case SummaryPartAdded => if key == summary then SummaryAddedHeard(s, part, id, at, limit) else s
      case SummaryPartDone => if key == summary then SummaryDoneHeard(s, part, status, error, id, at, limit) else s
      case _ => s
  }

  lemma PartTypes(s: State, key: Key, event: Event, at: int, limit: nat)
    requires event.envelope.eventType != "response.output_item.done"
    ensures PartTypeHeard(s, key, event, at, limit)
         == PartKindHeard(s, key, ItemKindOf(event.envelope.eventType), event, at, limit)
  {
  }

  lemma PartKindMeans(s: State, key: Key, kind: EventKind, event: Event, at: int, limit: nat)
    requires IsPartKind(kind) || kind.OtherEvent?
    ensures On(s, KindActions(kind, event, at), key, limit) == PartKindHeard(s, key, kind, event, at, limit)
  {
    if kind.OtherEvent? || (kind.ItemAdded? && event.item.None?) || (!kind.ItemAdded? && event.part.None?) {
      OnNone(s, key, limit);
    } else if kind.ItemAdded? {
      ItemKindMeans(s, key, event, at, limit);
    } else if kind.PartAdded? || kind.PartDone? {
      ContentKindMeans(s, key, kind, event, at, limit);
    } else {
      SummaryKindMeans(s, key, kind, event, at, limit);
    }
  }

  lemma ItemKindMeans(s: State, key: Key, event: Event, at: int, limit: nat)
    requires event.item.Some?
    ensures On(s, KindActions(ItemAdded, event, at), key, limit) == PartKindHeard(s, key, ItemAdded, event, at, limit)
  {
    ItemMeans(s, event.item.value, false, Index(event.indexes.output, 0), at, key, limit);
  }

  lemma ContentKindMeans(s: State, key: Key, kind: EventKind, event: Event, at: int, limit: nat)
    requires (kind.PartAdded? || kind.PartDone?) && event.part.Some?
    ensures On(s, KindActions(kind, event, at), key, limit) == PartKindHeard(s, key, kind, event, at, limit)
  {
    var output, content := Index(event.indexes.output, 0), Index(event.indexes.content, 0);
    if kind.PartAdded? {
      PartAddedMeans(s, event.part.value, output, content, event.itemID, at, key, limit);
    } else {
      PartDoneMeans(s, PartWithStatus(event.part.value, event), output, content, event.itemID, at, key, limit);
    }
  }

  lemma SummaryKindMeans(s: State, key: Key, kind: EventKind, event: Event, at: int, limit: nat)
    requires (kind.SummaryPartAdded? || kind.SummaryPartDone?) && event.part.Some?
    ensures On(s, KindActions(kind, event, at), key, limit) == PartKindHeard(s, key, kind, event, at, limit)
  {
    var output, summary := Index(event.indexes.output, 0), Index(event.indexes.summary, 0);
    if kind.SummaryPartAdded? {
      SummaryAddedMeans(s, event.part.value, output, summary, event.itemID, at, key, limit);
    } else {
      SummaryDoneMeans(s, PartWithStatus(event.part.value, event), output, summary, event.itemID, at, key, limit);
    }
  }

  // ---------- Whole events ----------

  /** What the type of an event does, for every type but the one that ends an output. */
  lemma TypeMeans(s: State, key: Key, event: Event, at: int, limit: nat)
    requires event.envelope.eventType != "" && event.envelope.eventType != "response.output_item.done"
    ensures On(s, TypedActions(event, at), key, limit) == TypeHeard(s, key, event, at, limit)
  {
    var t := event.envelope.eventType;
    TypesTell(event);
    var kind := EventKindOf(t);
    KindsTell(kind, event);
    if TellingOf(event).Some? {
      KindMeans(kind, event, at);
      TellingMeans(s, TellingOf(event).value, event.itemID, at, key, limit);
    } else {
      ItemKind(t);
      PartTypes(s, key, event, at, limit);
      PartKindMeans(s, key, kind, event, at, limit);
    }
  }

  lemma ItemKind(t: Bytes)
    requires !IsDeltaKind(EventKindOf(t)) && !IsDoneKind(EventKindOf(t)) && t != "response.output_item.done"
    ensures EventKindOf(t) == ItemKindOf(t) && !ItemKindOf(t).ItemDone?
  {
  }

  /** A lifecycle is reported only by a type that says so. */
  lemma LifecycleReported(t: Bytes)
    requires ToolLifecycle(t).Some?
    ensures ReportsLifecycle(t)
  {
    var name := t[9..];
    if LifecycleOf(name, "completed").Some? {
      SuffixReported(t, name, "completed");
      StatusReported(t, "completed");
    } else if LifecycleOf(name, "failed").Some? {
      SuffixReported(t, name, "failed");
      StatusReported(t, "failed");
    } else {
      SuffixReported(t, name, "incomplete");
      StatusReported(t, "incomplete");
    }
  }

  lemma StatusReported(t: Bytes, status: Bytes)
    requires HasPrefix(t, "response.") && HasSuffix(t, "_call." + status)
    requires status == "completed" || status == "failed" || status == "incomplete"
    ensures ReportsLifecycle(t)
  {
    assert "_call." + "completed" == "_call.completed";
    assert "_call." + "failed" == "_call.failed";
    assert "_call." + "incomplete" == "_call.incomplete";
  }

  lemma SuffixReported(t: Bytes, name: Bytes, status: Bytes)
    requires HasPrefix(t, "response.") && name == t[9..] && LifecycleOf(name, status).Some?
    ensures HasSuffix(t, "_call." + status)
  {
    var n, m := |name|, |status| + 1;
    var toolType := name[..n - m];
    assert name[n - m..] == "." + status && toolType[|toolType| - 5..] == "_call";
    assert name[n - m - 5..] == "_call" + ("." + status);
    assert t[|t| - m - 5..] == name[n - m - 5..];
    assert "_call." + status == "_call" + ("." + status);
  }

  lemma NoLifecycle(event: Event, outputIndex: int)
    requires !ReportsLifecycle(event.envelope.eventType)
    ensures LifecycleActions(event, outputIndex) == []
  {
    if ToolLifecycle(event.envelope.eventType).Some? {
      LifecycleReported(event.envelope.eventType);
    }
  }

  lemma StreamGoesOn(e: Envelope)
    ensures EndsStream(e) <==> EventEnd(e).Terminal?
    ensures !EndsStream(e) ==> e.eventType != "response.completed" && e.eventType != "response.failed"
                               && e.eventType != "response.incomplete" && !e.stop
  {
  }

  /** What the type of an event asks for is all that a Responses event asks for. */
  lemma OnlyTyped(event: Event, at: int)
    requires !EndsStream(event.envelope) && !ReportsLifecycle(event.envelope.eventType)
    ensures ResponsesActions(event, at) == if event.envelope.eventType == "" then [] else TypedActions(event, at)
  {
    StreamGoesOn(event.envelope);
    NoLifecycle(event, Index(event.indexes.output, 0));
    assert TypedActions(event, at) + [] + [] == TypedActions(event, at);
  }

  lemma ResponsesMean(s: State, key: Key, event: Event, at: int, limit: nat)
    requires !EndsStream(event.envelope) && !ReportsLifecycle(event.envelope.eventType)
    requires event.envelope.eventType != "response.output_item.done"
    ensures On(s, ResponsesActions(event, at), key, limit) == TypeHeard(s, key, event, at, limit)
  {
    OnlyTyped(event, at);
    if event.envelope.eventType == "" {
      OnNone(s, key, limit);
    } else {
      TypeMeans(s, key, event, at, limit);
    }
  }

  lemma EventMeans(s: State, key: Key, finished: set<(Source, int)>, event: Event, at: int, limit: nat)
    requires OnlyTells(finished, event)
    ensures On(s, EventActions(finished, event, at), key, limit) == Heard(s, key, finished, event, at, limit)
  {
    var finishes := !EventFailed(event.envelope);
    var x, y := ChoicesActions(finished, event.choices, 0, at, finishes), NativeActions(event, at, finishes);
    OnBoth(s, x + y, ResponsesActions(event, at), key, limit);
    OnBoth(s, x, y, key, limit);
    ChoicesMean(s, finished, event.choices, 0, at, finishes, key, limit);
    NativeMeans(On(s, x, key, limit), event, at, finishes, key, limit);
    ResponsesMean(On(s, x + y, key, limit), key, event, at, limit);
  }

  // ---------- Such events only update parts ----------

  lemma UpdatesAdd(x: seq<Action>, y: seq<Action>)
    requires AllUpdates(x) && AllUpdates(y)
    ensures AllUpdates(x + y)
  {
  }

  lemma {:induction false} ToolsUpdate(tools: seq<ToolPart>, position: nat, i: int, at: int)
    ensures AllUpdates(ToolActions(tools, position, i, at))
    decreases |tools|
  {
    if tools != [] {
      ToolsUpdate(tools[1..], position + 1, i, at);
    }
  }

  lemma DeltaUpdates(delta: Delta, i: int, at: int)
    ensures AllUpdates(DeltaActions(delta, i, at))
  {
    ToolsUpdate(delta.toolCalls, 0, i, at);
    assert AllUpdates(DeltaTextActions(delta, i, at)) && AllUpdates(FunctionCallActions(delta.functionCall, i, at));
  }

  lemma ChoiceUpdates(choice: Choice, i: int, at: int, finishes: bool)
    requires choice.finishReason.None?
    ensures AllUpdates(ChoiceActions(choice, i, at, finishes))
  {
    if choice.delta.Some? {
      DeltaUpdates(choice.delta.value, i, at);
    }
    assert AllUpdates(ChoiceTextActions(choice, i, at)) && ChoiceReasonActions(choice, i, finishes) == [];
  }

  lemma {:induction false} ChoicesUpdate(finished: set<(Source, int)>, choices: seq<Choice>, position: nat, at: int,
          finishes: bool)
    requires forall i :: 0 <= i < |choices| && choices[i].finishReason.Some? ==>
               (Chat, Index(choices[i].index, position + i)) in finished
    ensures AllUpdates(ChoicesActions(finished, choices, position, at, finishes))
    decreases |choices|
  {
    if choices != [] {
      var i, rest := Index(choices[0].index, position), choices[1..];
      if (Chat, i) !in finished {
        ChoiceUpdates(choices[0], i, at, finishes);
      }
      forall k | 0 <= k < |rest| && rest[k].finishReason.Some?
        ensures (Chat, Index(rest[k].index, position + 1 + k)) in finished
      {
        assert rest[k] == choices[k + 1];
      }
      ChoicesUpdate(finished, rest, position + 1, at, finishes);
      UpdatesAdd(FirstChoiceActions(finished, choices[0], position, at, finishes),
        ChoicesActions(finished, rest, position + 1, at, finishes));
    }
  }

  lemma {:induction false} PartsUpdate(parts: seq<Part>, position: nat, output: int, id: Bytes, at: int, done: bool)
    ensures AllUpdates(PartsActions(parts, position, output, id, at, done))
    ensures AllUpdates(SummariesActions(parts, position, output, id, at, done))
    decreases |parts|
  {
    if parts != [] {
      PartsUpdate(parts[1..], position + 1, output, id, at, done);
    }
  }

  lemma ItemUpdates(item: Item, output: int, at: int, done: bool)
    ensures AllUpdates(ItemActions(item, output, at, done))
  {
    PartsUpdate(item.content, 0, output, item.id, at, done);
    PartsUpdate(item.summary, 0, output, item.id, at, done);
  }

  lemma KindUpdates(kind: EventKind, event: Event, at: int)
    requires !kind.ItemDone?
    ensures AllUpdates(KindActions(kind, event, at))
  {
    if kind.ItemAdded? && event.item.Some? {
      ItemUpdates(event.item.value, Index(event.indexes.output, 0), at, false);
    } else if KindTelling(kind, event).Some? {
      KindMeans(kind, event, at);
    } else {
      KindsTell(kind, event);
    }
  }

  lemma OnlyItemDone(t: Bytes)
    requires t != "response.output_item.done"
    ensures !EventKindOf(t).ItemDone?
  {
  }

  /** The type asks for updates only. */
  lemma ResponsesUpdate(event: Event, at: int)
    requires !EndsStream(event.envelope) && !ReportsLifecycle(event.envelope.eventType)
    requires event.envelope.eventType != "response.output_item.done"
    ensures AllUpdates(ResponsesActions(event, at))
  {
    OnlyTyped(event, at);
    OnlyItemDone(event.envelope.eventType);
    KindUpdates(EventKindOf(event.envelope.eventType), event, at);
  }

  lemma NativeOnlyTells(event: Event, at: int, finishes: bool)
    requires !event.envelope.stop
    ensures AllUpdates(NativeActions(event, at, finishes))
  {
  }

  /** No choice that has not finished does so. */
  lemma ChoicesOnlyTell(finished: set<(Source, int)>, event: Event, at: int, finishes: bool)
    requires OnlyTells(finished, event)
    ensures AllUpdates(ChoicesActions(finished, event.choices, 0, at, finishes))
  {
    ChoicesUpdate(finished, event.choices, 0, at, finishes);
  }

  lemma ThreeUpdates(x: seq<Action>, y: seq<Action>, z: seq<Action>)
    requires AllUpdates(x) && AllUpdates(y) && AllUpdates(z)
    ensures AllUpdates(x + y + z)
  {
    UpdatesAdd(x, y);
    UpdatesAdd(x + y, z);
  }

  lemma TellsOnly(finished: set<(Source, int)>, event: Event, at: int)
    requires OnlyTells(finished, event)
    ensures IsDelta(finished, event, at)
  {
    var finishes := !EventFailed(event.envelope);
    StreamGoesOn(event.envelope);
    ChoicesOnlyTell(finished, event, at, finishes);
    NativeOnlyTells(event, at, finishes);
    ResponsesUpdate(event, at);
    ThreeUpdates(ChoicesActions(finished, event.choices, 0, at, finishes), NativeActions(event, at, finishes),
      ResponsesActions(event, at));
  }

  // ---------- Whole runs ----------

  lemma {:induction false} AllMean(s: State, key: Key, finished: set<(Source, int)>, arrivals: seq<Arrival>, limit: nat)
    requires AllTell(finished, arrivals)
    ensures On(s, AllActions(finished, arrivals), key, limit) == AllHeard(s, key, finished, arrivals, limit)
    decreases |arrivals|
  {
    if arrivals == [] {
      OnNone(s, key, limit);
    } else {
      var e, rest := arrivals[0], arrivals[1..];
      OnBoth(s, EventActions(finished, e.event, e.at), AllActions(finished, rest), key, limit);
      EventMeans(s, key, finished, e.event, e.at, limit);
      AllMean(Heard(s, key, finished, e.event, e.at, limit), key, finished, rest, limit);
    }
  }

  lemma AllTellOnly(finished: set<(Source, int)>, arrivals: seq<Arrival>)
    requires AllTell(finished, arrivals)
    ensures AllDeltas(finished, arrivals)
  {
    forall i | 0 <= i < |arrivals| ensures IsDelta(finished, arrivals[i].event, arrivals[i].at) {
      TellsOnly(finished, arrivals[i].event, arrivals[i].at);
    }
  }

  /**
   * While the caps are not reached, every part is, in all its fields, what it was with each event
   * heard in turn; nothing is given out.
   */
  lemma PartsAreWhatWasHeard(a: Acc, arrivals: seq<Arrival>, key: Key)
    requires !a.closed && AllTell(a.finishedChoices, arrivals)
    requires Room(a, Claimed(AllActions(a.finishedChoices, arrivals)))
    ensures var (b, outputs) := Run(a, Inputs(arrivals));
            && PartOrNew(b.states, key)
               == AllHeard(PartOrNew(a.states, key), key, a.finishedChoices, arrivals, a.limit)
            && outputs == []
  {
    var actions := AllActions(a.finishedChoices, arrivals);
    AllTellOnly(a.finishedChoices, arrivals);
    RunAsActions(a, arrivals);
    AllActionsUpdate(a.finishedChoices, arrivals);
    UpdatesAssemble(a, actions, 0);
    AssembledOwnChanges(a, actions);
    AllMean(PartOrNew(a.states, key), key, a.finishedChoices, arrivals, a.limit);
    PartFound(a, actions, Run(a, Inputs(arrivals)).0, key);
  }

  lemma PartFound(a: Acc, actions: seq<Action>, b: Acc, key: Key)
    requires AllUpdates(actions) && HasOwnChanges(a, actions, b)
    ensures PartOrNew(b.states, key) == On(PartOrNew(a.states, key), actions, key, a.limit)
  {
    if key !in b.states {
      NotClaimed(actions, key);
      OnNone(PartOrNew(a.states, key), key, a.limit);
    }
  }

  lemma {:induction false} NotClaimed(actions: seq<Action>, key: Key)
    requires AllUpdates(actions) && key !in UnitKeys(Claimed(actions))
    ensures EditsFor(actions, key) == [] && CommandsFor(actions, key) == []
  {
    if actions != [] {
      UnitKeysSplit(Claims(actions[0]), Claimed(actions[1..]));
      UnitKeysOfClaims(actions[0]);
      NotClaimed(actions[1..], key);
    }
  }
}

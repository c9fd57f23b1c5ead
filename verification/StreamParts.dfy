/**
 * One part of a streamed output while it is being assembled: streamOutputState of
 * internal/genai/genai.go, the edits that events make to it, and the output it becomes.
 */
module StreamParts {
  import opened Bytes
  import opened LimitedText
  import opened StreamEvents
  import opened Ordering

  const MAX_STREAM_METADATA_SIZE := 4096

  datatype Kind = Reasoning | Response | ToolCall

  datatype Source = Chat | Responses | Native

  datatype Key = Key(source: Source, kind: Kind, choiceIndex: int, outputIndex: int, contentIndex: int, toolIndex: int)

  /** All parts of one output share a group; they differ in contentIndex only. */
  datatype Group = Group(source: Source, kind: Kind, choiceIndex: int, outputIndex: int, toolIndex: int)

  function GroupOf(key: Key): Group {
    Group(key.source, key.kind, key.choiceIndex, key.outputIndex, key.toolIndex)
  }

  datatype Labels = Labels(choice: Option<int>, output: Option<int>, content: Option<int>, tool: Option<int>)

  /** The group that an output's own labels name. */
  function LabelledGroup(kind: Kind, labels: Labels): Group {
    Group(
      if labels.output.Some? then Responses else if labels.choice.Some? then Chat else Native,
      kind,
      if labels.output.Some? then -1 else labels.choice.GetOr(0),
      labels.output.GetOr(-1),
      labels.tool.GetOr(-1))
  }

  datatype Field =
    | ReasoningText | ContentText | RefusalText | ArgumentsText
    | NameText | ToolTypeText | ToolIDText | ItemIDText | FinishReasonText

  predicate IsMetadata(f: Field) {
    f.NameText? || f.ToolTypeText? || f.ToolIDText? || f.ItemIDText? || f.FinishReasonText?
  }

  datatype Flags = Flags(argumentsAuthoritative: bool, completed: bool, incomplete: bool, failed: bool)

  const NO_FLAGS := Flags(false, false, false, false)

  /** A field that is not in `texts` is empty. */
  datatype State = State(
    kind: Kind, labels: Labels, started: bool, start: int,
    texts: map<Field, Text>, shell: map<int, Text>, flags: Flags, errorMessage: Bytes)

  function NewState(kind: Kind, labels: Labels): State {
    State(kind, labels, false, 0, map[], map[], NO_FLAGS, "")
  }

  function TextAt(texts: map<Field, Text>, f: Field): Text {
    if f in texts then texts[f] else EMPTY
  }

  function MetadataLimit(limit: nat): nat {
    if limit > MAX_STREAM_METADATA_SIZE then MAX_STREAM_METADATA_SIZE else limit
  }

  function FieldLimit(f: Field, limit: nat): nat {
    if IsMetadata(f) then MetadataLimit(limit) else limit
  }

  // ---------- Edits ----------

  datatype Edit =
    | Touch(at: int)
    | AppendTo(field: Field, value: Bytes)
    | Replace(field: Field, value: Bytes)
    | DefaultToolID(value: Bytes)
    | ApplyStatus(status: Bytes, error: Option<Bytes>)
    | ApplyOutputStatus(status: Bytes, error: Option<Bytes>)
    | SetAuthoritative(authoritative: bool)
    | SetCompleted
    | LifecycleMessage(message: Bytes)

  /** Metadata ignores empty values; other texts are appended to, or replaced, by any value. */
  function ApplyEdit(s: State, e: Edit, limit: nat): State {
    match e
    case Touch(at) => if s.started then s else s.(started := true, start := at)
    case AppendTo(f, value) =>
      if IsMetadata(f) && value == "" then s
      else s.(texts := s.texts[f := Appended(TextAt(s.texts, f), value, FieldLimit(f, limit))])
    case Replace(f, value) =>
      if IsMetadata(f) && value == "" then s
      else s.(texts := s.texts[f := SetTo(value, FieldLimit(f, limit))])
    case DefaultToolID(value) =>
      if TextAt(s.texts, ToolIDText).value != "" || value == "" then s
      else s.(texts := s.texts[ToolIDText := SetTo(value, MetadataLimit(limit))])
    case ApplyStatus(status, error) => StatusApplied(s, status, error)
    case ApplyOutputStatus(status, error) =>
      var r := StatusApplied(s, status, error);
      if status == "completed" then r.(flags := r.flags.(completed := true)) else r
    case SetAuthoritative(authoritative) => s.(flags := s.flags.(argumentsAuthoritative := authoritative))
    case SetCompleted => s.(flags := s.flags.(completed := true))
    case LifecycleMessage(message) =>
      if s.flags.failed && message != "" then s.(errorMessage := Truncate(message)) else s
  }

  function StatusApplied(s: State, status: Bytes, error: Option<Bytes>): State {
    var (_, failed, message) := Status(status, error);
    if failed then
      s.(flags := s.flags.(failed := true),
         errorMessage := if s.errorMessage == "" || message != GENERIC_ERROR then message else s.errorMessage)
    else if Unfinished(status) then s.(flags := s.flags.(incomplete := true))
    else s
  }

  function ApplyEdits(s: State, edits: seq<Edit>, limit: nat): State
    decreases |edits|
  {
    if edits == [] then s else ApplyEdits(ApplyEdit(s, edits[0], limit), edits[1..], limit)
  }

  lemma {:induction false} ApplyEditsAppend(s: State, e: seq<Edit>, f: seq<Edit>, limit: nat)
    ensures ApplyEdits(s, e + f, limit) == ApplyEdits(ApplyEdits(s, e, limit), f, limit)
    decreases |e|
  {
    if e == [] {
      assert e + f == f;
    } else {
      assert (e + f)[0] == e[0] && (e + f)[1..] == e[1..] + f;
      ApplyEditsAppend(ApplyEdit(s, e[0], limit), e[1..], f, limit);
    }
  }

  // ---------- Finishing a part ----------

  predicate Nonempty(t: Text) {
    t.value != "" || t.truncated
  }

  predicate HasData(s: State) {
    match s.kind
    case Reasoning => Nonempty(TextAt(s.texts, ReasoningText))
    case Response => Nonempty(TextAt(s.texts, ContentText)) || Nonempty(TextAt(s.texts, RefusalText))
    case ToolCall =>
      || Nonempty(TextAt(s.texts, ToolIDText)) || Nonempty(TextAt(s.texts, ToolTypeText))
      || Nonempty(TextAt(s.texts, NameText)) || Nonempty(TextAt(s.texts, ArgumentsText))
      || s.shell != map[]
  }

  datatype Output = Output(
    kind: Kind, labels: Labels, start: int, end: int, texts: map<Field, Bytes>, truncated: bool,
    complete: bool, failed: bool, observationLimited: bool, protocolIncomplete: bool, errorMessage: Bytes)

  function OutputText(o: Output, f: Field): Bytes {
    if f in o.texts then o.texts[f] else ""
  }

  function OutputGroup(o: Output): Group {
    LabelledGroup(o.kind, o.labels)
  }

  /** preferredStreamErrorMessage */
  function PreferredMessage(state: Bytes, fallback: Bytes): Bytes {
    if state != "" && state != GENERIC_ERROR then state
    else if fallback != "" && fallback != GENERIC_ERROR then fallback
    else if state != "" then state
    else fallback
  }

  datatype Verdict = Verdict(complete: bool, failed: bool, message: Bytes)

  /** What a part's own flags make of the verdict that the end of its output brings. */
  function Settle(flags: Flags, errorMessage: Bytes, v: Verdict): Verdict {
    if flags.failed then Verdict(false, true, PreferredMessage(errorMessage, v.message))
    else if flags.incomplete then v.(complete := false)
    else if flags.completed then Verdict(true, false, "")
    else v
  }

  predicate AnyTruncated(texts: map<Field, Text>) {
    exists f :: f in texts && texts[f].truncated
  }

  function FinishState(s: State, at: int, v: Verdict, limit: nat): Output {
    var settled := Settle(s.flags, s.errorMessage, v);
    var values := map f | f in s.texts :: s.texts[f].value;
    var assembles := s.shell != map[] && !s.flags.argumentsAuthoritative;
    var (arguments, shellTruncated) := if assembles then AssembledShellCommands(s.shell, limit) else ("", false);
    Output(s.kind, s.labels, s.start, at,
      if assembles then values[ArgumentsText := arguments] else values,
      AnyTruncated(s.texts) || shellTruncated,
      settled.complete, settled.failed, false, s.flags.incomplete, settled.message)
  }

  // ---------- Shell commands ----------

  function AssembledShellCommands(shell: map<int, Text>, limit: nat): (Bytes, bool) {
    var indexes := SortedIndexes(shell.Keys);
    var commands := seq(|indexes|, i requires 0 <= i < |indexes| => shell[indexes[i]].value);
    var truncated := exists i :: i in shell && shell[i].truncated;
    var assembled := SetTo(MarshalCommands(commands), limit);
    (assembled.value, truncated || assembled.truncated)
  }

  /** json.Marshal of the object that holds the commands. */
  function MarshalCommands(commands: seq<Bytes>): Bytes {
    "{\"commands\":[" + JoinQuoted(commands) + "]}"
  }

  function JoinQuoted(commands: seq<Bytes>): Bytes {
    if commands == [] then ""
    else if |commands| == 1 then Quote(commands[0])
    else Quote(commands[0]) + "," + JoinQuoted(commands[1..])
  }

  function Quote(s: Bytes): Bytes {
    "\"" + Escape(s) + "\""
  }

  /** The line and paragraph separators U+2028 and U+2029 are escaped, as are the bytes that EscapeChar names. */
  function Escape(s: Bytes): Bytes {
    if s == "" then ""
    else if "\U{E2}\U{80}\U{A8}" <= s then "\\u2028" + Escape(s[3..])
    else if "\U{E2}\U{80}\U{A9}" <= s then "\\u2029" + Escape(s[3..])
    else EscapeChar(s[0]) + Escape(s[1..])
  }

  function EscapeChar(c: char): Bytes {
    if c == '\"' then "\\\""
    else if c == '\\' then "\\\\"
    else if c == '\n' then "\\n"
    else if c == '\r' then "\\r"
    else if c == '\t' then "\\t"
    else if c == '\U{08}' then "\\b"
    else if c == '\U{0C}' then "\\f"
    else if c < ' ' || c == '<' || c == '>' || c == '&' then
      "\\u00" + [HexDigit(c as int / 16 % 16), HexDigit(c as int % 16)]
    else [c]
  }

  function HexDigit(n: int): char
    requires 0 <= n < 16
  {
    "0123456789abcdef"[n]
  }

  // ---------- Tokens ----------

  predicate ToolHasToken(toolType: Bytes, toolID: Bytes, name: Bytes, arguments: Bytes) {
    || toolID != "" || name != "" || arguments != ""
    || (toolType != "" && toolType != "function" && toolType != "function_call" && toolType != "custom_tool_call")
  }

  predicate StateHasToken(s: State) {
    match s.kind
    case Reasoning => Nonempty(TextAt(s.texts, ReasoningText))
    case Response => Nonempty(TextAt(s.texts, ContentText)) || Nonempty(TextAt(s.texts, RefusalText))
    case ToolCall =>
      var (toolType, toolID) := (TextAt(s.texts, ToolTypeText), TextAt(s.texts, ToolIDText));
      var (name, arguments) := (TextAt(s.texts, NameText), TextAt(s.texts, ArgumentsText));
      || ToolHasToken(toolType.value, toolID.value, name.value, arguments.value)
      || toolType.truncated || toolID.truncated || name.truncated || arguments.truncated
  }

  predicate OutputHasToken(o: Output) {
    match o.kind
    case Reasoning => OutputText(o, ReasoningText) != "" || o.truncated
    case Response => OutputText(o, ContentText) != "" || OutputText(o, RefusalText) != "" || o.truncated
    case ToolCall =>
      || ToolHasToken(OutputText(o, ToolTypeText), OutputText(o, ToolIDText), OutputText(o, NameText),
           OutputText(o, ArgumentsText))
      || o.truncated
  }

  /** A part that holds a token becomes an output that holds one. */
  lemma TokenSurvivesFinish(s: State, at: int, v: Verdict, limit: nat)
    requires StateHasToken(s) && limit > 0
    ensures HasData(s) && OutputHasToken(FinishState(s, at, v, limit))
  {
    var o := FinishState(s, at, v, limit);
    assert forall f :: f !in {ArgumentsText} ==> OutputText(o, f) == TextAt(s.texts, f).value;
    assert forall f {:trigger TextAt(s.texts, f)} :: TextAt(s.texts, f).truncated ==> f in s.texts && o.truncated;
    if s.shell != map[] && !s.flags.argumentsAuthoritative {
      AssembledNonempty(s.shell, limit);
    }
  }

  lemma AssembledNonempty(shell: map<int, Text>, limit: nat)
    requires limit > 0
    ensures AssembledShellCommands(shell, limit).0 != ""
  {
    var indexes := SortedIndexes(shell.Keys);
    var raw := MarshalCommands(seq(|indexes|, i requires 0 <= i < |indexes| => shell[indexes[i]].value));
    var inner := raw[1..];
    assert raw[0] == '{' && inner[0] == '\"';
    var text := Sanitised(raw);
    assert text == "{" + Sanitised(inner) by { assert RuneSize(raw) == 1 && raw[..1] == "{"; }
    assert Sanitised(inner) == "\"" + Sanitised(inner[1..]) by { assert RuneSize(inner) == 1 && inner[..1] == "\""; }
    assert text[1] == '\"' && RuneStart(text[1]);
    if limit < |text| {
      assert Cut(text, limit) >= 1;
    }
  }
}

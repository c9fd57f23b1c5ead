/**
 * The stream accumulator of internal/genai/genai.go as a function of its state: what each
 * action, each event and each run of events does to it, and the outputs it gives out.
 */
module StreamAssembly {
  import opened Bytes
  import opened LimitedText
  import opened Ordering
  import opened StreamEvents
  import opened StreamParts
  import opened StreamActions

  const MAX_STREAM_OUTPUT_STATES := 64
  const MAX_STREAM_OUTPUT_PARTS := 128

  datatype Acc = Acc(
    limit: nat, states: map<Key, State>, finished: set<Key>, groups: set<Group>,
    finishedGroups: set<Group>, finishedChoices: set<(Source, int)>, createdParts: nat,
    limited: bool, decodeFailed: bool, terminalIncomplete: bool, terminalObserved: bool, closed: bool)

  function NewAcc(limit: int): Acc {
    Acc(if limit <= 0 then 1 else limit, map[], {}, {}, {}, {}, 0, false, false, false, false, false)
  }

  // ---------- Parts ----------

  /** The state method: whether the part may be edited, creating it when there is room. */
  function GetState(a: Acc, key: Key): (Acc, bool) {
    if key in a.finished || GroupOf(key) in a.finishedGroups then (a, false)
    else if key in a.states then (a, true)
    else if a.createdParts >= MAX_STREAM_OUTPUT_PARTS then (a.(limited := true), false)
    else if GroupOf(key) !in a.groups && |a.groups| >= MAX_STREAM_OUTPUT_STATES then (a.(limited := true), false)
    else (WithPart(a, key), true)
  }

  function WithPart(a: Acc, key: Key): Acc {
    a.(groups := a.groups + {GroupOf(key)}, createdParts := a.createdParts + 1,
       states := a.states[key := NewState(key.kind, LabelsOf(key))])
  }

  function EditPart(a: Acc, key: Key, edits: seq<Edit>): Acc {
    if key in a.states then a.(states := a.states[key := ApplyEdits(a.states[key], edits, a.limit)]) else a
  }

  function UpdatePartOf(a: Acc, key: Key, edits: seq<Edit>): Acc {
    var (b, ok) := GetState(a, key);
    if ok then EditPart(b, key, edits) else b
  }

  function ShellPartChanged(s: State, index: int, command: Bytes, authoritative: bool, limit: nat): State {
    var part := if index in s.shell then s.shell[index] else EMPTY;
    s.(shell := s.shell[index := if authoritative then SetTo(command, limit) else Appended(part, command, limit)])
  }

  /** The rest of observeResponseShellCommand: the command of a live tool part. */
  function EditShell(a: Acc, key: Key, index: int, command: Bytes, authoritative: bool): Acc {
    if key !in a.states then a
    else if index !in a.states[key].shell && a.createdParts >= MAX_STREAM_OUTPUT_PARTS then a.(limited := true)
    else ShellSet(a, key, index, command, authoritative)
  }

  function ShellSet(a: Acc, key: Key, index: int, command: Bytes, authoritative: bool): Acc
    requires key in a.states
  {
    var s := a.states[key];
    a.(states := a.states[key := ShellPartChanged(s, index, command, authoritative, a.limit)],
       createdParts := if index in s.shell then a.createdParts else a.createdParts + 1)
  }

  function UpdateShellOf(a: Acc, outputIndex: int, edits: seq<Edit>, index: int, command: Bytes,
          authoritative: bool): Acc {
    var key := ToolKey(outputIndex);
    var (b, ok) := GetState(a, key);
    if ok then EditShell(EditPart(b, key, edits), key, index, command, authoritative) else b
  }

  predicate InChoice(key: Key, source: Source, index: int) {
    key.source == source && key.choiceIndex == index
  }

  predicate InOutput(key: Key, outputIndex: int) {
    key.source == Responses && key.outputIndex == outputIndex
  }

  function ChoiceReasonSet(a: Acc, source: Source, index: int, reason: Bytes): Acc {
    a.(states := map k | k in a.states ::
      if InChoice(k, source, index) then ApplyEdit(a.states[k], Replace(FinishReasonText, reason), a.limit)
      else a.states[k])
  }

  function OutputMarked(a: Acc, outputIndex: int, status: Bytes, error: Option<Bytes>): Acc {
    a.(states := map k | k in a.states ::
      if InOutput(k, outputIndex) then ApplyEdit(a.states[k], ApplyOutputStatus(status, error), a.limit)
      else a.states[k])
  }

  // ---------- Finishing ----------

  /** The marks that the accumulator puts on an output. */
  function Stamp(a: Acc, o: Output, v: Verdict): Output {
    o.(observationLimited := a.limited || (a.decodeFailed && v.complete),
       protocolIncomplete := o.protocolIncomplete || (a.terminalIncomplete && !o.complete))
  }

  /** The part is gone; if it held data, its key and its group are recorded as finished. */
  function KeyFinished(a: Acc, key: Key): Acc
    requires key in a.states
  {
    var b := a.(states := a.states - {key});
    if !HasData(a.states[key]) then b
    else b.(finished := a.finished + {key}, finishedGroups := a.finishedGroups + {GroupOf(key)})
  }

  function FinishKey(a: Acc, key: Key, at: int, v: Verdict): (Acc, seq<Output>) {
    if key !in a.states then (a, [])
    else
      (KeyFinished(a, key),
       if HasData(a.states[key]) then [Stamp(a, FinishState(a.states[key], at, v, a.limit), v)] else [])
  }

  function FinishKeys(a: Acc, keys: seq<Key>, at: int, v: Verdict): (Acc, seq<Output>)
    decreases |keys|
  {
    if keys == [] then (a, [])
    else
      var (b, o) := FinishKey(a, keys[0], at, v);
      var (c, os) := FinishKeys(b, keys[1..], at, v);
      (c, o + os)
  }

  function SourceRank(s: Source): int {
    match s case Chat => 0 case Responses => 1 case Native => 2
  }

  function KindRank(k: Kind): int {
    match k case Reasoning => 0 case Response => 1 case ToolCall => 2
  }

  /** The comparator of finishMatching; the item id it also compares is empty in every key. */
  function KeyRank(k: Key): seq<int> {
    [SourceRank(k.source), k.choiceIndex, k.outputIndex, k.contentIndex, KindRank(k.kind), k.toolIndex]
  }

  /** The comparator of finishResponseOutputKind: contents in order, then summaries in order. */
  function PartRank(k: Key): seq<int> {
    if k.contentIndex >= 0 then [0, k.contentIndex] else [1, -2 - k.contentIndex]
  }

  /** The comparator of finishAll's Responses outputs. */
  function OutputRank(g: (int, Kind)): seq<int> {
    [g.0, KindRank(g.1)]
  }

  function OtherKeys(a: Acc): set<Key> {
    set k | k in a.states && k.source != Responses
  }

  function ChoiceKeys(a: Acc, source: Source, index: int): set<Key> {
    set k | k in a.states && InChoice(k, source, index)
  }

  function PartKeys(a: Acc, outputIndex: int, kind: Kind): set<Key> {
    set k | k in a.states && InOutput(k, outputIndex) && k.kind == kind
  }

  ghost function FinishMatching(a: Acc, keys: set<Key>, at: int, v: Verdict): (Acc, seq<Output>) {
    FinishKeys(a, SortOf(keys, KeyRank), at, v)
  }

  /** What one part adds to the merged output. */
  function MergeEdits(part: Output): seq<Edit> {
    [AppendTo(ReasoningText, OutputText(part, ReasoningText)), AppendTo(ContentText, OutputText(part, ContentText)),
     AppendTo(RefusalText, OutputText(part, RefusalText)), AppendTo(ArgumentsText, OutputText(part, ArgumentsText)),
     Replace(NameText, OutputText(part, NameText)), Replace(ToolTypeText, OutputText(part, ToolTypeText)),
     Replace(ToolIDText, OutputText(part, ToolIDText)), Replace(ItemIDText, OutputText(part, ItemIDText)),
     Replace(FinishReasonText, OutputText(part, FinishReasonText))]
  }

  function MergeState(s: State, parts: seq<Output>, limit: nat): State
    decreases |parts|
  {
    if parts == [] then s
    else
      var t := if parts[0].start < s.start then s.(start := parts[0].start) else s;
      MergeState(ApplyEdits(t, MergeEdits(parts[0]), limit), parts[1..], limit)
  }

  function MergeVerdict(v: Verdict, parts: seq<Output>): Verdict
    decreases |parts|
  {
    if parts == [] then v
    else
      var p := parts[0];
      var w := if p.failed then Verdict(false, true, if p.errorMessage != "" then p.errorMessage else v.message)
               else if !p.complete then v.(complete := false)
               else v;
      MergeVerdict(w, parts[1..])
  }

  function MergeOutputs(parts: seq<Output>, at: int, limit: nat, limited: bool): Output
    requires parts != []
  {
    var labels := if |parts| > 1 then parts[0].labels.(content := None) else parts[0].labels;
    var s := NewState(parts[0].kind, labels).(started := true, start := parts[0].start);
    var o := FinishState(MergeState(s, parts, limit), at, MergeVerdict(Verdict(true, false, ""), parts), limit);
    o.(truncated := o.truncated || exists p :: p in parts && p.truncated,
       observationLimited := limited || exists p :: p in parts && p.observationLimited,
       protocolIncomplete := exists p :: p in parts && p.protocolIncomplete)
  }

  ghost function FinishOutputKind(a: Acc, outputIndex: int, kind: Kind, at: int, v: Verdict): (Acc, seq<Output>) {
    var (b, parts) := FinishKeys(a, SortOf(PartKeys(a, outputIndex, kind), PartRank), at, v);
    (b, if parts == [] then [] else [MergeOutputs(parts, at, a.limit, a.limited)])
  }

  ghost function FinishOutputKinds(a: Acc, outputs: seq<(int, Kind)>, at: int, v: Verdict): (Acc, seq<Output>)
    decreases |outputs|
  {
    if outputs == [] then (a, [])
    else
      var (b, o) := FinishOutputKind(a, outputs[0].0, outputs[0].1, at, v);
      var (c, os) := FinishOutputKinds(b, outputs[1..], at, v);
      (c, o + os)
  }

  function KindsOf(outputIndex: int): seq<(int, Kind)> {
    [(outputIndex, Reasoning), (outputIndex, Kind.Response), (outputIndex, ToolCall)]
  }

  function LiveOutputs(a: Acc): set<(int, Kind)> {
    set k | k in a.states && k.source == Responses :: (k.outputIndex, k.kind)
  }

  ghost function FinishAll(a: Acc, at: int, v: Verdict): (Acc, seq<Output>) {
    var (b, os) := FinishOutputKinds(a, SortOf(LiveOutputs(a), OutputRank), at, v);
    var (c, ps) := FinishMatching(b, OtherKeys(b), at, v);
    (c, os + ps)
  }

  ghost function FinishChoiceOf(a: Acc, source: Source, index: int, at: int, reason: Bytes): (Acc, seq<Output>) {
    if (source, index) in a.finishedChoices then (a, [])
    else if |a.finishedChoices| >= MAX_STREAM_OUTPUT_STATES then (a.(limited := true), [])
    else
      var b := ChoiceReasonSet(a.(finishedChoices := a.finishedChoices + {(source, index)}), source, index, reason);
      FinishMatching(b, ChoiceKeys(b, source, index), at, Verdict(true, false, ""))
  }

  // ---------- Actions and events ----------

  ghost function Perform(a: Acc, action: Action, at: int): (Acc, seq<Output>) {
    match action
    case Update(key, edits) => (UpdatePartOf(a, key, edits), [])
    case UpdateShell(outputIndex, edits, index, command, authoritative) =>
      (UpdateShellOf(a, outputIndex, edits, index, command, authoritative), [])
    case Revise(key, edits) => (EditPart(a, key, edits), [])
    case SetChoiceReason(source, index, reason) => (ChoiceReasonSet(a, source, index, reason), [])
    case FinishChoice(source, index, reason) => FinishChoiceOf(a, source, index, at, reason)
    case MarkOutput(outputIndex, status, error) => (OutputMarked(a, outputIndex, status, error), [])
    case FinishOutput(outputIndex, v) => FinishOutputKinds(a, KindsOf(outputIndex), at, v)
  }

  ghost function PerformAll(a: Acc, actions: seq<Action>, at: int): (Acc, seq<Output>)
    decreases |actions|
  {
    if actions == [] then (a, [])
    else
      var (b, o) := Perform(a, actions[0], at);
      var (c, os) := PerformAll(b, actions[1..], at);
      (c, o + os)
  }

  /** observeChat from the choice at the given position on. */
  ghost function ObserveChoices(a: Acc, choices: seq<Choice>, position: nat, at: int, finishOutputs: bool)
    : (Acc, seq<Output>)
    decreases |choices|
  {
    if choices == [] then (a, [])
    else
      var index := Index(choices[0].index, position);
      var (b, o) := if (Chat, index) in a.finishedChoices then (a, [])
                    else PerformAll(a, ChoiceActions(choices[0], index, at, finishOutputs), at);
      var (c, os) := ObserveChoices(b, choices[1..], position + 1, at, finishOutputs);
      (c, o + os)
  }

  ghost function ObserveDecoded(a: Acc, event: Event, at: int): (Acc, seq<Output>) {
    var finishes := !EventFailed(event.envelope);
    var (b, o1) := ObserveChoices(a, event.choices, 0, at, finishes);
    var (c, o2) := PerformAll(b, NativeActions(event, at, finishes), at);
    var (d, o3) := PerformAll(c, ResponsesActions(event, at), at);
    (d, o1 + o2 + o3)
  }

  /** How a decoded event ends the stream, if it does. */
  function EventEnd(e: Envelope): Terminal {
    if EventFailed(e) then Terminal(false, true, EventErrorMessage(e))
    else if e.eventType == "response.incomplete" then Terminal(true, false, "")
    else if e.eventType == "response.completed" || e.stop then Terminal(false, false, "")
    else NotTerminal
  }

  /** The accumulator once a terminal has been observed; a decode failure makes the end unreliable. */
  function CloseAt(a: Acc, t: Terminal): Acc
    requires t.Terminal?
  {
    a.(limited := a.limited || a.decodeFailed, terminalIncomplete := a.terminalIncomplete || t.incomplete,
       closed := true, terminalObserved := true)
  }

  function EndVerdict(t: Terminal): Verdict
    requires t.Terminal?
  {
    Verdict(!t.incomplete && !t.failed, t.failed, t.message)
  }

  ghost function ObserveEvent(a: Acc, event: Event, at: int): (Acc, seq<Output>) {
    var (b, o) := ObserveDecoded(a, event, at);
    var t := EventEnd(event.envelope);
    if t.NotTerminal? then (b, o)
    else
      var (c, os) := FinishAll(CloseAt(b, t), at, EndVerdict(t));
      (c, o + os)
  }

  /** A payload that is JSON, but no event. */
  ghost function ObserveMisfit(a: Acc, payload: Payload, at: int): (Acc, seq<Output>) {
    var b, t := a.(decodeFailed := true, limited := true), DecodeTerminal(payload);
    if t.NotTerminal? then (b, []) else FinishAll(CloseAt(b, t), at, EndVerdict(t))
  }

  ghost function Observe(a: Acc, payload: Payload, protocolTerminal: bool, at: int): (Acc, seq<Output>) {
    if a.closed then (a, [])
    else if protocolTerminal then FinishAll(CloseAt(a, Terminal(false, false, "")), at, Verdict(true, false, ""))
    else match payload
      case NotJSON => (a.(decodeFailed := true), [])
      case JSON(_, None, _, _) => ObserveMisfit(a, payload, at)
      case JSON(_, Some(event), _, _) => ObserveEvent(a, event, at)
  }

  ghost function Finish(a: Acc, at: int): (Acc, seq<Output>) {
    if a.closed then (a, []) else FinishAll(a.(closed := true), at, Verdict(false, false, ""))
  }

  // ---------- Runs ----------

  datatype Input =
    | Payload(payload: StreamEvents.Payload, protocolTerminal: bool, at: int)
    | MarkLimited
    | End(at: int)

  /** A payload that decodes to the event. */
  function Decoded(event: Event, at: int): Input {
    Input.Payload(JSON(event.envelope, Some(event), true, true), false, at)
  }

  ghost function Receive(a: Acc, i: Input): (Acc, seq<Output>) {
    match i
    case Payload(payload, protocolTerminal, at) => Observe(a, payload, protocolTerminal, at)
    case MarkLimited => (a.(limited := true), [])
    case End(at) => Finish(a, at)
  }

  ghost function Run(a: Acc, inputs: seq<Input>): (Acc, seq<Output>)
    decreases |inputs|
  {
    if inputs == [] then (a, [])
    else
      var (b, o) := Receive(a, inputs[0]);
      var (c, os) := Run(b, inputs[1..]);
      (c, o + os)
  }
}

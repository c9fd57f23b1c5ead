/**
 * The accumulator of internal/genai/genai.go with its fields updated in place. Every method is
 * proved to compute the function of StreamAssembly that specifies it, whatever the order in
 * which its maps are ranged over.
 */
module StreamAccumulators {
  import opened Bytes
  import opened Ordering
  import opened StreamEvents
  import opened StreamParts
  import opened StreamActions
  import opened StreamAssembly
  import opened StreamFinishing
  import opened StreamInvariants
  import opened StreamSafety
  import opened StreamRuns

  /** Ranging over a map: its keys in some order, those that match kept. */
  method RangeOver<T(!new, ==)>(keys: set<T>, matches: T -> bool) returns (found: seq<T>)
    ensures Distinct(found)
    ensures forall k :: k in found <==> k in keys && matches(k)
  {
    found := [];
    var rest := keys;
    while rest != {}
      invariant rest <= keys && Distinct(found)
      invariant forall k :: k in found <==> k in keys - rest && matches(k)
      decreases |rest|
    {
      var key :| key in rest;
      rest := rest - {key};
      if matches(key) {
        found := found + [key];
      }
    }
  }

  function OutputsOf(output: Option<Output>): seq<Output> {
    if output.Some? then [output.value] else []
  }

  class StreamAccumulator {
    const limit: nat
    var states: map<Key, State>
    var finished: set<Key>
    var groups: set<Group>
    var finishedGroups: set<Group>
    var finishedChoices: set<(Source, int)>
    var createdParts: nat
    var limited: bool
    var decodeFailed: bool
    var terminalIncomplete: bool
    var terminalObserved: bool
    var closed: bool

    ghost function Value(): Acc
      reads this
    {
      Acc(limit, states, finished, groups, finishedGroups, finishedChoices, createdParts,
        limited, decodeFailed, terminalIncomplete, terminalObserved, closed)
    }

    constructor (limit: int)
      ensures Value() == NewAcc(limit) && Valid(Value())
    {
      this.limit := if limit <= 0 then 1 else limit;
      states, finished, groups, finishedGroups, finishedChoices, createdParts := map[], {}, {}, {}, {}, 0;
      limited, decodeFailed, terminalIncomplete, terminalObserved, closed := false, false, false, false, false;
      new;
      NewAccValid(limit);
    }

    method ContainsToken() returns (found: bool)
      ensures found <==> exists k :: k in states && StateHasToken(states[k])
    {
      var rest := states.Keys;
      while rest != {}
        invariant rest <= states.Keys
        invariant forall k :: k in states.Keys - rest ==> !StateHasToken(states[k])
        decreases |rest|
      {
        var key :| key in rest;
        if StateHasToken(states[key]) {
          return true;
        }
        rest := rest - {key};
      }
      return false;
    }

    method MarkLimited()
      modifies this`limited
      ensures Value() == old(Value()).(limited := true)
    {
      limited := true;
    }

    // ---------- Parts ----------

    method StateOf(key: Key) returns (ok: bool)
      modifies this`states, this`groups, this`createdParts, this`limited
      ensures (Value(), ok) == GetState(old(Value()), key)
    {
      if key in finished {
        return false;
      }
      var group := GroupOf(key);
      if group in finishedGroups {
        return false;
      }
      if key in states {
        return true;
      }
      if createdParts >= MAX_STREAM_OUTPUT_PARTS {
        limited := true;
        return false;
      }
      if group !in groups {
        if |groups| >= MAX_STREAM_OUTPUT_STATES {
          limited := true;
          return false;
        }
        groups := groups + {group};
      }
      assert groups == old(groups) + {group};
      createdParts := createdParts + 1;
      states := states[key := NewState(key.kind, LabelsOf(key))];
      return true;
    }

    method Edit(key: Key, edits: seq<StreamParts.Edit>)
      modifies this`states
      ensures Value() == EditPart(old(Value()), key, edits)
    {
      if key in states {
        var state, i := states[key], 0;
        while i < |edits|
          invariant 0 <= i <= |edits|
          invariant ApplyEdits(state, edits[i..], limit) == ApplyEdits(states[key], edits, limit)
        {
          assert edits[i..][0] == edits[i] && edits[i..][1..] == edits[i + 1..];
          state := ApplyEdit(state, edits[i], limit);
          i := i + 1;
        }
        assert edits[i..] == [];
        states := states[key := state];
      }
    }

    method Update(key: Key, edits: seq<StreamParts.Edit>)
      modifies this`states, this`groups, this`createdParts, this`limited
      ensures Value() == UpdatePartOf(old(Value()), key, edits)
    {
      var ok := StateOf(key);
      if ok {
        Edit(key, edits);
      }
    }

    /** The tool part of an output, with the item id that names it. */
    method ResponseToolState(outputIndex: int, itemID: Bytes) returns (ok: bool)
      modifies this`states, this`groups, this`createdParts, this`limited
      ensures (Value(), ok) == NamedPart(old(Value()), ToolKey(outputIndex), ToolStart(itemID))
    {
      ok := StateOf(ToolKey(outputIndex));
      if ok {
        Edit(ToolKey(outputIndex), [Replace(ItemIDText, itemID), DefaultToolID(itemID)]);
      }
    }

    /** A part of a message or of reasoning, with the item id that names it. */
    method ResponsePartState(key: Key, itemID: Bytes) returns (ok: bool)
      modifies this`states, this`groups, this`createdParts, this`limited
      ensures (Value(), ok) == NamedPart(old(Value()), key, [Replace(ItemIDText, itemID)])
    {
      ok := StateOf(key);
      if ok {
        Edit(key, [Replace(ItemIDText, itemID)]);
      }
    }

    method ObserveShellCommand(outputIndex: int, index: int, itemID: Bytes, command: Bytes, at: int,
            authoritative: bool)
      modifies this`states, this`groups, this`createdParts, this`limited
      ensures (Value(), []) == PerformAll(old(Value()),
           [ShellAction(outputIndex, index, itemID, command, at, authoritative)], at)
    {
      ghost var a, key := Value(), ToolKey(outputIndex);
      var ok := ResponseToolState(outputIndex, itemID);
      if ok {
        Edit(ToolKey(outputIndex), [Touch(at), Replace(ToolTypeText, "shell_call")]);
        SetShellCommand(ToolKey(outputIndex), index, command, authoritative);
      }
      NamedEdited(a, key, ToolStart(itemID), [Touch(at), Replace(ToolTypeText, "shell_call")]);
      PerformOne(a, ShellAction(outputIndex, index, itemID, command, at, authoritative), at);
    }

    method SetShellCommand(key: Key, index: int, command: Bytes, authoritative: bool)
      modifies this`states, this`createdParts, this`limited
      ensures Value() == EditShell(old(Value()), key, index, command, authoritative)
    {
      if key !in states {
        return;
      }
      var state := states[key];
      if index !in state.shell {
        if createdParts >= MAX_STREAM_OUTPUT_PARTS {
          limited := true;
          return;
        }
        createdParts := createdParts + 1;
      }
      states := states[key := ShellPartChanged(state, index, command, authoritative, limit)];
    }

    /** A loop over the live parts that edits those that match; `goal` names what they become. */
    method EditEach(matches: Key -> bool, edit: StreamParts.Edit, ghost goal: map<Key, State>)
      requires goal.Keys == states.Keys
      requires forall k :: k in states ==> goal[k] == if matches(k) then ApplyEdit(states[k], edit, limit)
           else states[k]
      modifies this`states
      ensures states == goal
    {
      var rest := states.Keys;
      while rest != {}
        invariant rest <= states.Keys == goal.Keys
        invariant forall k :: k in rest ==> states[k] == old(states)[k]
        invariant forall k :: k in states.Keys - rest ==> states[k] == goal[k]
        decreases |rest|
      {
        var key :| key in rest;
        rest := rest - {key};
        if matches(key) {
          states := states[key := ApplyEdit(states[key], edit, limit)];
        }
      }
    }

    method SetChoiceFinishReason(source: Source, index: int, reason: Bytes)
      modifies this`states
      ensures Value() == ChoiceReasonSet(old(Value()), source, index, reason)
    {
      EditEach((k: Key) => k.source == source && k.choiceIndex == index, Replace(FinishReasonText, reason),
        ChoiceReasonSet(Value(), source, index, reason).states);
    }

    method MarkResponseOutputStatus(outputIndex: int, status: Bytes, error: Option<Bytes>)
      modifies this`states
      ensures Value() == OutputMarked(old(Value()), outputIndex, status, error)
    {
      EditEach((k: Key) => k.source == Responses && k.outputIndex == outputIndex, ApplyOutputStatus(status, error),
        OutputMarked(Value(), outputIndex, status, error).states);
    }

    // ---------- Finishing ----------

    method FinishKey(key: Key, at: int, v: Verdict) returns (output: Option<Output>)
      modifies this`states, this`finished, this`finishedGroups
      ensures (Value(), OutputsOf(output)) == StreamAssembly.FinishKey(old(Value()), key, at, v)
    {
      if key !in states {
        return None;
      }
      var state := states[key];
      states := states - {key};
      if !HasData(state) {
        return None;
      }
      finished := finished + {key};
      finishedGroups := finishedGroups + {GroupOf(key)};
      var out := FinishState(state, at, v, limit);
      return Some(out.(
        observationLimited := limited || (decodeFailed && v.complete),
        protocolIncomplete := out.protocolIncomplete || (terminalIncomplete && !out.complete)));
    }

    /** The loops that finish a sorted list of parts. */
    method FinishInOrder(keys: seq<Key>, at: int, v: Verdict) returns (outputs: seq<Output>)
      modifies this`states, this`finished, this`finishedGroups
      ensures (Value(), outputs) == FinishKeys(old(Value()), keys, at, v)
    {
      outputs := [];
      var i := 0;
      assert keys[0..] == keys;
      assert [] + FinishKeys(Value(), keys, at, v).1 == FinishKeys(Value(), keys, at, v).1;
      while i < |keys|
        invariant 0 <= i <= |keys|
        invariant var (b, o) := FinishKeys(Value(), keys[i..], at, v);
                  (b, outputs + o) == FinishKeys(old(Value()), keys, at, v)
      {
        KeysStep(Value(), keys, i, at, v, outputs);
        var output := FinishKey(keys[i], at, v);
        outputs := outputs + OutputsOf(output);
        i := i + 1;
      }
      assert keys[i..] == [];
      assert outputs + [] == outputs;
    }

    /** `selected` names the live keys that match. */
    method FinishMatching(matches: Key -> bool, ghost selected: set<Key>, at: int, v: Verdict)
      returns (outputs: seq<Output>)
      requires forall k :: k in selected <==> k in states && matches(k)
      modifies this`states, this`finished, this`finishedGroups
      ensures (Value(), outputs) == StreamAssembly.FinishMatching(old(Value()), selected, at, v)
    {
      var keys := RangeOver(states.Keys, matches);
      assert Elements(keys) == selected;
      KeyRankTotal(selected);
      SortIsSortOf(keys, selected, KeyRank);
      outputs := FinishInOrder(Sort(keys, KeyRank), at, v);
    }

    method FinishResponseOutputKind(outputIndex: int, kind: Kind, at: int, v: Verdict) returns (outputs: seq<Output>)
      requires KeysOK(Value())
      modifies this`states, this`finished, this`finishedGroups
      ensures (Value(), outputs) == FinishOutputKind(old(Value()), outputIndex, kind, at, v)
    {
      var keys := RangeOver(states.Keys, (k: Key) => k.source == Responses && k.outputIndex == outputIndex
        && k.kind == kind);
      assert Elements(keys) == PartKeys(Value(), outputIndex, kind);
      PartRankTotal(Value(), outputIndex, kind);
      SortIsSortOf(keys, PartKeys(Value(), outputIndex, kind), PartRank);
      var parts := FinishInOrder(Sort(keys, PartRank), at, v);
      if |parts| == 0 {
        return [];
      }
      var merged := MergeResponseOutputs(parts, at);
      return [merged];
    }

    method MergeResponseOutputs(parts: seq<Output>, at: int) returns (output: Output)
      requires parts != []
      ensures output == MergeOutputs(parts, at, limit, limited)
    {
      var labels := if |parts| > 1 then parts[0].labels.(content := None) else parts[0].labels;
      var state := NewState(parts[0].kind, labels).(started := true, start := parts[0].start);
      var merged, v, truncated, observationLimited, protocolIncomplete := MergeParts(state, parts);
      output := FinishState(merged, at, v, limit);
      output := output.(truncated := output.truncated || truncated, observationLimited := observationLimited,
        protocolIncomplete := protocolIncomplete);
    }

    /** The loop of the merge. */
    method MergeParts(state: State, parts: seq<Output>)
      returns (merged: State, v: Verdict, truncated: bool, observationLimited: bool, protocolIncomplete: bool)
      ensures merged == MergeState(state, parts, limit) && v == MergeVerdict(Verdict(true, false, ""), parts)
      ensures truncated <==> exists p :: p in parts && p.truncated
      ensures observationLimited <==> limited || exists p :: p in parts && p.observationLimited
      ensures protocolIncomplete <==> exists p :: p in parts && p.protocolIncomplete
    {
      merged, v := state, Verdict(true, false, "");
      truncated, observationLimited, protocolIncomplete := false, limited, false;
      var i := 0;
      while i < |parts|
        invariant 0 <= i <= |parts|
        invariant MergeState(merged, parts[i..], limit) == MergeState(state, parts, limit)
        invariant MergeVerdict(v, parts[i..]) == MergeVerdict(Verdict(true, false, ""), parts)
        invariant truncated ==> exists p :: p in parts && p.truncated
        invariant observationLimited ==> limited || exists p :: p in parts && p.observationLimited
        invariant protocolIncomplete ==> exists p :: p in parts && p.protocolIncomplete
        invariant limited ==> observationLimited
        invariant forall j :: 0 <= j < i ==>
          && (parts[j].truncated ==> truncated)
          && (parts[j].observationLimited ==> observationLimited)
          && (parts[j].protocolIncomplete ==> protocolIncomplete)
      {
        merged, v := MergePart(merged, v, parts, i);
        truncated := truncated || parts[i].truncated;
        observationLimited := observationLimited || parts[i].observationLimited;
        protocolIncomplete := protocolIncomplete || parts[i].protocolIncomplete;
        i := i + 1;
      }
      assert parts[i..] == [];
    }

    method MergePart(state: State, v: Verdict, parts: seq<Output>, i: nat) returns (nextState: State, next: Verdict)
      requires i < |parts|
      ensures MergeState(nextState, parts[i + 1..], limit) == MergeState(state, parts[i..], limit)
      ensures MergeVerdict(next, parts[i + 1..]) == MergeVerdict(v, parts[i..])
    {
      var part := parts[i];
      assert parts[i..][0] == part && parts[i..][1..] == parts[i + 1..];
      nextState, next := state, v;
      if part.start < state.start {
        nextState := state.(start := part.start);
      }
      nextState := ApplyEdits(nextState, MergeEdits(part), limit);
      if part.failed {
        next := Verdict(false, true, if part.errorMessage != "" then part.errorMessage else v.message);
      } else if !part.complete {
        next := v.(complete := false);
      }
    }

    method FinishResponseOutputs(outputs: seq<(int, Kind)>, at: int, v: Verdict) returns (finishedOutputs: seq<Output>)
      requires Core(Value()) && VerdictOK(v)
      modifies this`states, this`finished, this`finishedGroups
      ensures (Value(), finishedOutputs) == FinishOutputKinds(old(Value()), outputs, at, v)
    {
      finishedOutputs := [];
      var i := 0;
      assert outputs[0..] == outputs;
      assert [] + FinishOutputKinds(Value(), outputs, at, v).1 == FinishOutputKinds(Value(), outputs, at, v).1;
      while i < |outputs|
        invariant 0 <= i <= |outputs| && Core(Value())
        invariant var (b, o) := FinishOutputKinds(Value(), outputs[i..], at, v);
                  (b, finishedOutputs + o) == FinishOutputKinds(old(Value()), outputs, at, v)
      {
        KindsStep(Value(), outputs, i, at, v, finishedOutputs);
        FinishOutputKindSafe(Value(), outputs[i].0, outputs[i].1, at, v);
        var o := FinishResponseOutputKind(outputs[i].0, outputs[i].1, at, v);
        finishedOutputs := finishedOutputs + o;
        i := i + 1;
      }
      assert outputs[i..] == [];
      assert finishedOutputs + [] == finishedOutputs;
    }

    method FinishResponseOutput(outputIndex: int, at: int, v: Verdict) returns (outputs: seq<Output>)
      requires Core(Value()) && VerdictOK(v)
      modifies this`states, this`finished, this`finishedGroups
      ensures (Value(), outputs) == FinishOutputKinds(old(Value()), KindsOf(outputIndex), at, v)
    {
      outputs := FinishResponseOutputs([(outputIndex, Reasoning), (outputIndex, Kind.Response),
        (outputIndex, ToolCall)], at, v);
    }

    method LiveResponseOutputs() returns (live: set<(int, Kind)>)
      ensures live == LiveOutputs(Value())
    {
      live := {};
      var rest := states.Keys;
      while rest != {}
        invariant rest <= states.Keys
        invariant live == set k | k in states.Keys - rest && k.source == Responses :: (k.outputIndex, k.kind)
        decreases |rest|
      {
        var key :| key in rest;
        rest := rest - {key};
        if key.source == Responses {
          live := live + {(key.outputIndex, key.kind)};
        }
      }
    }

    method FinishAll(at: int, v: Verdict) returns (outputs: seq<Output>)
      requires Core(Value()) && VerdictOK(v)
      modifies this`states, this`finished, this`finishedGroups
      ensures (Value(), outputs) == StreamAssembly.FinishAll(old(Value()), at, v)
    {
      var live := LiveResponseOutputs();
      var ordered := RangeOver(live, _ => true);
      assert Elements(ordered) == live;
      OutputRankTotal(live);
      SortIsSortOf(ordered, live, OutputRank);
      var merged := FinishResponseOutputs(Sort(ordered, OutputRank), at, v);
      var single := FinishMatching((k: Key) => k.source != Responses, OtherKeys(Value()), at, v);
      return merged + single;
    }

    method FinishChoice(source: Source, index: int, at: int, reason: Bytes) returns (outputs: seq<Output>)
      modifies this`states, this`finished, this`finishedGroups, this`finishedChoices, this`limited
      ensures (Value(), outputs) == FinishChoiceOf(old(Value()), source, index, at, reason)
    {
      if (source, index) in finishedChoices {
        return [];
      }
      if |finishedChoices| >= MAX_STREAM_OUTPUT_STATES {
        limited := true;
        return [];
      }
      finishedChoices := finishedChoices + {(source, index)};
      SetChoiceFinishReason(source, index, reason);
      outputs := FinishMatching((k: Key) => k.source == source && k.choiceIndex == index,
        ChoiceKeys(Value(), source, index), at, Verdict(true, false, ""));
    }

    // ---------- Events ----------

    method ObserveChat(event: Event, at: int, finishOutputs: bool) returns (outputs: seq<Output>)
      requires Core(Value())
      modifies this
      ensures (Value(), outputs) == ObserveChoices(old(Value()), event.choices, 0, at, finishOutputs) && Core(Value())
    {
      outputs := ObserveEach(event.choices, at, finishOutputs);
    }

    method ObserveEach(choices: seq<Choice>, at: int, finishOutputs: bool) returns (outputs: seq<Output>)
      requires Core(Value())
      modifies this
      ensures (Value(), outputs) == ObserveChoices(old(Value()), choices, 0, at, finishOutputs) && Core(Value())
    {
      ghost var goal := ObserveChoices(Value(), choices, 0, at, finishOutputs);
      outputs := [];
      var position := 0;
      assert choices[0..] == choices;
      assert [] + goal.1 == goal.1;
      while position < |choices|
        invariant 0 <= position <= |choices| && Core(Value())
        invariant var (b, o) := ObserveChoices(Value(), choices[position..], position, at, finishOutputs);
                  (b, outputs + o) == goal
      {
        ChoicesStep(Value(), choices, position, at, finishOutputs, outputs);
        var o := ObserveChoice(choices[position], position, at, finishOutputs);
        outputs := outputs + o;
        position := position + 1;
      }
      assert choices[position..] == [];
      assert outputs + [] == outputs;
    }

    /** One turn of the loop over the choices; a choice that has finished is skipped. */
    method ObserveChoice(choice: Choice, position: nat, at: int, finishOutputs: bool) returns (outputs: seq<Output>)
      requires Core(Value())
      modifies this
      ensures Core(Value())
      ensures (Value(), outputs) == ChoiceTurn(old(Value()), choice, position, at, finishOutputs)
    {
      var index := Index(choice.index, position);
      if (Chat, index) in finishedChoices {
        return [];
      }
      ghost var a := Value();
      ChoiceActionsOK(choice, index, at, finishOutputs);
      PerformAllSafe(a, ChoiceActions(choice, index, at, finishOutputs), at);
      if choice.delta.Some? {
        ObserveDelta(choice.delta.value, index, at);
      }
      TellPart(ChatKey(Kind.Response, index, -1), ContentText, choice.text, at);
      ghost var x := if choice.delta.None? then [] else DeltaActions(choice.delta.value, index, at);
      QuietFirst(a, x, ChoiceTextActions(choice, index, at), at);
      QuietFirst(a, x + ChoiceTextActions(choice, index, at), ChoiceReasonActions(choice, index, finishOutputs), at);
      if choice.finishReason.Some? {
        outputs := Conclude(Chat, index, at, choice.finishReason.value, finishOutputs);
      } else {
        outputs := [];
      }
    }

    /** A text that is not empty is appended to its part, which is touched first. */
    method TellPart(key: Key, field: Field, s: Bytes, at: int)
      modifies this`states, this`groups, this`createdParts, this`limited
      ensures (Value(), []) == PerformAll(old(Value()), Tell(key, field, s, at), at)
    {
      ghost var a := Value();
      if s != "" {
        Update(key, [Touch(at), AppendTo(field, s)]);
        PerformOne(a, Action.Update(key, [Touch(at), AppendTo(field, s)]), at);
      }
    }

    /** A choice ends, or only learns its finish reason when the event failed. */
    method Conclude(source: Source, index: int, at: int, reason: Bytes, finishOutputs: bool)
      returns (outputs: seq<Output>)
      modifies this`states, this`finished, this`finishedGroups, this`finishedChoices, this`limited
      ensures (Value(), outputs) == PerformAll(old(Value()),
                [if finishOutputs then Action.FinishChoice(source, index, reason)
                  else SetChoiceReason(source, index, reason)], at)
    {
      ghost var a := Value();
      if finishOutputs {
        outputs := FinishChoice(source, index, at, reason);
        PerformOne(a, Action.FinishChoice(source, index, reason), at);
      } else {
        SetChoiceFinishReason(source, index, reason);
        outputs := [];
        PerformOne(a, SetChoiceReason(source, index, reason), at);
      }
    }

    method ObserveDelta(delta: Delta, choiceIndex: int, at: int)
      modifies this`states, this`groups, this`createdParts, this`limited
      ensures (Value(), []) == PerformAll(old(Value()), DeltaActions(delta, choiceIndex, at), at)
    {
      ghost var a := Value();
      ObserveDeltaText(delta, choiceIndex, at);
      ObserveToolCalls(delta.toolCalls, choiceIndex, at);
      ghost var x, y := DeltaTextActions(delta, choiceIndex, at), ToolActions(delta.toolCalls, 0, choiceIndex, at);
      QuietFirst(a, x, y, at);
      QuietFirst(a, x + y, FunctionCallActions(delta.functionCall, choiceIndex, at), at);
      if delta.functionCall.Some? {
        ObserveFunctionCall(delta.functionCall.value, choiceIndex, at);
      }
    }

    method ObserveDeltaText(delta: Delta, choiceIndex: int, at: int)
      modifies this`states, this`groups, this`createdParts, this`limited
      ensures (Value(), []) == PerformAll(old(Value()), DeltaTextActions(delta, choiceIndex, at), at)
    {
      ghost var a := Value();
      var reasoning := delta.reasoningContent;
      if reasoning == "" {
        reasoning := delta.reasoning;
      }
      TellPart(ChatKey(Reasoning, choiceIndex, -1), ReasoningText, reasoning, at);
      QuietFirst(a, Tell(ChatKey(Reasoning, choiceIndex, -1), ReasoningText, reasoning, at),
        SpeechActions(delta, choiceIndex, at), at);
      if delta.content != "" || delta.refusal != "" {
        ghost var b := Value();
        var key := ChatKey(Kind.Response, choiceIndex, -1);
        Update(key, [Touch(at), AppendTo(ContentText, delta.content), AppendTo(RefusalText, delta.refusal)]);
        PerformOne(b, SpeechActions(delta, choiceIndex, at)[0], at);
      }
    }

    method ObserveToolCalls(tools: seq<ToolPart>, choiceIndex: int, at: int)
      modifies this`states, this`groups, this`createdParts, this`limited
      ensures (Value(), []) == PerformAll(old(Value()), ToolActions(tools, 0, choiceIndex, at), at)
    {
      ghost var a := Value();
      ghost var goal := PerformAll(a, ToolActions(tools, 0, choiceIndex, at), at);
      var position := 0;
      assert tools[0..] == tools;
      while position < |tools|
        invariant 0 <= position <= |tools|
        invariant PerformAll(Value(), ToolActions(tools[position..], position, choiceIndex, at), at) == goal
      {
        ghost var b := Value();
        var key := ChatKey(ToolCall, choiceIndex, Index(tools[position].index, position));
        ObserveToolCall(tools[position], key, at);
        ToolsStep(b, tools, position, choiceIndex, at);
        position := position + 1;
      }
      assert tools[position..] == [];
    }

    /** One turn of the loop over the tool calls; the part is had even if the call is empty. */
    method ObserveToolCall(tool: ToolPart, key: Key, at: int)
      modifies this`states, this`groups, this`createdParts, this`limited
      ensures (Value(), []) == PerformAll(old(Value()), [Action.Update(key, ToolEdits(tool, at))], at)
    {
      PerformOne(Value(), Action.Update(key, ToolEdits(tool, at)), at);
      var ok := StateOf(key);
      if !ok {
        return;
      }
      var name, arguments := "", "";
      if tool.function_.Some? {
        name := tool.function_.value.name;
        arguments := tool.function_.value.arguments;
      }
      if tool.id == "" && tool.toolType == "" && name == "" && arguments == "" {
        NothingEdited(Value(), key);
        return;
      }
      Edit(key, [Touch(at), Replace(ToolIDText, tool.id), Replace(ToolTypeText, tool.toolType),
                 AppendTo(NameText, name), AppendTo(ArgumentsText, arguments)]);
    }

    method ObserveFunctionCall(call: Call, choiceIndex: int, at: int)
      modifies this`states, this`groups, this`createdParts, this`limited
      ensures (Value(), []) == PerformAll(old(Value()), FunctionCallActions(Some(call), choiceIndex, at), at)
    {
      if call.name != "" || call.arguments != "" {
        PerformOne(Value(), FunctionCallActions(Some(call), choiceIndex, at)[0], at);
        Update(ChatKey(ToolCall, choiceIndex, 0),
          [Touch(at), Replace(ToolTypeText, "function"), AppendTo(NameText, call.name),
            AppendTo(ArgumentsText, call.arguments)]);
      }
    }

    // ---------- Native events ----------

    method ObserveNative(event: Event, at: int, finishOutputs: bool) returns (outputs: seq<Output>)
      requires Core(Value())
      modifies this
      ensures (Value(), outputs) == PerformAll(old(Value()), NativeActions(event, at, finishOutputs), at)
           && Core(Value())
    {
      ghost var a := Value();
      NativeActionsOK(event, at, finishOutputs);
      PerformAllSafe(a, NativeActions(event, at, finishOutputs), at);
      outputs := [];
      if event.envelope.eventType != "" || |event.choices| != 0 {
        return;
      }
      var reasoning := event.reasoningContent;
      if reasoning == "" {
        reasoning := event.reasoning;
      }
      TellPart(NativeKey(Reasoning), ReasoningText, reasoning, at);
      TellPart(NativeKey(Kind.Response), ContentText, event.content, at);
      ghost var x := Tell(NativeKey(Reasoning), ReasoningText, reasoning, at);
      ghost var y := Tell(NativeKey(Kind.Response), ContentText, event.content, at);
      QuietFirst(a, x, y, at);
      QuietFirst(a, x + y, NativeStopActions(event, finishOutputs), at);
      if event.envelope.stop {
        var reason := event.stopType;
        if reason == "" {
          reason := "stop";
        }
        outputs := Conclude(Native, 0, at, reason, finishOutputs);
      }
    }

    // ---------- Responses events ----------

    method UpdateResponsePart(key: Key, itemID: Bytes, edits: seq<StreamParts.Edit>, at: int)
      modifies this`states, this`groups, this`createdParts, this`limited
      ensures (Value(), []) == PerformAll(old(Value()), [Action.Update(key, [Replace(ItemIDText, itemID)] + edits)], at)
    {
      NamedEdited(Value(), key, [Replace(ItemIDText, itemID)], edits);
      PerformOne(Value(), Action.Update(key, [Replace(ItemIDText, itemID)] + edits), at);
      var ok := ResponsePartState(key, itemID);
      if ok {
        Edit(key, edits);
      }
    }

    method UpdateResponseTool(outputIndex: int, itemID: Bytes, edits: seq<StreamParts.Edit>, at: int)
      modifies this`states, this`groups, this`createdParts, this`limited
      ensures (Value(), []) == PerformAll(old(Value()), [UpdateTool(outputIndex, itemID, edits)], at)
    {
      NamedEdited(Value(), ToolKey(outputIndex), ToolStart(itemID), edits);
      PerformOne(Value(), UpdateTool(outputIndex, itemID, edits), at);
      var ok := ResponseToolState(outputIndex, itemID);
      if ok {
        Edit(ToolKey(outputIndex), edits);
      }
    }

    method AppendResponseText(kind: Kind, field: Field, outputIndex: int, contentIndex: int, itemID: Bytes,
            text: Bytes, at: int)
      modifies this`states, this`groups, this`createdParts, this`limited
      ensures (Value(), [])
           == PerformAll(old(Value()), AppendToPart(kind, field, outputIndex, contentIndex, itemID, text, at), at)
    {
      if text != "" {
        UpdateResponsePart(ResponsesKey(kind, outputIndex, contentIndex), itemID,
          [Touch(at), AppendTo(field, text)], at);
      }
    }

    method AppendResponseTool(outputIndex: int, itemID: Bytes, toolType: Bytes, name: Bytes, text: Bytes, at: int)
      modifies this`states, this`groups, this`createdParts, this`limited
      ensures (Value(), [])
           == PerformAll(old(Value()), [AppendToTool(outputIndex, itemID, toolType, name, text, at)], at)
    {
      UpdateResponseTool(outputIndex, itemID,
        [Touch(at), Replace(ToolTypeText, toolType), Replace(NameText, name), AppendTo(ArgumentsText, text)], at);
    }

    method SetResponseTool(outputIndex: int, itemID: Bytes, toolType: Bytes, name: Bytes, text: Bytes, at: int)
      modifies this`states, this`groups, this`createdParts, this`limited
      ensures (Value(), [])
           == PerformAll(old(Value()), [ReplaceTool(outputIndex, itemID, toolType, name, text, at)], at)
    {
      UpdateResponseTool(outputIndex, itemID,
        [Touch(at), Replace(ToolTypeText, toolType), Replace(NameText, name), Replace(ArgumentsText, text)], at);
    }

    method ObserveResponsePart(part: Part, outputIndex: int, contentIndex: int, itemID: Bytes, at: int,
            authoritative: bool)
      modifies this`states, this`groups, this`createdParts, this`limited
      ensures (Value(), []) == PerformAll(old(Value()),
           PartActions(part, outputIndex, contentIndex, itemID, at, authoritative), at)
    {
      var kind := PartKind(part);
      var value := part.text;
      if value == "" {
        value := part.refusal;
      }
      if value == "" && !authoritative {
        return;
      }
      var field, text := ContentText, part.text;
      if kind == Reasoning {
        field := ReasoningText;
      } else if part.refusal != "" {
        field, text := RefusalText, part.refusal;
      }
      var touch := if value == "" then [] else [Touch(at)];
      if authoritative {
        UpdateResponsePart(ResponsesKey(kind, outputIndex, contentIndex), itemID,
          touch + [Replace(field, text), ApplyStatus(part.status, part.error)], at);
      } else {
        UpdateResponsePart(ResponsesKey(kind, outputIndex, contentIndex), itemID, touch + [AppendTo(field, text)], at);
      }
    }

    method ObserveResponseSummaryPart(part: Part, outputIndex: int, summaryIndex: int, itemID: Bytes, at: int,
            authoritative: bool)
      modifies this`states, this`groups, this`createdParts, this`limited
      ensures (Value(), [])
           == PerformAll(old(Value()),
                [SummaryPartAction(part, outputIndex, summaryIndex, itemID, at, authoritative)], at)
    {
      var edits := [];
      if part.text != "" {
        edits := [Touch(at), if authoritative then Replace(ReasoningText, part.text)
          else AppendTo(ReasoningText, part.text)];
      }
      var status := if authoritative then [ApplyStatus(part.status, part.error)] else [];
      UpdateResponsePart(SummaryKey(outputIndex, summaryIndex), itemID, edits + status, at);
    }

    method ObserveContent(parts: seq<Part>, outputIndex: int, itemID: Bytes, at: int, authoritative: bool)
      modifies this`states, this`groups, this`createdParts, this`limited
      ensures (Value(), [])
           == PerformAll(old(Value()), PartsActions(parts, 0, outputIndex, itemID, at, authoritative), at)
    {
      ghost var a := Value();
      ghost var goal := PerformAll(a, PartsActions(parts, 0, outputIndex, itemID, at, authoritative), at);
      var i := 0;
      assert parts[0..] == parts;
      while i < |parts|
        invariant 0 <= i <= |parts|
        invariant PerformAll(Value(), PartsActions(parts[i..], i, outputIndex, itemID, at, authoritative), at) == goal
      {
        ghost var b := Value();
        ObserveResponsePart(parts[i], outputIndex, i, itemID, at, authoritative);
        PartsStep(b, parts, i, outputIndex, itemID, at, authoritative);
        i := i + 1;
      }
      assert parts[i..] == [];
    }

    method ObserveSummary(parts: seq<Part>, outputIndex: int, itemID: Bytes, at: int, authoritative: bool)
      modifies this`states, this`groups, this`createdParts, this`limited
      ensures (Value(), []) == PerformAll(old(Value()),
           SummariesActions(parts, 0, outputIndex, itemID, at, authoritative), at)
    {
      ghost var a := Value();
      ghost var goal := PerformAll(a, SummariesActions(parts, 0, outputIndex, itemID, at, authoritative), at);
      var i := 0;
      assert parts[0..] == parts;
      while i < |parts|
        invariant 0 <= i <= |parts|
        invariant PerformAll(Value(), SummariesActions(parts[i..], i, outputIndex, itemID, at, authoritative), at)
             == goal
      {
        ghost var b := Value();
        ObserveResponseSummaryPart(parts[i], outputIndex, i, itemID, at, authoritative);
        SummariesStep(b, parts, i, outputIndex, itemID, at, authoritative);
        i := i + 1;
      }
      assert parts[i..] == [];
    }

    method ObserveResponseItem(item: Item, outputIndex: int, at: int, authoritative: bool)
      modifies this`states, this`groups, this`createdParts, this`limited
      ensures (Value(), []) == PerformAll(old(Value()), ItemActions(item, outputIndex, at, authoritative), at)
    {
      ghost var a := Value();
      if item.itemType == "message" {
        ObserveContent(item.content, outputIndex, item.id, at, authoritative);
      } else if item.itemType == "reasoning" {
        ObserveContent(item.content, outputIndex, item.id, at, authoritative);
        ObserveSummary(item.summary, outputIndex, item.id, at, authoritative);
        QuietFirst(a, PartsActions(item.content, 0, outputIndex, item.id, at, authoritative),
          SummariesActions(item.summary, 0, outputIndex, item.id, at, authoritative), at);
      } else {
        ObserveToolItem(item, outputIndex, at, authoritative);
      }
    }

    method ObserveToolItem(item: Item, outputIndex: int, at: int, authoritative: bool)
      requires item.itemType != "message" && item.itemType != "reasoning"
      modifies this`states, this`groups, this`createdParts, this`limited
      ensures (Value(), []) == PerformAll(old(Value()), ItemActions(item, outputIndex, at, authoritative), at)
    {
      if !HasSuffix(item.itemType, "_call") && item.itemType != "program" {
        return;
      }
      var toolID := item.callID;
      if toolID == "" {
        toolID := item.id;
      }
      var edits := [Touch(at), Replace(ToolIDText, toolID), Replace(ToolTypeText, item.itemType),
        Replace(NameText, item.name)];
      if authoritative {
        var settled := [Replace(ArgumentsText, item.arguments), SetAuthoritative(item.arguments != ""),
                        ApplyOutputStatus(item.status, item.error)];
        var completed := [];
        if item.itemType == "program" {
          completed := [SetCompleted];
        }
        UpdateResponseTool(outputIndex, item.id, edits + (settled + completed), at);
      } else {
        UpdateResponseTool(outputIndex, item.id, edits + [AppendTo(ArgumentsText, item.arguments)], at);
      }
    }

    /** An output ends; an item that came with it brings its last values and the status of its parts. */
    method ObserveItemDone(item: Option<Item>, outputIndex: int, at: int) returns (outputs: seq<Output>)
      requires Core(Value())
      modifies this
      ensures (Value(), outputs) == PerformAll(old(Value()), ItemDoneActions(item, outputIndex, at), at)
    {
      if item.Some? {
        outputs := FinishItem(item.value, outputIndex, at);
      } else {
        outputs := EndOutput(outputIndex, at, Verdict(true, false, ""));
      }
    }

    method EndOutput(outputIndex: int, at: int, v: Verdict) returns (outputs: seq<Output>)
      requires Core(Value()) && VerdictOK(v)
      modifies this`states, this`finished, this`finishedGroups
      ensures (Value(), outputs) == PerformAll(old(Value()), [FinishOutput(outputIndex, v)], at)
    {
      PerformFinish(Value(), outputIndex, v, at);
      PerformOne(Value(), FinishOutput(outputIndex, v), at);
      outputs := FinishResponseOutput(outputIndex, at, v);
    }

    method FinishItem(item: Item, outputIndex: int, at: int) returns (outputs: seq<Output>)
      requires Core(Value())
      modifies this
      ensures (Value(), outputs) == PerformAll(old(Value()), ItemDoneActions(Some(item), outputIndex, at), at)
    {
      var (complete, failed, message) := Status(item.status, item.error);
      var v := Verdict(complete, failed, message);
      SettleItem(item, outputIndex, at, v);
      outputs := FinishResponseOutput(outputIndex, at, v);
    }

    /** What comes before the end of the output: the values of the item and the status of its parts. */
    method SettleItem(item: Item, outputIndex: int, at: int, ghost v: Verdict)
      requires Core(Value()) && (v.complete, v.failed, v.message) == Status(item.status, item.error)
      modifies this`states, this`groups, this`createdParts, this`limited
      ensures Core(Value())
      ensures FinishOutputKinds(Value(), KindsOf(outputIndex), at, v)
           == PerformAll(old(Value()), ItemDoneActions(Some(item), outputIndex, at), at)
    {
      ghost var a := Value();
      ItemActionsOK(item, outputIndex, at, true);
      PerformAllSafe(a, ItemActions(item, outputIndex, at, true), at);
      ObserveResponseItem(item, outputIndex, at, true);
      OutputMarkedSafe(Value(), outputIndex, item.status, item.error);
      MarkResponseOutputStatus(outputIndex, item.status, item.error);
      SettledThenFinished(a, item, outputIndex, v, at);
    }

    /** The cases of the switch that append what an event brings. */
    method ObserveDeltaKind(kind: EventKind, event: Event, at: int)
      requires IsDeltaKind(kind)
      modifies this`states, this`groups, this`createdParts, this`limited
      ensures (Value(), []) == PerformAll(old(Value()), KindActions(kind, event, at), at)
    {
      var output, content, id := Index(event.indexes.output, 0), Index(event.indexes.content, 0), event.itemID;
      match kind
      case TextDelta => AppendResponseText(Kind.Response, ContentText, output, content, id, event.delta, at);
      case RefusalDelta => AppendResponseText(Kind.Response, RefusalText, output, content, id, event.delta, at);
      case ReasoningDelta => AppendResponseText(Reasoning, ReasoningText, output, content, id, event.delta, at);
      case SummaryDelta =>
        if event.delta != "" {
          UpdateResponsePart(SummaryKey(output, Index(event.indexes.summary, 0)), id,
            [Touch(at), AppendTo(ReasoningText, event.delta)], at);
        }
      case FunctionDelta => AppendResponseTool(output, id, "function_call", "", event.delta, at);
      case CustomToolDelta => AppendResponseTool(output, id, "custom_tool_call", "", event.delta, at);
      case MCPDelta => AppendResponseTool(output, id, "mcp_call", event.name, event.delta, at);
      case CodeDelta => AppendResponseTool(output, id, "code_interpreter_call", "", event.delta, at);
      case ShellCommand => ObserveShellCommand(output, Index(event.indexes.command, 0), id, event.command, at, true);
      case ShellDelta => ObserveShellCommand(output, Index(event.indexes.command, 0), id, event.delta, at, false);
    }

    /** The cases of the switch that set a text of a message or of reasoning. */
    method ObserveTextDone(kind: EventKind, event: Event, at: int)
      requires kind.TextDone? || kind.RefusalDone? || kind.ReasoningDone? || kind.SummaryDone?
      modifies this`states, this`groups, this`createdParts, this`limited
      ensures (Value(), []) == PerformAll(old(Value()), KindActions(kind, event, at), at)
    {
      var output, content := Index(event.indexes.output, 0), Index(event.indexes.content, 0);
      var key, edit := ResponsesKey(Kind.Response, output, content), Replace(ContentText, event.text);
      match kind {
        case TextDone =>
        case RefusalDone =>
          var value := event.refusal;
          if value == "" {
            value := event.text;
          }
          edit := Replace(RefusalText, value);
        case ReasoningDone =>
          key, edit := ResponsesKey(Reasoning, output, content), Replace(ReasoningText, event.text);
        case SummaryDone =>
          key, edit := SummaryKey(output, Index(event.indexes.summary, 0)), Replace(ReasoningText, event.text);
      }
      UpdateResponsePart(key, event.itemID, [Touch(at), edit], at);
    }

    /** The cases of the switch that set the arguments of a tool. */
    method ObserveToolDone(kind: EventKind, event: Event, at: int)
      requires kind.FunctionDone? || kind.CustomToolDone? || kind.MCPDone? || kind.CodeDone?
      modifies this`states, this`groups, this`createdParts, this`limited
      ensures (Value(), []) == PerformAll(old(Value()), KindActions(kind, event, at), at)
    {
      var output, id := Index(event.indexes.output, 0), event.itemID;
      match kind
      case FunctionDone => SetResponseTool(output, id, "function_call", event.name, event.arguments, at);
      case CustomToolDone => SetResponseTool(output, id, "custom_tool_call", event.name, event.input, at);
      case MCPDone => SetResponseTool(output, id, "mcp_call", event.name, event.arguments, at);
      case CodeDone => SetResponseTool(output, id, "code_interpreter_call", "", event.codeText, at);
    }

    /** The cases of the switch for parts. */
    method ObservePartKind(kind: EventKind, event: Event, at: int)
      requires IsPartKind(kind) && !kind.ItemAdded?
      modifies this`states, this`groups, this`createdParts, this`limited
      ensures (Value(), []) == PerformAll(old(Value()), KindActions(kind, event, at), at)
    {
      var output, content, id := Index(event.indexes.output, 0), Index(event.indexes.content, 0), event.itemID;
      match kind
      case PartAdded =>
        if event.part.Some? {
          ObserveResponsePart(event.part.value, output, content, id, at, false);
        }
      case PartDone =>
        if event.part.Some? {
          ObserveResponsePart(PartWithStatus(event.part.value, event), output, content, id, at, true);
        }
      case SummaryPartAdded =>
        if event.part.Some? {
          ObserveResponseSummaryPart(event.part.value, output, Index(event.indexes.summary, 0), id, at, false);
        }
      case SummaryPartDone =>
        if event.part.Some? {
          ObserveResponseSummaryPart(PartWithStatus(event.part.value, event), output, Index(event.indexes.summary, 0),
            id, at, true);
        }
    }

    /** The switch over the type of the event. */
    method ObserveKind(kind: EventKind, event: Event, at: int) returns (outputs: seq<Output>)
      requires Core(Value())
      modifies this
      ensures (Value(), outputs) == PerformAll(old(Value()), KindActions(kind, event, at), at)
    {
      outputs := [];
      if IsDeltaKind(kind) {
        ObserveDeltaKind(kind, event, at);
      } else if kind.TextDone? || kind.RefusalDone? || kind.ReasoningDone? || kind.SummaryDone? {
        ObserveTextDone(kind, event, at);
      } else if IsDoneKind(kind) {
        ObserveToolDone(kind, event, at);
      } else if kind.ItemAdded? {
        if event.item.Some? {
          ObserveResponseItem(event.item.value, Index(event.indexes.output, 0), at, false);
        }
      } else if IsPartKind(kind) {
        ObservePartKind(kind, event, at);
      } else if kind.ItemDone? {
        outputs := ObserveItemDone(event.item, Index(event.indexes.output, 0), at);
      }
    }

    /** A status of a tool that the type of the event reports; only a live part takes it. */
    method ObserveLifecycle(event: Event, outputIndex: int, at: int)
      modifies this`states
      ensures (Value(), []) == PerformAll(old(Value()), LifecycleActions(event, outputIndex), at)
    {
      var lifecycle := ToolLifecycle(event.envelope.eventType);
      if lifecycle.Some? {
        var (toolType, status) := lifecycle.value;
        PerformOne(Value(), LifecycleActions(event, outputIndex)[0], at);
        Edit(ToolKey(outputIndex), ToolStart(event.itemID)
          + [Replace(ToolTypeText, toolType), Replace(NameText, event.name),
             ApplyStatus(status, event.envelope.error), LifecycleMessage(event.envelope.message)]);
      }
    }

    /** The items of a final response. */
    method ObserveFinalItems(items: seq<Item>, at: int)
      modifies this`states, this`groups, this`createdParts, this`limited
      ensures (Value(), []) == PerformAll(old(Value()), FinalItemsActions(items, 0, at), at)
    {
      ghost var a := Value();
      ghost var goal := PerformAll(a, FinalItemsActions(items, 0, at), at);
      var i := 0;
      assert items[0..] == items;
      while i < |items|
        invariant 0 <= i <= |items|
        invariant PerformAll(Value(), FinalItemsActions(items[i..], i, at), at) == goal
      {
        ghost var b := Value();
        ObserveFinalItem(items[i], i, at);
        FinalItemsStep(b, items, i, at);
        i := i + 1;
      }
      assert items[i..] == [];
    }

    method ObserveFinalItem(item: Item, position: nat, at: int)
      modifies this`states, this`groups, this`createdParts, this`limited
      ensures (Value(), [])
           == PerformAll(old(Value()), ItemActions(item, position, at, true)
             + [MarkOutput(position, item.status, item.error)], at)
    {
      ghost var a := Value();
      ObserveResponseItem(item, position, at, true);
      QuietFirst(a, ItemActions(item, position, at, true), [MarkOutput(position, item.status, item.error)], at);
      PerformOne(Value(), MarkOutput(position, item.status, item.error), at);
      MarkResponseOutputStatus(position, item.status, item.error);
    }

    method ObserveResponses(event: Event, at: int) returns (outputs: seq<Output>)
      requires Core(Value())
      modifies this
      ensures (Value(), outputs) == PerformAll(old(Value()), ResponsesActions(event, at), at) && Core(Value())
    {
      ghost var a := Value();
      ResponsesActionsOK(event, at);
      PerformAllSafe(a, ResponsesActions(event, at), at);
      var t := event.envelope.eventType;
      if t == "" {
        return [];
      }
      var outputIndex := Index(event.indexes.output, 0);
      outputs := ObserveKind(EventKindOf(t), event, at);
      ObserveLifecycle(event, outputIndex, at);
      ghost var x, y := TypedActions(event, at), LifecycleActions(event, outputIndex);
      QuietLast(a, x, y, at);
      if event.envelope.response.Some? && (t == "response.completed" || t == "response.failed"
           || t == "response.incomplete") {
        ObserveFinalItems(event.envelope.response.value.output, at);
        QuietLast(a, x + y, FinalItemsActions(event.envelope.response.value.output, 0, at), at);
      } else {
        QuietLast(a, x + y, [], at);
      }
    }

    method ObserveDecodedEvent(event: Event, at: int) returns (outputs: seq<Output>)
      requires Core(Value())
      modifies this
      ensures (Value(), outputs) == ObserveDecoded(old(Value()), event, at) && Core(Value())
    {
      var failed := EventFailed(event.envelope);
      var chat := ObserveChat(event, at, !failed);
      var native := ObserveNative(event, at, !failed);
      var responses := ObserveResponses(event, at);
      return chat + native + responses;
    }

    /** The end of the stream: the accumulator closes and finishes what is live. */
    method Close(t: Terminal, at: int) returns (outputs: seq<Output>)
      requires Core(Value()) && t.Terminal? && VerdictOK(EndVerdict(t))
      modifies this
      ensures (Value(), outputs) == StreamAssembly.FinishAll(CloseAt(old(Value()), t), at, EndVerdict(t))
    {
      if decodeFailed {
        limited := true;
      }
      if t.incomplete {
        terminalIncomplete := true;
      }
      closed := true;
      terminalObserved := true;
      outputs := FinishAll(at, EndVerdict(t));
    }

    method Observe(payload: StreamEvents.Payload, protocolTerminal: bool, at: int) returns (outputs: seq<Output>)
      requires Valid(Value())
      modifies this
      ensures (Value(), outputs) == StreamAssembly.Observe(old(Value()), payload, protocolTerminal, at)
           && Valid(Value())
    {
      ObserveSteps(Value(), payload, protocolTerminal, at);
      if closed {
        return [];
      }
      if protocolTerminal {
        outputs := Close(Terminal(false, false, ""), at);
        return;
      }
      if payload.NotJSON? || payload.event.None? {
        outputs := ObserveUndecoded(payload, at);
        return;
      }
      var event := payload.event.value;
      outputs := ObserveDecodedEvent(event, at);
      var t := EventEnd(event.envelope);
      if t.Terminal? {
        EventEndOK(event.envelope);
        var more := Close(t, at);
        outputs := outputs + more;
      }
    }

    method ObserveUndecoded(payload: StreamEvents.Payload, at: int) returns (outputs: seq<Output>)
      requires Core(Value()) && (payload.JSON? ==> payload.event.None?)
      modifies this
      ensures (Value(), outputs) ==
              if payload.NotJSON? then (old(Value()).(decodeFailed := true), [])
              else ObserveMisfit(old(Value()), payload, at)
    {
      decodeFailed := true;
      if payload.JSON? {
        limited := true;
      }
      var t := DecodeTerminal(payload);
      if t.NotTerminal? {
        return [];
      }
      DecodeTerminalOK(payload);
      outputs := Close(t, at);
    }

    method Finish(at: int) returns (outputs: seq<Output>)
      requires Valid(Value())
      modifies this
      ensures (Value(), outputs) == StreamAssembly.Finish(old(Value()), at) && Valid(Value())
    {
      ReceiveSteps(Value(), End(at));
      if closed {
        return [];
      }
      closed := true;
      outputs := FinishAll(at, Verdict(false, false, ""));
    }
  }

  ghost function ChoiceTurn(a: Acc, choice: Choice, position: nat, at: int, finishOutputs: bool): (Acc, seq<Output>) {
    var index := Index(choice.index, position);
    if (Chat, index) in a.finishedChoices then (a, [])
    else PerformAll(a, ChoiceActions(choice, index, at, finishOutputs), at)
  }

  /** The choices still to be observed after some outputs: one of them, then the rest. */
  lemma ChoicesStep(a: Acc, choices: seq<Choice>, position: nat, at: int, finishOutputs: bool, outputs: seq<Output>)
    requires position < |choices|
    ensures var (b, o) := ChoiceTurn(a, choices[position], position, at, finishOutputs);
            var (c, os) := ObserveChoices(b, choices[position + 1..], position + 1, at, finishOutputs);
            var (d, all) := ObserveChoices(a, choices[position..], position, at, finishOutputs);
            d == c && outputs + all == (outputs + o) + os
  {
    assert choices[position..][0] == choices[position] && choices[position..][1..] == choices[position + 1..];
    var (b, o) := ChoiceTurn(a, choices[position], position, at, finishOutputs);
    Associative(outputs, o, ObserveChoices(b, choices[position + 1..], position + 1, at, finishOutputs).1);
  }

  lemma KeysStep(a: Acc, keys: seq<Key>, i: nat, at: int, v: Verdict, outputs: seq<Output>)
    requires i < |keys|
    ensures var (b, o) := StreamAssembly.FinishKey(a, keys[i], at, v);
            var (c, os) := FinishKeys(b, keys[i + 1..], at, v);
            var (d, all) := FinishKeys(a, keys[i..], at, v);
            d == c && outputs + all == (outputs + o) + os
  {
    assert keys[i..][0] == keys[i] && keys[i..][1..] == keys[i + 1..];
    var (b, o) := StreamAssembly.FinishKey(a, keys[i], at, v);
    Associative(outputs, o, FinishKeys(b, keys[i + 1..], at, v).1);
  }

  lemma KindsStep(a: Acc, kinds: seq<(int, Kind)>, i: nat, at: int, v: Verdict, outputs: seq<Output>)
    requires i < |kinds|
    ensures var (b, o) := FinishOutputKind(a, kinds[i].0, kinds[i].1, at, v);
            var (c, os) := FinishOutputKinds(b, kinds[i + 1..], at, v);
            var (d, all) := FinishOutputKinds(a, kinds[i..], at, v);
            d == c && outputs + all == (outputs + o) + os
  {
    assert kinds[i..][0] == kinds[i] && kinds[i..][1..] == kinds[i + 1..];
    var (b, o) := FinishOutputKind(a, kinds[i].0, kinds[i].1, at, v);
    Associative(outputs, o, FinishOutputKinds(b, kinds[i + 1..], at, v).1);
  }

  lemma ToolsStep(a: Acc, tools: seq<ToolPart>, i: nat, choiceIndex: int, at: int)
    requires i < |tools|
    ensures var key := ChatKey(ToolCall, choiceIndex, Index(tools[i].index, i));
            var (b, o) := PerformAll(a, [Action.Update(key, ToolEdits(tools[i], at))], at);
            o == [] ==>
              PerformAll(a, ToolActions(tools[i..], i, choiceIndex, at), at)
              == PerformAll(b, ToolActions(tools[i + 1..], i + 1, choiceIndex, at), at)
  {
    assert tools[i..][0] == tools[i] && tools[i..][1..] == tools[i + 1..];
    var own := [Action.Update(ChatKey(ToolCall, choiceIndex, Index(tools[i].index, i)), ToolEdits(tools[i], at))];
    if PerformAll(a, own, at).1 == [] {
      QuietFirst(a, own, ToolActions(tools[i + 1..], i + 1, choiceIndex, at), at);
    }
  }

  lemma FinalItemsStep(a: Acc, items: seq<Item>, i: nat, at: int)
    requires i < |items|
    ensures var own := ItemActions(items[i], i, at, true) + [MarkOutput(i, items[i].status, items[i].error)];
            PerformAll(a, own, at).1 == [] ==>
              PerformAll(a, FinalItemsActions(items[i..], i, at), at)
              == PerformAll(PerformAll(a, own, at).0, FinalItemsActions(items[i + 1..], i + 1, at), at)
  {
    assert items[i..][0] == items[i] && items[i..][1..] == items[i + 1..];
    var own := ItemActions(items[i], i, at, true) + [MarkOutput(i, items[i].status, items[i].error)];
    if PerformAll(a, own, at).1 == [] {
      QuietFirst(a, own, FinalItemsActions(items[i + 1..], i + 1, at), at);
    }
  }

  /** An item that is done: its own actions, the status of its parts, and the end of the output. */
  lemma SettledThenFinished(a: Acc, item: Item, outputIndex: int, v: Verdict, at: int)
    requires PerformAll(a, ItemActions(item, outputIndex, at, true), at).1 == []
    requires (v.complete, v.failed, v.message) == Status(item.status, item.error)
    ensures var b := PerformAll(a, ItemActions(item, outputIndex, at, true), at).0;
            PerformAll(a, ItemDoneActions(Some(item), outputIndex, at), at)
            == FinishOutputKinds(OutputMarked(b, outputIndex, item.status, item.error), KindsOf(outputIndex), at, v)
  {
    MarkThenFinish(a, ItemActions(item, outputIndex, at, true), outputIndex, item.status, item.error, v, at);
  }

  lemma PartsStep(a: Acc, parts: seq<Part>, i: nat, outputIndex: int, itemID: Bytes, at: int, authoritative: bool)
    requires i < |parts|
    requires PerformAll(a, PartActions(parts[i], outputIndex, i, itemID, at, authoritative), at).1 == []
    ensures var b := PerformAll(a, PartActions(parts[i], outputIndex, i, itemID, at, authoritative), at).0;
            PerformAll(a, PartsActions(parts[i..], i, outputIndex, itemID, at, authoritative), at)
            == PerformAll(b, PartsActions(parts[i + 1..], i + 1, outputIndex, itemID, at, authoritative), at)
  {
    assert parts[i..][0] == parts[i] && parts[i..][1..] == parts[i + 1..];
    QuietFirst(a, PartActions(parts[i], outputIndex, i, itemID, at, authoritative),
      PartsActions(parts[i + 1..], i + 1, outputIndex, itemID, at, authoritative), at);
  }

  lemma SummariesStep(a: Acc, parts: seq<Part>, i: nat, outputIndex: int, itemID: Bytes, at: int, authoritative: bool)
    requires i < |parts|
    requires PerformAll(a, [SummaryPartAction(parts[i], outputIndex, i, itemID, at, authoritative)], at).1 == []
    ensures var b := PerformAll(a, [SummaryPartAction(parts[i], outputIndex, i, itemID, at, authoritative)], at).0;
            PerformAll(a, SummariesActions(parts[i..], i, outputIndex, itemID, at, authoritative), at)
            == PerformAll(b, SummariesActions(parts[i + 1..], i + 1, outputIndex, itemID, at, authoritative), at)
  {
    assert parts[i..][0] == parts[i] && parts[i..][1..] == parts[i + 1..];
    QuietFirst(a, [SummaryPartAction(parts[i], outputIndex, i, itemID, at, authoritative)],
      SummariesActions(parts[i + 1..], i + 1, outputIndex, itemID, at, authoritative), at);
  }

  // ---------- Parts that are named first ----------

  /** The part with its first edits, if it can be had. */
  function NamedPart(a: Acc, key: Key, start: seq<Edit>): (Acc, bool) {
    var (b, ok) := GetState(a, key);
    (if ok then EditPart(b, key, start) else b, ok)
  }

  lemma EditedTwice(a: Acc, key: Key, x: seq<Edit>, y: seq<Edit>)
    ensures EditPart(EditPart(a, key, x), key, y) == EditPart(a, key, x + y)
  {
    if key in a.states {
      ApplyEditsAppend(a.states[key], x, y, a.limit);
    }
  }

  lemma NamedEdited(a: Acc, key: Key, start: seq<Edit>, edits: seq<Edit>)
    ensures var (b, ok) := NamedPart(a, key, start);
            && UpdatePartOf(a, key, start + edits) == (if ok then EditPart(b, key, edits) else b)
            && (ok ==>
                  && GetState(a, key).1
                  && EditPart(GetState(a, key).0, key, start + edits) == EditPart(b, key, edits))
  {
    EditedTwice(GetState(a, key).0, key, start, edits);
  }

  lemma NothingEdited(a: Acc, key: Key)
    ensures EditPart(a, key, []) == a
  {
    if key in a.states {
      assert a.states[key := a.states[key]] == a.states;
    }
  }
}

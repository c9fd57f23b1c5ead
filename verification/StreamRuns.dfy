/**
 * Runs of the accumulator: any sequence of payloads, limit marks and ends keeps the invariant
 * and gives at most one output for each group.
 */
module StreamRuns {
  import opened Bytes
  import opened LimitedText
  import opened StreamEvents
  import opened StreamParts
  import opened StreamActions
  import opened StreamAssembly
  import opened StreamFinishing
  import opened StreamInvariants
  import opened StreamSafety

  // ---------- The actions that events make ----------

  predicate ActionOK(action: Action) {
    match action
    case Update(key, edits) => KeyOK(key) && (key.source != Responses ==> PlainEdits(edits))
    case Revise(key, edits) => key.source == Responses
    case FinishChoice(source, index, reason) => source != Responses
    case FinishOutput(outputIndex, v) => VerdictOK(v)
    case _ => true
  }

  predicate ActionsOK(actions: seq<Action>) {
    forall i :: 0 <= i < |actions| ==> ActionOK(actions[i])
  }

  lemma {:induction false} ToolActionsOK(tools: seq<ToolPart>, position: nat, choiceIndex: int, at: int)
    ensures ActionsOK(ToolActions(tools, position, choiceIndex, at))
    decreases |tools|
  {
    if tools != [] {
      ToolActionsOK(tools[1..], position + 1, choiceIndex, at);
    }
  }

  lemma DeltaActionsOK(delta: Delta, choiceIndex: int, at: int)
    ensures ActionsOK(DeltaActions(delta, choiceIndex, at))
  {
    ToolActionsOK(delta.toolCalls, 0, choiceIndex, at);
    assert ActionsOK(DeltaTextActions(delta, choiceIndex, at));
    assert ActionsOK(FunctionCallActions(delta.functionCall, choiceIndex, at));
  }

  lemma ChoiceActionsOK(choice: Choice, choiceIndex: int, at: int, finishOutputs: bool)
    ensures ActionsOK(ChoiceActions(choice, choiceIndex, at, finishOutputs))
  {
    if choice.delta.Some? {
      DeltaActionsOK(choice.delta.value, choiceIndex, at);
    }
    assert ActionsOK(ChoiceTextActions(choice, choiceIndex, at));
    assert ActionsOK(ChoiceReasonActions(choice, choiceIndex, finishOutputs));
  }

  lemma NativeActionsOK(event: Event, at: int, finishOutputs: bool)
    ensures ActionsOK(NativeActions(event, at, finishOutputs))
  {
  }

  lemma {:induction false} PartsActionsOK(parts: seq<Part>, position: nat, outputIndex: int, itemID: Bytes, at: int,
          authoritative: bool)
    ensures ActionsOK(PartsActions(parts, position, outputIndex, itemID, at, authoritative))
    decreases |parts|
  {
    if parts != [] {
      PartsActionsOK(parts[1..], position + 1, outputIndex, itemID, at, authoritative);
    }
  }

  lemma {:induction false} SummariesActionsOK(parts: seq<Part>, position: nat, outputIndex: int, itemID: Bytes,
          at: int, authoritative: bool)
    ensures ActionsOK(SummariesActions(parts, position, outputIndex, itemID, at, authoritative))
    decreases |parts|
  {
    if parts != [] {
      SummariesActionsOK(parts[1..], position + 1, outputIndex, itemID, at, authoritative);
    }
  }

  lemma ItemActionsOK(item: Item, outputIndex: int, at: int, authoritative: bool)
    ensures ActionsOK(ItemActions(item, outputIndex, at, authoritative))
  {
    PartsActionsOK(item.content, 0, outputIndex, item.id, at, authoritative);
    SummariesActionsOK(item.summary, 0, outputIndex, item.id, at, authoritative);
  }

  lemma {:induction false} FinalItemsActionsOK(items: seq<Item>, position: nat, at: int)
    ensures ActionsOK(FinalItemsActions(items, position, at))
    decreases |items|
  {
    if items != [] {
      ItemActionsOK(items[0], position, at, true);
      FinalItemsActionsOK(items[1..], position + 1, at);
    }
  }

  lemma KindActionsOK(kind: EventKind, event: Event, at: int)
    ensures ActionsOK(KindActions(kind, event, at))
  {
    if event.item.Some? {
      var output := Index(event.indexes.output, 0);
      ItemActionsOK(event.item.value, output, at, true);
      ItemActionsOK(event.item.value, output, at, false);
    }
  }

  lemma ResponsesActionsOK(event: Event, at: int)
    ensures ActionsOK(ResponsesActions(event, at))
  {
    KindActionsOK(EventKindOf(event.envelope.eventType), event, at);
    if event.envelope.response.Some? {
      FinalItemsActionsOK(event.envelope.response.value.output, 0, at);
    }
  }

  // ---------- Every action is safe ----------

  lemma StatesReplaced(a: Acc, states: map<Key, State>)
    requires Core(a) && states.Keys == a.states.Keys
    requires forall k :: k in states ==> StateOK(k, states[k], a.limit) && |states[k].shell| == |a.states[k].shell|
    ensures Safe(a, a.(states := states), [])
  {
    var b := a.(states := states);
    assert BudgetOK(b) by {
      WeightSame(a.states, states);
    }
    assert StatesOK(b) && GroupsOK(b);
    EmitsNothing(a.finishedGroups);
  }

  /** A new part: a unit of the budget is free for it, and its group is known or there is room for it. */
  lemma NewPartStates(a: Acc, key: Key)
    requires Core(a) && KeyOK(key) && key !in a.states && GroupOf(key) !in a.finishedGroups
    ensures StatesOK(WithPart(a, key)) && GroupsOK(WithPart(a, key))
  {
    assert StateOK(key, NewState(key.kind, LabelsOf(key)), a.limit);
  }

  lemma NewPartBudget(a: Acc, key: Key)
    requires BudgetOK(a) && key !in a.states && a.createdParts < MAX_STREAM_OUTPUT_PARTS
    requires GroupOf(key) in a.groups || |a.groups| < MAX_STREAM_OUTPUT_STATES
    ensures BudgetOK(WithPart(a, key))
  {
    WeightSet(a.states, key, NewState(key.kind, LabelsOf(key)));
    assert GroupOf(key) in a.groups ==> a.groups + {GroupOf(key)} == a.groups;
  }

  lemma NewPartSafe(a: Acc, key: Key)
    requires Core(a) && KeyOK(key) && key !in a.states && GroupOf(key) !in a.finishedGroups
    requires a.createdParts < MAX_STREAM_OUTPUT_PARTS
    requires GroupOf(key) in a.groups || |a.groups| < MAX_STREAM_OUTPUT_STATES
    ensures Safe(a, WithPart(a, key), [])
  {
    NewPartStates(a, key);
    NewPartBudget(a, key);
    SafeQuietly(a, WithPart(a, key));
  }

  lemma GetStateSafe(a: Acc, key: Key)
    requires Core(a) && KeyOK(key)
    ensures var (b, ok) := GetState(a, key); Safe(a, b, []) && (ok ==> key in b.states)
  {
    if key in a.finished || GroupOf(key) in a.finishedGroups || key in a.states {
      SafeSilently(a);
    } else if a.createdParts >= MAX_STREAM_OUTPUT_PARTS
      || (GroupOf(key) !in a.groups && |a.groups| >= MAX_STREAM_OUTPUT_STATES) {
      LimitedSafe(a);
    } else {
      NewPartSafe(a, key);
    }
  }

  lemma LimitedSafe(a: Acc)
    requires Core(a)
    ensures Safe(a, a.(limited := true), [])
  {
    SafeQuietly(a, a.(limited := true));
  }

  lemma EditPartSafe(a: Acc, key: Key, edits: seq<Edit>)
    requires Core(a) && (key.source != Responses ==> PlainEdits(edits))
    ensures Safe(a, EditPart(a, key, edits), [])
  {
    if key in a.states {
      EditsKeep(a.states[key], edits, a.limit);
      StatesReplaced(a, a.states[key := ApplyEdits(a.states[key], edits, a.limit)]);
    } else {
      SafeSilently(a);
    }
  }

  lemma ShellPartOK(s: State, key: Key, index: int, command: Bytes, authoritative: bool, limit: nat)
    requires StateOK(key, s, limit) && key.source == Responses
    ensures StateOK(key, ShellPartChanged(s, index, command, authoritative, limit), limit)
    ensures |ShellPartChanged(s, index, command, authoritative, limit).shell|
         == if index in s.shell then |s.shell| else |s.shell| + 1
  {
    var part := if index in s.shell then s.shell[index] else EMPTY;
    AppendWellFormed(part, command, limit);
    AppendWellFormed(EMPTY, command, limit);
  }

  lemma EditShellSafe(a: Acc, key: Key, index: int, command: Bytes, authoritative: bool)
    requires Core(a) && key.source == Responses
    ensures Safe(a, EditShell(a, key, index, command, authoritative), [])
  {
    if key !in a.states {
      SafeSilently(a);
    } else if index !in a.states[key].shell && a.createdParts >= MAX_STREAM_OUTPUT_PARTS {
      LimitedSafe(a);
    } else {
      ShellPartSet(a, key, index, command, authoritative);
    }
  }

  lemma ShellPartSet(a: Acc, key: Key, index: int, command: Bytes, authoritative: bool)
    requires Core(a) && key.source == Responses && key in a.states
    requires index in a.states[key].shell || a.createdParts < MAX_STREAM_OUTPUT_PARTS
    ensures Safe(a, ShellSet(a, key, index, command, authoritative), [])
  {
    var s := a.states[key];
    ShellPartOK(s, key, index, command, authoritative, a.limit);
    PartSet(a, key, ShellPartChanged(s, index, command, authoritative, a.limit),
      if index in s.shell then a.createdParts else a.createdParts + 1);
  }

  lemma SafeQuietly(a: Acc, b: Acc)
    requires Core(b) && b.finishedGroups == a.finishedGroups
    requires b.limit == a.limit && b.closed == a.closed && b.decodeFailed == a.decodeFailed
    requires b.terminalIncomplete == a.terminalIncomplete && b.terminalObserved == a.terminalObserved
    requires a.limited ==> b.limited
    ensures Safe(a, b, [])
  {
    EmitsNothing(a.finishedGroups);
  }

  /** One live part replaced, with as many units of the budget taken as its shell commands grew by. */
  lemma PartSet(a: Acc, key: Key, t: State, created: nat)
    requires Core(a) && key in a.states && StateOK(key, t, a.limit)
    requires created == a.createdParts + |t.shell| - |a.states[key].shell| <= MAX_STREAM_OUTPUT_PARTS
    ensures Safe(a, a.(states := a.states[key := t], createdParts := created), [])
  {
    var b := a.(states := a.states[key := t], createdParts := created);
    WeightSet(a.states, key, t);
    assert BudgetOK(b);
    SafeQuietly(a, b);
  }

  lemma ChoiceReasonSafe(a: Acc, source: Source, index: int, reason: Bytes)
    requires Core(a)
    ensures Safe(a, ChoiceReasonSet(a, source, index, reason), [])
  {
    var b := ChoiceReasonSet(a, source, index, reason);
    forall k | k in a.states
      ensures StateOK(k, b.states[k], a.limit) && b.states[k].shell == a.states[k].shell
    {
      EditKeeps(a.states[k], Replace(FinishReasonText, reason), a.limit);
    }
    StatesReplaced(a, b.states);
  }

  lemma OutputMarkedSafe(a: Acc, outputIndex: int, status: Bytes, error: Option<Bytes>)
    requires Core(a)
    ensures Safe(a, OutputMarked(a, outputIndex, status, error), [])
  {
    var b := OutputMarked(a, outputIndex, status, error);
    forall k | k in a.states
      ensures StateOK(k, b.states[k], a.limit) && b.states[k].shell == a.states[k].shell
    {
      if InOutput(k, outputIndex) {
        EditKeeps(a.states[k], ApplyOutputStatus(status, error), a.limit);
      }
    }
    StatesReplaced(a, b.states);
  }

  lemma FinishChoiceSafe(a: Acc, source: Source, index: int, at: int, reason: Bytes)
    requires Core(a) && source != Responses
    ensures var (b, o) := FinishChoiceOf(a, source, index, at, reason); Safe(a, b, o)
  {
    if (source, index) in a.finishedChoices {
      SafeSilently(a);
    } else if |a.finishedChoices| >= MAX_STREAM_OUTPUT_STATES {
      LimitedSafe(a);
    } else {
      ChoiceRecordedSafe(a, source, index, reason);
      ChoiceFinishedSafe(a, ChoiceRecorded(a, source, index, reason), source, index, at);
    }
  }

  /** A choice that finishes, before its parts do. */
  function ChoiceRecorded(a: Acc, source: Source, index: int, reason: Bytes): Acc {
    ChoiceReasonSet(a.(finishedChoices := a.finishedChoices + {(source, index)}), source, index, reason)
  }

  lemma ChoiceRecordedSafe(a: Acc, source: Source, index: int, reason: Bytes)
    requires Core(a) && |a.finishedChoices| < MAX_STREAM_OUTPUT_STATES
    ensures Safe(a, ChoiceRecorded(a, source, index, reason), [])
  {
    var b := a.(finishedChoices := a.finishedChoices + {(source, index)});
    SafeQuietly(a, b);
    ChoiceReasonSafe(b, source, index, reason);
    SafeThen(a, b, [], ChoiceRecorded(a, source, index, reason), []);
  }

  lemma ChoiceFinishedSafe(a: Acc, b: Acc, source: Source, index: int, at: int)
    requires Safe(a, b, []) && source != Responses
    ensures var (c, o) := FinishMatching(b, ChoiceKeys(b, source, index), at, Verdict(true, false, "")); Safe(a, c, o)
  {
    var v := Verdict(true, false, "");
    FinishMatchingSafe(b, ChoiceKeys(b, source, index), at, v);
    var (c, o) := FinishMatching(b, ChoiceKeys(b, source, index), at, v);
    SafeThen(a, b, [], c, o);
    assert [] + o == o;
  }

  lemma PerformSafe(a: Acc, action: Action, at: int)
    requires Core(a) && ActionOK(action)
    ensures var (b, o) := Perform(a, action, at); Safe(a, b, o)
  {
    match action
    case Update(key, edits) =>
      GetStateSafe(a, key);
      var (b, ok) := GetState(a, key);
      if ok {
        EditPartSafe(b, key, edits);
        SafeThen(a, b, [], EditPart(b, key, edits), []);
      }
    case UpdateShell(outputIndex, edits, index, command, authoritative) =>
      UpdateShellSafe(a, outputIndex, edits, index, command, authoritative);
    case Revise(key, edits) => EditPartSafe(a, key, edits);
    case SetChoiceReason(source, index, reason) => ChoiceReasonSafe(a, source, index, reason);
    case FinishChoice(source, index, reason) => FinishChoiceSafe(a, source, index, at, reason);
    case MarkOutput(outputIndex, status, error) => OutputMarkedSafe(a, outputIndex, status, error);
    case FinishOutput(outputIndex, v) => FinishOutputKindsSafe(a, KindsOf(outputIndex), at, v);
  }

  lemma UpdateShellSafe(a: Acc, outputIndex: int, edits: seq<Edit>, index: int, command: Bytes, authoritative: bool)
    requires Core(a)
    ensures Safe(a, UpdateShellOf(a, outputIndex, edits, index, command, authoritative), [])
  {
    var key := ToolKey(outputIndex);
    GetStateSafe(a, key);
    var (b, ok) := GetState(a, key);
    if ok {
      var c := EditPart(b, key, edits);
      EditPartSafe(b, key, edits);
      SafeThen(a, b, [], c, []);
      EditShellSafe(c, key, index, command, authoritative);
      SafeThen(a, c, [], EditShell(c, key, index, command, authoritative), []);
    }
  }

  lemma {:induction false} PerformAllSafe(a: Acc, actions: seq<Action>, at: int)
    requires Core(a) && ActionsOK(actions)
    ensures var (b, o) := PerformAll(a, actions, at); Safe(a, b, o)
    decreases |actions|
  {
    if actions == [] {
      SafeSilently(a);
    } else {
      PerformSafe(a, actions[0], at);
      var (b, o) := Perform(a, actions[0], at);
      PerformAllSafe(b, actions[1..], at);
      var (c, os) := PerformAll(b, actions[1..], at);
      SafeThen(a, b, o, c, os);
    }
  }

  lemma {:induction false} PerformAppend(a: Acc, x: seq<Action>, y: seq<Action>, at: int)
    ensures var (b, o) := PerformAll(a, x, at);
            var (c, p) := PerformAll(b, y, at);
            PerformAll(a, x + y, at) == (c, o + p)
    decreases |x|
  {
    if x == [] {
      assert x + y == y;
      assert [] + PerformAll(a, y, at).1 == PerformAll(a, y, at).1;
    } else {
      assert (x + y)[0] == x[0] && (x + y)[1..] == x[1..] + y;
      var (b, o) := Perform(a, x[0], at);
      PerformAppend(b, x[1..], y, at);
      var (c, p) := PerformAll(b, x[1..], at);
      Associative(o, p, PerformAll(c, y, at).1);
    }
  }

  lemma PerformOne(a: Acc, x: Action, at: int)
    ensures PerformAll(a, [x], at) == Perform(a, x, at)
  {
    var (b, o) := Perform(a, x, at);
    assert [x][1..] == [];
    assert o + [] == o;
  }

  /** Actions that give nothing, then others. */
  lemma QuietFirst(a: Acc, x: seq<Action>, y: seq<Action>, at: int)
    requires PerformAll(a, x, at).1 == []
    ensures PerformAll(a, x + y, at) == PerformAll(PerformAll(a, x, at).0, y, at)
  {
    PerformAppend(a, x, y, at);
    var o := PerformAll(PerformAll(a, x, at).0, y, at).1;
    assert [] + o == o;
  }

  /** Actions, then others that give nothing. */
  lemma QuietLast(a: Acc, x: seq<Action>, y: seq<Action>, at: int)
    requires PerformAll(PerformAll(a, x, at).0, y, at).1 == []
    ensures PerformAll(a, x + y, at) == (PerformAll(PerformAll(a, x, at).0, y, at).0, PerformAll(a, x, at).1)
  {
    PerformAppend(a, x, y, at);
    var o := PerformAll(a, x, at).1;
    assert o + [] == o;
  }

  lemma MarkThenFinish(a: Acc, actions: seq<Action>, outputIndex: int, status: Bytes, error: Option<Bytes>, v: Verdict,
          at: int)
    requires PerformAll(a, actions, at).1 == []
    ensures PerformAll(a, actions + [MarkOutput(outputIndex, status, error), FinishOutput(outputIndex, v)], at)
         == FinishOutputKinds(OutputMarked(PerformAll(a, actions, at).0, outputIndex, status, error),
           KindsOf(outputIndex), at, v)
  {
    var b := PerformAll(a, actions, at).0;
    var x, y := MarkOutput(outputIndex, status, error), FinishOutput(outputIndex, v);
    PerformMark(b, outputIndex, status, error, at);
    PerformFinish(OutputMarked(b, outputIndex, status, error), outputIndex, v, at);
    PerformThenTwo(a, actions, x, y, at);
  }

  lemma PerformMark(a: Acc, outputIndex: int, status: Bytes, error: Option<Bytes>, at: int)
    ensures Perform(a, MarkOutput(outputIndex, status, error), at) == (OutputMarked(a, outputIndex, status, error), [])
  {
  }

  lemma PerformFinish(a: Acc, outputIndex: int, v: Verdict, at: int)
    ensures Perform(a, FinishOutput(outputIndex, v), at) == FinishOutputKinds(a, KindsOf(outputIndex), at, v)
  {
  }

  lemma PerformThenTwo(a: Acc, actions: seq<Action>, x: Action, y: Action, at: int)
    requires PerformAll(a, actions, at).1 == [] && Perform(PerformAll(a, actions, at).0, x, at).1 == []
    ensures PerformAll(a, actions + [x, y], at) == Perform(Perform(PerformAll(a, actions, at).0, x, at).0, y, at)
  {
    var b := PerformAll(a, actions, at).0;
    PerformAppend(a, actions, [x, y], at);
    PerformTwo(b, x, y, at);
    var p := Perform(Perform(b, x, at).0, y, at).1;
    assert [] + p == p;
  }

  lemma PerformTwo(a: Acc, x: Action, y: Action, at: int)
    requires Perform(a, x, at).1 == []
    ensures PerformAll(a, [x, y], at) == Perform(Perform(a, x, at).0, y, at)
  {
    var (b, o) := Perform(a, x, at);
    var (c, p) := Perform(b, y, at);
    assert [x, y][1..] == [y] && [y][1..] == [];
    assert PerformAll(b, [y], at) == (c, p) by { assert p + [] == p; }
    assert [] + p == p;
  }

  lemma {:induction false} ObserveChoicesSafe(a: Acc, choices: seq<Choice>, position: nat, at: int, finishOutputs: bool)
    requires Core(a)
    ensures var (b, o) := ObserveChoices(a, choices, position, at, finishOutputs); Safe(a, b, o)
    decreases |choices|
  {
    SafeSilently(a);
    if choices != [] {
      var index := Index(choices[0].index, position);
      var (b, o) := if (Chat, index) in a.finishedChoices then (a, [])
                    else PerformAll(a, ChoiceActions(choices[0], index, at, finishOutputs), at);
      if (Chat, index) !in a.finishedChoices {
        ChoiceActionsOK(choices[0], index, at, finishOutputs);
        PerformAllSafe(a, ChoiceActions(choices[0], index, at, finishOutputs), at);
      }
      ObserveChoicesSafe(b, choices[1..], position + 1, at, finishOutputs);
      var (c, os) := ObserveChoices(b, choices[1..], position + 1, at, finishOutputs);
      SafeThen(a, b, o, c, os);
    }
  }

  lemma ObserveDecodedSafe(a: Acc, event: Event, at: int)
    requires Core(a)
    ensures var (b, o) := ObserveDecoded(a, event, at); Safe(a, b, o)
  {
    var finishes := !EventFailed(event.envelope);
    ObserveChoicesSafe(a, event.choices, 0, at, finishes);
    var (b, o1) := ObserveChoices(a, event.choices, 0, at, finishes);
    NativeActionsOK(event, at, finishes);
    PerformAllSafe(b, NativeActions(event, at, finishes), at);
    var (c, o2) := PerformAll(b, NativeActions(event, at, finishes), at);
    ResponsesActionsOK(event, at);
    PerformAllSafe(c, ResponsesActions(event, at), at);
    var (d, o3) := PerformAll(c, ResponsesActions(event, at), at);
    SafeThen(a, b, o1, c, o2);
    SafeThen(a, c, o1 + o2, d, o3);
  }

  // ---------- Every input is safe ----------

  /** What one call keeps; outputs come only before the end. */
  ghost predicate Steps(a: Acc, b: Acc, outputs: seq<Output>) {
    && Valid(b) && b.limit == a.limit
    && (a.closed ==> b.closed && outputs == [])
    && (a.limited ==> b.limited)
    && (a.decodeFailed ==> b.decodeFailed)
    && Emits(a.finishedGroups, outputs, b.finishedGroups)
    && OutputsOK(outputs, a.limit)
    && OutputsMarked(outputs, a.limited, a.decodeFailed)
  }

  lemma EndSafe(a: Acc, t: Terminal, at: int)
    requires Core(a) && t.Terminal? && VerdictOK(EndVerdict(t))
    ensures var (b, o) := FinishAll(CloseAt(a, t), at, EndVerdict(t));
            && Valid(b) && b.closed && b.limit == a.limit && b.decodeFailed == a.decodeFailed
            && b.limited == (a.limited || a.decodeFailed)
            && Emits(a.finishedGroups, o, b.finishedGroups) && OutputsOK(o, a.limit)
            && OutputsMarked(o, a.limited || a.decodeFailed, a.decodeFailed)
  {
    FinishAllSafe(CloseAt(a, t), at, EndVerdict(t));
  }

  lemma EventEndOK(e: Envelope)
    ensures EventEnd(e).Terminal? ==> VerdictOK(EndVerdict(EventEnd(e)))
  {
  }

  lemma DecodeTerminalOK(p: StreamEvents.Payload)
    ensures DecodeTerminal(p).Terminal? ==> VerdictOK(EndVerdict(DecodeTerminal(p)))
  {
  }

  lemma ObserveEventSteps(a: Acc, e: Event, at: int)
    requires Valid(a) && !a.closed
    ensures var (b, o) := ObserveEvent(a, e, at); Steps(a, b, o)
  {
    ObserveDecodedSafe(a, e, at);
    var (b, o) := ObserveDecoded(a, e, at);
    var t := EventEnd(e.envelope);
    if t.Terminal? {
      EventEndOK(e.envelope);
      EndSafe(b, t, at);
      var (c, os) := FinishAll(CloseAt(b, t), at, EndVerdict(t));
      EmitsThen(a.finishedGroups, o, b.finishedGroups, os, c.finishedGroups);
    }
  }

  lemma ObserveMisfitSteps(a: Acc, p: StreamEvents.Payload, at: int)
    requires Valid(a) && !a.closed
    ensures var (b, o) := ObserveMisfit(a, p, at); Steps(a, b, o)
  {
    EmitsNothing(a.finishedGroups);
    var b, t := a.(decodeFailed := true, limited := true), DecodeTerminal(p);
    if t.Terminal? {
      DecodeTerminalOK(p);
      EndSafe(b, t, at);
    }
  }

  lemma ObserveSteps(a: Acc, payload: StreamEvents.Payload, protocolTerminal: bool, at: int)
    requires Valid(a)
    ensures var (b, o) := Observe(a, payload, protocolTerminal, at); Steps(a, b, o)
  {
    EmitsNothing(a.finishedGroups);
    if !a.closed && protocolTerminal {
      EndSafe(a, Terminal(false, false, ""), at);
    } else if !a.closed && payload.JSON? {
      match payload.event
      case None => ObserveMisfitSteps(a, payload, at);
      case Some(event) => ObserveEventSteps(a, event, at);
    }
  }

  lemma ReceiveSteps(a: Acc, i: Input)
    requires Valid(a)
    ensures var (b, o) := Receive(a, i); Steps(a, b, o)
  {
    EmitsNothing(a.finishedGroups);
    match i
    case Payload(payload, protocolTerminal, at) => ObserveSteps(a, payload, protocolTerminal, at);
    case MarkLimited =>
    case End(at) =>
      if !a.closed {
        FinishAllSafe(a.(closed := true), at, Verdict(false, false, ""));
      }
  }

  lemma {:induction false} RunSteps(a: Acc, inputs: seq<Input>)
    requires Valid(a)
    ensures var (b, o) := Run(a, inputs); Steps(a, b, o)
    decreases |inputs|
  {
    if inputs == [] {
      EmitsNothing(a.finishedGroups);
    } else {
      ReceiveSteps(a, inputs[0]);
      var (b, o) := Receive(a, inputs[0]);
      RunSteps(b, inputs[1..]);
      var (c, os) := Run(b, inputs[1..]);
      EmitsThen(a.finishedGroups, o, b.finishedGroups, os, c.finishedGroups);
    }
  }

  /** One step, then the others. */
  ghost predicate Continues(r: (Acc, seq<Output>), first: (Acc, seq<Output>), rest: (Acc, seq<Output>)) {
    r == (rest.0, first.1 + rest.1)
  }

  lemma RunStep(a: Acc, inputs: seq<Input>)
    requires inputs != []
    ensures var first := Receive(a, inputs[0]); Continues(Run(a, inputs), first, Run(first.0, inputs[1..]))
  {
  }

  lemma {:induction false} RunThen(a: Acc, x: seq<Input>, y: seq<Input>)
    ensures var first := Run(a, x); Continues(Run(a, x + y), first, Run(first.0, y))
    decreases |x|
  {
    if x == [] {
      assert x + y == y;
      assert [] + Run(a, y).1 == Run(a, y).1;
    } else {
      assert (x + y)[0] == x[0] && (x + y)[1..] == x[1..] + y;
      var first := Receive(a, x[0]);
      RunStep(a, x);
      RunStep(a, x + y);
      RunThen(first.0, x[1..], y);
      var second := Run(first.0, x[1..]);
      Associative(first.1, second.1, Run(second.0, y).1);
    }
  }

  lemma RunAppend(a: Acc, x: seq<Input>, y: seq<Input>)
    ensures var (b, o) := Run(a, x);
            var (c, p) := Run(b, y);
            Run(a, x + y) == (c, o + p)
  {
    RunThen(a, x, y);
  }

  lemma OneInput(a: Acc, i: Input)
    ensures Run(a, [i]) == Receive(a, i)
  {
    assert [i][1..] == [];
    assert Receive(a, i).1 + [] == Receive(a, i).1;
  }

  // ---------- The theorems ----------

  lemma NewAccValid(limit: int)
    ensures Valid(NewAcc(limit))
  {
  }

  /**
   * Over every run there is at most one output for each group, so at most 64 in all; each is
   * never both complete and failed, never complete and incomplete, and of bounded, valid text.
   */
  lemma OneOutputPerGroup(limit: int, inputs: seq<Input>)
    ensures var o := Run(NewAcc(limit), inputs).1;
            && (forall i, j :: 0 <= i < j < |o| ==> OutputGroup(o[i]) != OutputGroup(o[j]))
            && |o| <= MAX_STREAM_OUTPUT_STATES
            && OutputsOK(o, NewAcc(limit).limit)
  {
    NewAccValid(limit);
    RunSteps(NewAcc(limit), inputs);
    var (b, o) := Run(NewAcc(limit), inputs);
    EmitsCount({}, o, b.finishedGroups);
    SmallerSet(b.finishedGroups, b.groups);
  }

  /**
   * Once a cap was hit every later output says so; once a payload failed to decode, no later
   * Chat or native output is complete without saying that the observation was limited.
   */
  lemma MarksStick(a: Acc, inputs: seq<Input>)
    requires Valid(a)
    ensures OutputsMarked(Run(a, inputs).1, a.limited, a.decodeFailed)
  {
    RunSteps(a, inputs);
  }

  /** A cap that is hit in the middle of a call marks what the rest of the call gives out. */
  lemma MarksStickWithinCall(a: Acc, x: seq<Action>, y: seq<Action>, at: int)
    requires Core(a) && ActionsOK(x) && ActionsOK(y)
    ensures var (b, o) := PerformAll(a, x, at);
            var (c, p) := PerformAll(b, y, at);
            PerformAll(a, x + y, at) == (c, o + p) && OutputsMarked(p, b.limited, b.decodeFailed)
  {
    PerformAppend(a, x, y, at);
    PerformAllSafe(a, x, at);
    PerformAllSafe(PerformAll(a, x, at).0, y, at);
  }

  /** And what the end of the stream gives out, when the event that hit the cap ends the stream too. */
  lemma MarksStickToTheEnd(a: Acc, event: Event, at: int)
    requires Valid(a) && EventEnd(event.envelope).Terminal?
    ensures var (b, o) := ObserveDecoded(a, event, at);
            var t := EventEnd(event.envelope);
            var p := FinishAll(CloseAt(b, t), at, EndVerdict(t)).1;
            ObserveEvent(a, event, at).1 == o + p && OutputsMarked(p, b.limited || b.decodeFailed, b.decodeFailed)
  {
    ObserveDecodedSafe(a, event, at);
    EventEndOK(event.envelope);
    EndSafe(ObserveDecoded(a, event, at).0, EventEnd(event.envelope), at);
  }

  /** After the end no run gives an output, and nothing becomes live. */
  lemma SilentAfterEnd(a: Acc, inputs: seq<Input>)
    requires Valid(a) && a.closed
    ensures Run(a, inputs).1 == [] && Run(a, inputs).0.states == map[]
  {
    RunSteps(a, inputs);
  }

  /** The parts created, live or finished, and their shell commands stay within the caps. */
  lemma CapsHold(limit: int, inputs: seq<Input>)
    ensures var a := Run(NewAcc(limit), inputs).0;
            && Weight(a.states) + |a.finished| <= a.createdParts <= MAX_STREAM_OUTPUT_PARTS
            && |a.groups| <= MAX_STREAM_OUTPUT_STATES && |a.finishedChoices| <= MAX_STREAM_OUTPUT_STATES
            && (forall k :: k in a.states ==> GroupOf(k) in a.groups && GroupOf(k) !in a.finishedGroups)
            && (forall k :: k in a.states ==>
                  TextsOK(a.states[k].texts, a.limit) && ShellOK(a.states[k].shell, a.limit))
  {
    NewAccValid(limit);
    RunSteps(NewAcc(limit), inputs);
  }
}

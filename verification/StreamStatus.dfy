/**
 * What an output may claim once a payload has failed to decode. Every complete output then says
 * that the observation was limited, with one exception, which is characterised here: a
 * "program" item reported done while its status is in_progress or queued.
 */
module StreamStatus {
  import opened Bytes
  import opened LimitedText
  import opened Ordering
  import opened StreamEvents
  import opened StreamParts
  import opened StreamActions
  import opened StreamAssembly
  import opened StreamFinishing
  import opened StreamInvariants
  import opened StreamSafety
  import opened StreamRuns
  import opened StreamOrder

  /** Every output that claims to be complete admits that the observation was limited. */
  predicate Honest(outputs: seq<Output>) {
    forall i :: 0 <= i < |outputs| ==> (outputs[i].complete ==> outputs[i].observationLimited)
  }

  /** Between calls no live part has been marked completed. */
  predicate NoneCompleted(a: Acc) {
    forall k :: k in a.states ==> !a.states[k].flags.completed
  }

  // ---------- Finishing honestly ----------

  /** A part that a verdict of "not complete" leaves incomplete. */
  predicate Open(s: State) {
    s.flags.failed || s.flags.incomplete || !s.flags.completed
  }

  /** A verdict under which finishing the part gives an honest output. */
  predicate HonestVerdict(s: State, v: Verdict) {
    v.complete || Open(s)
  }

  lemma {:induction false} PartOutputsHonest(a: Acc, keys: seq<Key>, at: int, v: Verdict)
    requires a.decodeFailed
    requires forall k :: k in keys ==> k in a.states && HonestVerdict(a.states[k], v)
    ensures Honest(PartOutputs(a, keys, at, v))
    ensures v.complete ==> forall p :: p in PartOutputs(a, keys, at, v) ==> p.observationLimited
    ensures !v.complete ==> forall p :: p in PartOutputs(a, keys, at, v) ==> !p.complete
  {
    if keys != [] {
      PartOutputsHonest(a, keys[1..], at, v);
    }
  }

  lemma MergedHonest(a: Acc, keys: seq<Key>, at: int, v: Verdict)
    requires Core(a) && VerdictOK(v) && a.decodeFailed
    requires forall k :: k in keys ==> k in a.states && HonestVerdict(a.states[k], v)
    ensures Honest(Merged(a, keys, at, v))
  {
    var parts := PartOutputs(a, keys, at, v);
    PartOutputsHonest(a, keys, at, v);
    PartOutputsOK(a, keys, at, v);
    if parts != [] {
      assert parts[0] in parts;
      assert forall p :: p in parts ==> OutputOK(p, a.limit);
      MergeVerdictMeaning(Verdict(true, false, ""), parts);
      MergedCompletes(parts, at, a.limit, a.limited);
    }
  }

  /** A merged output carries the verdict of its parts and any limit that one of them admits. */
  lemma MergedCompletes(parts: seq<Output>, at: int, limit: nat, limited: bool)
    requires parts != []
    ensures var m := MergeOutputs(parts, at, limit, limited);
            && m.complete == MergeVerdict(Verdict(true, false, ""), parts).complete
            && (m.observationLimited <==> limited || exists p :: p in parts && p.observationLimited)
  {
    var labels := if |parts| > 1 then parts[0].labels.(content := None) else parts[0].labels;
    var s := NewState(parts[0].kind, labels).(started := true, start := parts[0].start);
    MergeKeepsFlags(s, parts, limit);
  }

  lemma {:induction false} MergeKeepsFlags(s: State, parts: seq<Output>, limit: nat)
    ensures MergeState(s, parts, limit).flags == s.flags
    decreases |parts|
  {
    if parts != [] {
      var t := if parts[0].start < s.start then s.(start := parts[0].start) else s;
      assert PlainEdits(MergeEdits(parts[0]));
      PlainKeepsFlags(t, MergeEdits(parts[0]), limit);
      MergeKeepsFlags(ApplyEdits(t, MergeEdits(parts[0]), limit), parts[1..], limit);
    }
  }

  lemma {:induction false} PlainKeepsFlags(s: State, edits: seq<Edit>, limit: nat)
    requires PlainEdits(edits)
    ensures ApplyEdits(s, edits, limit).flags == s.flags
    decreases |edits|
  {
    if edits != [] {
      PlainKeepsFlags(ApplyEdit(s, edits[0], limit), edits[1..], limit);
    }
  }

  lemma HonestThen(o: seq<Output>, p: seq<Output>)
    requires Honest(o) && Honest(p)
    ensures Honest(o + p)
  {
  }

  /** All live parts would be finished honestly. */
  predicate AllHonest(a: Acc, v: Verdict) {
    forall k :: k in a.states ==> HonestVerdict(a.states[k], v)
  }

  lemma FinishOutputKindHonest(a: Acc, outputIndex: int, kind: Kind, at: int, v: Verdict)
    requires Core(a) && VerdictOK(v) && a.decodeFailed
    requires forall k :: k in PartKeys(a, outputIndex, kind) ==> HonestVerdict(a.states[k], v)
    ensures var (b, o) := FinishOutputKind(a, outputIndex, kind, at, v);
            Honest(o) && Core(b) && b.decodeFailed && b.states == a.states - PartKeys(a, outputIndex, kind)
  {
    FinishOutputKindClosed(a, outputIndex, kind, at, v);
    FinishOutputKindSafe(a, outputIndex, kind, at, v);
    MergedHonest(a, SortedParts(a, outputIndex, kind), at, v);
  }

  lemma {:induction false} FinishOutputKindsHonest(a: Acc, outputs: seq<(int, Kind)>, at: int, v: Verdict)
    requires Core(a) && VerdictOK(v) && a.decodeFailed
    requires forall k :: k in a.states && k.source == Responses && (k.outputIndex, k.kind) in outputs ==>
               HonestVerdict(a.states[k], v)
    ensures var (b, o) := FinishOutputKinds(a, outputs, at, v);
            && Honest(o) && b.states.Keys <= a.states.Keys
            && forall k :: k in b.states ==> b.states[k] == a.states[k]
    decreases |outputs|
  {
    if outputs != [] {
      assert outputs == [outputs[0]] + outputs[1..];
      FinishOutputKindHonest(a, outputs[0].0, outputs[0].1, at, v);
      var (b, o) := FinishOutputKind(a, outputs[0].0, outputs[0].1, at, v);
      FinishOutputKindsHonest(b, outputs[1..], at, v);
      HonestThen(o, FinishOutputKinds(b, outputs[1..], at, v).1);
    }
  }

  lemma FinishMatchingHonest(a: Acc, keys: set<Key>, at: int, v: Verdict)
    requires Core(a) && a.decodeFailed && keys <= a.states.Keys
    requires forall k :: k in keys ==> HonestVerdict(a.states[k], v)
    ensures var (b, o) := FinishMatching(a, keys, at, v); Honest(o) && b.states == a.states - keys
  {
    var sorted := SortOf(keys, KeyRank);
    FinishMatchingClosed(a, keys, at, v);
    assert forall k :: k in sorted ==> k in Elements(sorted);
    PartOutputsHonest(a, sorted, at, v);
  }

  lemma FinishAllHonest(a: Acc, at: int, v: Verdict)
    requires Core(a) && VerdictOK(v) && a.decodeFailed && (a.limited || AllHonest(a, v))
    ensures Honest(FinishAll(a, at, v).1)
  {
    FinishAllSafe(a, at, v);
    if !a.limited {
      var outputs := SortOf(LiveOutputs(a), OutputRank);
      FinishOutputKindsHonest(a, outputs, at, v);
      FinishOutputKindsSafe(a, outputs, at, v);
      var (b, os) := FinishOutputKinds(a, outputs, at, v);
      FinishMatchingHonest(b, OtherKeys(b), at, v);
      HonestThen(os, FinishMatching(b, OtherKeys(b), at, v).1);
    }
  }

  // ---------- Actions that mark nothing completed ----------

  predicate QuietEdit(e: Edit) {
    !e.SetCompleted? && !(e.ApplyOutputStatus? && e.status == "completed")
  }

  predicate QuietEdits(edits: seq<Edit>) {
    forall i :: 0 <= i < |edits| ==> QuietEdit(edits[i])
  }

  predicate Quiet(action: Action) {
    match action
    case Update(_, edits) => QuietEdits(edits)
    case UpdateShell(_, edits, _, _, _) => QuietEdits(edits)
    case Revise(_, edits) => QuietEdits(edits)
    case MarkOutput(_, status, _) => status != "completed"
    case FinishOutput(_, _) => false
    case _ => true
  }

  predicate AllQuiet(actions: seq<Action>) {
    forall i :: 0 <= i < |actions| ==> Quiet(actions[i])
  }

  lemma {:induction false} QuietEditsKeep(s: State, edits: seq<Edit>, limit: nat)
    requires QuietEdits(edits)
    ensures ApplyEdits(s, edits, limit).flags.completed == s.flags.completed
    decreases |edits|
  {
    if edits != [] {
      QuietEditKeeps(s, edits[0], limit);
      QuietEditsKeep(ApplyEdit(s, edits[0], limit), edits[1..], limit);
    }
  }

  lemma QuietEditKeeps(s: State, e: Edit, limit: nat)
    requires QuietEdit(e)
    ensures ApplyEdit(s, e, limit).flags.completed == s.flags.completed
  {
    match e
    case ApplyStatus(status, error) => assert StatusApplied(s, status, error).flags.completed == s.flags.completed;
    case ApplyOutputStatus(status, error) =>
      assert StatusApplied(s, status, error).flags.completed == s.flags.completed;
    case _ =>
  }

  lemma EditPartQuiet(a: Acc, k: Key, edits: seq<Edit>)
    requires NoneCompleted(a) && QuietEdits(edits)
    ensures NoneCompleted(EditPart(a, k, edits))
  {
    if k in a.states {
      QuietEditsKeep(a.states[k], edits, a.limit);
    }
  }

  lemma ReasonQuiet(a: Acc, source: Source, index: int, reason: Bytes)
    requires NoneCompleted(a)
    ensures NoneCompleted(ChoiceReasonSet(a, source, index, reason))
  {
  }

  lemma FinishChoiceHonest(a: Acc, source: Source, index: int, at: int, reason: Bytes)
    requires Core(a) && NoneCompleted(a) && source != Responses
    ensures var (b, o) := FinishChoiceOf(a, source, index, at, reason);
            NoneCompleted(b) && (a.decodeFailed ==> Honest(o))
  {
    if (source, index) !in a.finishedChoices && |a.finishedChoices| < MAX_STREAM_OUTPUT_STATES {
      var a1 := a.(finishedChoices := a.finishedChoices + {(source, index)});
      ChoiceReasonSafe(a1, source, index, reason);
      ReasonQuiet(a1, source, index, reason);
      var b := ChoiceReasonSet(a1, source, index, reason);
      ChoiceHonest(b, ChoiceKeys(b, source, index), at);
    }
  }

  lemma ChoiceHonest(b: Acc, keys: set<Key>, at: int)
    requires Core(b) && NoneCompleted(b) && keys <= b.states.Keys
    ensures var (c, o) := FinishMatching(b, keys, at, Verdict(true, false, ""));
            NoneCompleted(c) && (b.decodeFailed ==> Honest(o))
  {
    FinishMatchingClosed(b, keys, at, Verdict(true, false, ""));
    if b.decodeFailed {
      FinishMatchingHonest(b, keys, at, Verdict(true, false, ""));
    }
  }

  lemma GetStateQuiet(a: Acc, key: Key)
    requires NoneCompleted(a)
    ensures NoneCompleted(GetState(a, key).0)
  {
  }

  lemma UpdateQuiet(a: Acc, key: Key, edits: seq<Edit>)
    requires NoneCompleted(a) && QuietEdits(edits)
    ensures NoneCompleted(UpdatePartOf(a, key, edits))
  {
    GetStateQuiet(a, key);
    EditPartQuiet(GetState(a, key).0, key, edits);
  }

  lemma UpdateShellQuiet(a: Acc, outputIndex: int, edits: seq<Edit>, index: int, command: Bytes, authoritative: bool)
    requires NoneCompleted(a) && QuietEdits(edits)
    ensures NoneCompleted(UpdateShellOf(a, outputIndex, edits, index, command, authoritative))
  {
    var key := ToolKey(outputIndex);
    GetStateQuiet(a, key);
    var b := GetState(a, key).0;
    EditPartQuiet(b, key, edits);
    assert NoneCompleted(EditShell(EditPart(b, key, edits), key, index, command, authoritative));
  }

  lemma MarkQuiet(a: Acc, outputIndex: int, status: Bytes, error: Option<Bytes>)
    requires NoneCompleted(a) && status != "completed"
    ensures NoneCompleted(OutputMarked(a, outputIndex, status, error))
  {
    forall k | k in a.states
      ensures !OutputMarked(a, outputIndex, status, error).states[k].flags.completed
    {
      QuietEditKeeps(a.states[k], ApplyOutputStatus(status, error), a.limit);
    }
  }

  lemma PerformQuiet(a: Acc, action: Action, at: int)
    requires Core(a) && NoneCompleted(a) && ActionOK(action) && Quiet(action)
    ensures var (b, o) := Perform(a, action, at);
            NoneCompleted(b) && (a.decodeFailed ==> Honest(o))
  {
    match action
    case Update(key, edits) => UpdateQuiet(a, key, edits);
    case UpdateShell(outputIndex, edits, index, command, authoritative) =>
      UpdateShellQuiet(a, outputIndex, edits, index, command, authoritative);
    case Revise(key, edits) => EditPartQuiet(a, key, edits);
    case FinishChoice(source, index, reason) => FinishChoiceHonest(a, source, index, at, reason);
    case MarkOutput(outputIndex, status, error) => MarkQuiet(a, outputIndex, status, error);
    case SetChoiceReason(source, index, reason) => ReasonQuiet(a, source, index, reason);
  }

  lemma {:induction false} PerformAllQuiet(a: Acc, actions: seq<Action>, at: int)
    requires Core(a) && NoneCompleted(a) && ActionsOK(actions) && AllQuiet(actions)
    ensures var (b, o) := PerformAll(a, actions, at);
            NoneCompleted(b) && (a.decodeFailed ==> Honest(o))
    decreases |actions|
  {
    if actions != [] {
      PerformSafe(a, actions[0], at);
      PerformQuiet(a, actions[0], at);
      var (b, o) := Perform(a, actions[0], at);
      PerformAllQuiet(b, actions[1..], at);
      if a.decodeFailed {
        HonestThen(o, PerformAll(b, actions[1..], at).1);
      }
    }
  }

  lemma {:induction false} ToolActionsQuiet(tools: seq<ToolPart>, position: nat, choiceIndex: int, at: int)
    ensures AllQuiet(ToolActions(tools, position, choiceIndex, at))
    decreases |tools|
  {
    if tools != [] {
      ToolActionsQuiet(tools[1..], position + 1, choiceIndex, at);
    }
  }

  lemma DeltaActionsQuiet(delta: Delta, choiceIndex: int, at: int)
    ensures AllQuiet(DeltaActions(delta, choiceIndex, at))
  {
    ToolActionsQuiet(delta.toolCalls, 0, choiceIndex, at);
    assert AllQuiet(DeltaTextActions(delta, choiceIndex, at));
    assert AllQuiet(FunctionCallActions(delta.functionCall, choiceIndex, at));
  }

  lemma ChoiceActionsQuiet(choice: Choice, choiceIndex: int, at: int, finishOutputs: bool)
    ensures AllQuiet(ChoiceActions(choice, choiceIndex, at, finishOutputs))
  {
    if choice.delta.Some? {
      DeltaActionsQuiet(choice.delta.value, choiceIndex, at);
    }
    assert AllQuiet(ChoiceTextActions(choice, choiceIndex, at));
    assert AllQuiet(ChoiceReasonActions(choice, choiceIndex, finishOutputs));
  }

  lemma NativeActionsQuiet(event: Event, at: int, finishOutputs: bool)
    ensures AllQuiet(NativeActions(event, at, finishOutputs))
  {
  }

  lemma {:induction false} ObserveChoicesQuiet(a: Acc, choices: seq<Choice>, position: nat, at: int,
          finishOutputs: bool)
    requires Core(a) && NoneCompleted(a)
    ensures var (b, o) := ObserveChoices(a, choices, position, at, finishOutputs);
            NoneCompleted(b) && (a.decodeFailed ==> Honest(o))
    decreases |choices|
  {
    if choices != [] {
      var index := Index(choices[0].index, position);
      var actions := ChoiceActions(choices[0], index, at, finishOutputs);
      var (b, o) := if (Chat, index) in a.finishedChoices then (a, []) else PerformAll(a, actions, at);
      if (Chat, index) !in a.finishedChoices {
        ChoiceActionsOK(choices[0], index, at, finishOutputs);
        ChoiceActionsQuiet(choices[0], index, at, finishOutputs);
        PerformAllSafe(a, actions, at);
        PerformAllQuiet(a, actions, at);
      }
      ObserveChoicesQuiet(b, choices[1..], position + 1, at, finishOutputs);
      if a.decodeFailed {
        HonestThen(o, ObserveChoices(b, choices[1..], position + 1, at, finishOutputs).1);
      }
    }
  }

  // ---------- Responses events ----------

  lemma {:induction false} PartsActionsQuiet(parts: seq<Part>, position: nat, outputIndex: int, itemID: Bytes, at: int,
          authoritative: bool)
    ensures AllQuiet(PartsActions(parts, position, outputIndex, itemID, at, authoritative))
    decreases |parts|
  {
    if parts != [] {
      PartsActionsQuiet(parts[1..], position + 1, outputIndex, itemID, at, authoritative);
    }
  }

  lemma {:induction false} SummariesActionsQuiet(parts: seq<Part>, position: nat, outputIndex: int, itemID: Bytes,
          at: int, authoritative: bool)
    ensures AllQuiet(SummariesActions(parts, position, outputIndex, itemID, at, authoritative))
    decreases |parts|
  {
    if parts != [] {
      SummariesActionsQuiet(parts[1..], position + 1, outputIndex, itemID, at, authoritative);
    }
  }

  /** An item marks its own output completed, and only when it is done. */
  predicate MarksCompleted(item: Item, authoritative: bool) {
    authoritative && (item.status == "completed" || item.itemType == "program")
  }

  lemma ItemActionsQuiet(item: Item, outputIndex: int, at: int, authoritative: bool)
    requires !MarksCompleted(item, authoritative)
    ensures AllQuiet(ItemActions(item, outputIndex, at, authoritative))
  {
    PartsActionsQuiet(item.content, 0, outputIndex, item.id, at, authoritative);
    SummariesActionsQuiet(item.summary, 0, outputIndex, item.id, at, authoritative);
  }

  lemma PartKindsQuiet(kind: EventKind, event: Event, at: int)
    requires IsPartKind(kind)
    ensures AllQuiet(KindActions(kind, event, at))
  {
    if kind.ItemAdded? && event.item.Some? {
      ItemActionsQuiet(event.item.value, Index(event.indexes.output, 0), at, false);
    }
  }

  lemma DoneKindsQuiet(kind: EventKind, event: Event, at: int)
    requires IsDoneKind(kind)
    ensures AllQuiet(KindActions(kind, event, at))
  {
  }

  lemma DeltaKindsQuiet(kind: EventKind, event: Event, at: int)
    requires IsDeltaKind(kind)
    ensures AllQuiet(KindActions(kind, event, at))
  {
  }

  lemma KindActionsQuiet(kind: EventKind, event: Event, at: int)
    requires !kind.ItemDone?
    ensures AllQuiet(KindActions(kind, event, at))
  {
    if IsPartKind(kind) {
      PartKindsQuiet(kind, event, at);
    } else if IsDoneKind(kind) {
      DoneKindsQuiet(kind, event, at);
    } else if IsDeltaKind(kind) {
      DeltaKindsQuiet(kind, event, at);
    }
  }

  lemma LifecycleActionsQuiet(event: Event, outputIndex: int)
    ensures AllQuiet(LifecycleActions(event, outputIndex))
  {
  }

  // ---------- An item that is done ----------

  /** An item that is reported done as a completed program although its status says it is not. */
  predicate SlipsThrough(item: Item) {
    item.itemType == "program" && (item.status == "in_progress" || item.status == "queued") && item.error.None?
  }

  /** Only parts of this output may have been marked completed. */
  predicate CompletedOnlyIn(a: Acc, outputIndex: int) {
    forall k :: k in a.states && a.states[k].flags.completed ==> InOutput(k, outputIndex)
  }

  predicate UpdatesOf(actions: seq<Action>, outputIndex: int) {
    forall i :: 0 <= i < |actions| ==> actions[i].Update? && InOutput(actions[i].key, outputIndex)
  }

  lemma {:induction false} PartsActionsOf(parts: seq<Part>, position: nat, outputIndex: int, itemID: Bytes, at: int,
          authoritative: bool)
    ensures UpdatesOf(PartsActions(parts, position, outputIndex, itemID, at, authoritative), outputIndex)
    decreases |parts|
  {
    if parts != [] {
      PartsActionsOf(parts[1..], position + 1, outputIndex, itemID, at, authoritative);
    }
  }

  lemma {:induction false} SummariesActionsOf(parts: seq<Part>, position: nat, outputIndex: int, itemID: Bytes,
          at: int, authoritative: bool)
    ensures UpdatesOf(SummariesActions(parts, position, outputIndex, itemID, at, authoritative), outputIndex)
    decreases |parts|
  {
    if parts != [] {
      SummariesActionsOf(parts[1..], position + 1, outputIndex, itemID, at, authoritative);
    }
  }

  lemma ItemActionsOf(item: Item, outputIndex: int, at: int, authoritative: bool)
    ensures UpdatesOf(ItemActions(item, outputIndex, at, authoritative), outputIndex)
  {
    PartsActionsOf(item.content, 0, outputIndex, item.id, at, authoritative);
    SummariesActionsOf(item.summary, 0, outputIndex, item.id, at, authoritative);
  }

  lemma UpdateCompletesOnly(a: Acc, key: Key, edits: seq<Edit>, outputIndex: int)
    requires CompletedOnlyIn(a, outputIndex) && InOutput(key, outputIndex)
    ensures CompletedOnlyIn(UpdatePartOf(a, key, edits), outputIndex)
  {
  }

  lemma {:induction false} UpdatesCompleteOnly(a: Acc, actions: seq<Action>, outputIndex: int, at: int)
    requires CompletedOnlyIn(a, outputIndex) && UpdatesOf(actions, outputIndex)
    ensures var (b, o) := PerformAll(a, actions, at); CompletedOnlyIn(b, outputIndex) && o == []
    decreases |actions|
  {
    if actions != [] {
      UpdateCompletesOnly(a, actions[0].key, actions[0].edits, outputIndex);
      UpdatesCompleteOnly(Perform(a, actions[0], at).0, actions[1..], outputIndex, at);
    }
  }

  function ItemVerdict(item: Item): Verdict {
    var (complete, failed, message) := Status(item.status, item.error);
    Verdict(complete, failed, message)
  }

  /** Unless it slips through, every part of an item takes the status that the item is finished with. */
  lemma MarkedHonestly(a: Acc, item: Item, outputIndex: int)
    requires !SlipsThrough(item) && (MarksCompleted(item, true) || NoneCompleted(a))
    ensures var b := OutputMarked(a, outputIndex, item.status, item.error);
            forall k :: k in b.states && InOutput(k, outputIndex) ==> HonestVerdict(b.states[k], ItemVerdict(item))
  {
  }

  lemma MarkedCompletesOnly(a: Acc, status: Bytes, error: Option<Bytes>, outputIndex: int)
    requires CompletedOnlyIn(a, outputIndex)
    ensures CompletedOnlyIn(OutputMarked(a, outputIndex, status, error), outputIndex)
  {
  }

  /** Finishing an output removes all of its parts, so that nothing completed stays. */
  lemma OutputFinishedHonest(a: Acc, outputIndex: int, at: int, v: Verdict)
    requires Core(a) && VerdictOK(v) && CompletedOnlyIn(a, outputIndex)
    ensures var (b, o) := FinishOutputKinds(a, KindsOf(outputIndex), at, v);
            && NoneCompleted(b)
            && (a.decodeFailed
                && (forall k :: k in a.states && InOutput(k, outputIndex) ==> HonestVerdict(a.states[k], v))
                ==> Honest(o))
  {
    var kinds := KindsOf(outputIndex);
    NoneCompletedAfter(a, outputIndex, at, v);
    if a.decodeFailed && forall k :: k in a.states && InOutput(k, outputIndex) ==> HonestVerdict(a.states[k], v) {
      FinishOutputKindsHonest(a, kinds, at, v);
    }
  }

  lemma NoneCompletedAfter(a: Acc, outputIndex: int, at: int, v: Verdict)
    requires Core(a) && VerdictOK(v) && CompletedOnlyIn(a, outputIndex)
    ensures NoneCompleted(FinishOutputKinds(a, KindsOf(outputIndex), at, v).0)
  {
    var kinds := KindsOf(outputIndex);
    FinishOutputKindsSafe(a, kinds, at, v);
    KindsKeep(a, kinds, at, v);
    var b := FinishOutputKinds(a, kinds, at, v).0;
    forall k | k in b.states ensures !b.states[k].flags.completed {
      assert k in Surviving(a, kinds);
      if k.source == Responses {
        NotOfOutput(k, outputIndex);
      }
    }
  }

  lemma NotOfOutput(k: Key, outputIndex: int)
    requires k.source == Responses && (k.outputIndex, k.kind) !in KindsOf(outputIndex)
    ensures !InOutput(k, outputIndex)
  {
    var kinds := KindsOf(outputIndex);
    assert forall kind :: (outputIndex, kind) in kinds by {
      forall kind ensures (outputIndex, kind) in kinds {
        assert kinds[KindRank(kind)] == (outputIndex, kind);
      }
    }
  }

  /** Finishing leaves the other parts as they are. */
  lemma {:induction false} KindsKeep(a: Acc, outputs: seq<(int, Kind)>, at: int, v: Verdict)
    requires Core(a) && VerdictOK(v)
    ensures var b := FinishOutputKinds(a, outputs, at, v).0;
            forall k :: k in b.states ==> k in a.states && b.states[k] == a.states[k]
    decreases |outputs|
  {
    if outputs != [] {
      FinishOutputKindSafe(a, outputs[0].0, outputs[0].1, at, v);
      KindsKeep(FinishOutputKind(a, outputs[0].0, outputs[0].1, at, v).0, outputs[1..], at, v);
    }
  }

  /** What an item that is done does before its output is finished. */
  ghost function ItemMarked(a: Acc, item: Item, outputIndex: int, at: int): Acc {
    OutputMarked(PerformAll(a, ItemActions(item, outputIndex, at, true), at).0, outputIndex, item.status, item.error)
  }

  lemma ItemUpdated(a: Acc, item: Item, outputIndex: int, at: int)
    requires Core(a) && NoneCompleted(a)
    ensures var (b, o) := PerformAll(a, ItemActions(item, outputIndex, at, true), at);
            && Core(b) && b.decodeFailed == a.decodeFailed && CompletedOnlyIn(b, outputIndex) && o == []
            && (!MarksCompleted(item, true) ==> NoneCompleted(b))
  {
    var actions := ItemActions(item, outputIndex, at, true);
    ItemActionsOf(item, outputIndex, at, true);
    ItemActionsOK(item, outputIndex, at, true);
    PerformAllSafe(a, actions, at);
    UpdatesCompleteOnly(a, actions, outputIndex, at);
    if !MarksCompleted(item, true) {
      ItemActionsQuiet(item, outputIndex, at, true);
      PerformAllQuiet(a, actions, at);
    }
  }

  lemma ItemMarkedOK(a: Acc, item: Item, outputIndex: int, at: int)
    requires Core(a) && NoneCompleted(a)
    ensures var b := ItemMarked(a, item, outputIndex, at);
            Core(b) && b.decodeFailed == a.decodeFailed && CompletedOnlyIn(b, outputIndex)
  {
    var b := PerformAll(a, ItemActions(item, outputIndex, at, true), at).0;
    ItemUpdated(a, item, outputIndex, at);
    OutputMarkedSafe(b, outputIndex, item.status, item.error);
    MarkedCompletesOnly(b, item.status, item.error, outputIndex);
  }

  lemma ItemDoneSteps(a: Acc, item: Item, outputIndex: int, at: int)
    requires Core(a) && NoneCompleted(a)
    ensures PerformAll(a, ItemDoneActions(Some(item), outputIndex, at), at)
         == FinishOutputKinds(ItemMarked(a, item, outputIndex, at), KindsOf(outputIndex), at, ItemVerdict(item))
  {
    ItemUpdated(a, item, outputIndex, at);
    MarkThenFinish(a, ItemActions(item, outputIndex, at, true), outputIndex, item.status, item.error,
      ItemVerdict(item), at);
  }

  lemma ItemDoneHonest(a: Acc, item: Item, outputIndex: int, at: int)
    requires Core(a) && NoneCompleted(a)
    ensures var (b, o) := PerformAll(a, ItemDoneActions(Some(item), outputIndex, at), at);
            NoneCompleted(b) && (a.decodeFailed && !SlipsThrough(item) ==> Honest(o))
  {
    ItemMarkedOK(a, item, outputIndex, at);
    ItemDoneSteps(a, item, outputIndex, at);
    OutputFinishedHonest(ItemMarked(a, item, outputIndex, at), outputIndex, at, ItemVerdict(item));
    if !SlipsThrough(item) {
      ItemUpdated(a, item, outputIndex, at);
      MarkedHonestly(PerformAll(a, ItemActions(item, outputIndex, at, true), at).0, item, outputIndex);
    }
  }

  lemma NoItemDoneHonest(a: Acc, outputIndex: int, at: int)
    requires Core(a) && NoneCompleted(a)
    ensures var (b, o) := PerformAll(a, ItemDoneActions(None, outputIndex, at), at);
            NoneCompleted(b) && (a.decodeFailed ==> Honest(o))
  {
    var v := Verdict(true, false, "");
    OutputFinishedHonest(a, outputIndex, at, v);
    PerformFinish(a, outputIndex, v, at);
    PerformOne(a, FinishOutput(outputIndex, v), at);
  }

  // ---------- Whole events ----------

  /** The item that a decoded event reports done. */
  function DoneItem(event: Event): Option<Item> {
    if EventKindOf(event.envelope.eventType).ItemDone? then event.item else None
  }

  predicate EventSlips(event: Event) {
    MaySlip(DoneItem(event))
  }

  lemma KindHonest(a: Acc, kind: EventKind, event: Event, at: int)
    requires Core(a) && NoneCompleted(a) && !kind.ItemDone?
    ensures var (b, o) := PerformAll(a, KindActions(kind, event, at), at);
            NoneCompleted(b) && (a.decodeFailed ==> Honest(o))
  {
    var actions := KindActions(kind, event, at);
    KindActionsQuiet(kind, event, at);
    KindActionsOK(kind, event, at);
    AllQuietHonest(a, actions, at);
  }

  lemma AllQuietHonest(a: Acc, actions: seq<Action>, at: int)
    requires Core(a) && NoneCompleted(a) && ActionsOK(actions) && AllQuiet(actions)
    ensures var (b, o) := PerformAll(a, actions, at);
            NoneCompleted(b) && (a.decodeFailed ==> Honest(o))
  {
    PerformAllQuiet(a, actions, at);
  }

  predicate MaySlip(item: Option<Item>) {
    item.Some? && SlipsThrough(item.value)
  }

  lemma DoneHonest(a: Acc, item: Option<Item>, output: int, at: int)
    requires Core(a) && NoneCompleted(a)
    ensures var (b, o) := PerformAll(a, ItemDoneActions(item, output, at), at);
            NoneCompleted(b) && (a.decodeFailed && !MaySlip(item) ==> Honest(o))
  {
    if item.None? {
      NoItemDoneHonest(a, output, at);
    } else {
      assert item == Some(item.value);
      ItemDoneHonest(a, item.value, output, at);
    }
  }

  lemma AnyKindHonest(a: Acc, kind: EventKind, event: Event, at: int)
    requires Core(a) && NoneCompleted(a)
    ensures var (b, o) := PerformAll(a, KindActions(kind, event, at), at);
            NoneCompleted(b) && (a.decodeFailed && !(kind.ItemDone? && MaySlip(event.item)) ==> Honest(o))
  {
    if kind.ItemDone? {
      DoneHonest(a, event.item, Index(event.indexes.output, 0), at);
    } else {
      KindHonest(a, kind, event, at);
    }
  }

  lemma TypedHonest(a: Acc, event: Event, at: int)
    requires Core(a) && NoneCompleted(a)
    ensures var (b, o) := PerformAll(a, TypedActions(event, at), at);
            NoneCompleted(b) && (a.decodeFailed && !EventSlips(event) ==> Honest(o))
  {
    AnyKindHonest(a, EventKindOf(event.envelope.eventType), event, at);
  }

  predicate Silent(actions: seq<Action>) {
    forall i :: 0 <= i < |actions| ==> !actions[i].FinishChoice? && !actions[i].FinishOutput?
  }

  lemma {:induction false} SilentActions(a: Acc, actions: seq<Action>, at: int)
    requires Silent(actions)
    ensures PerformAll(a, actions, at).1 == []
    decreases |actions|
  {
    if actions != [] {
      SilentActions(Perform(a, actions[0], at).0, actions[1..], at);
    }
  }

  lemma {:induction false} FinalItemsSilent(items: seq<Item>, position: nat, at: int)
    ensures Silent(FinalItemsActions(items, position, at))
    decreases |items|
  {
    if items != [] {
      ItemActionsOf(items[0], position, at, true);
      FinalItemsSilent(items[1..], position + 1, at);
    }
  }

  /** The items of a final response, which only a terminal event brings. */
  function FinalActions(event: Event, at: int): seq<Action> {
    var t := event.envelope.eventType;
    if event.envelope.response.Some?
       && (t == "response.completed" || t == "response.failed" || t == "response.incomplete")
    then FinalItemsActions(event.envelope.response.value.output, 0, at)
    else []
  }

  lemma FinalOnlyAtEnd(event: Event, at: int)
    ensures Silent(FinalActions(event, at))
    ensures EventEnd(event.envelope).NotTerminal? ==> FinalActions(event, at) == []
  {
    if event.envelope.response.Some? {
      FinalItemsSilent(event.envelope.response.value.output, 0, at);
    }
  }

  lemma ResponsesHonest(a: Acc, event: Event, at: int)
    requires Core(a) && NoneCompleted(a)
    ensures var (b, o) := PerformAll(a, ResponsesActions(event, at), at);
            && (EventEnd(event.envelope).NotTerminal? ==> NoneCompleted(b))
            && (a.decodeFailed && !EventSlips(event) ==> Honest(o))
  {
    if event.envelope.eventType != "" {
      var typed, lifecycle := TypedActions(event, at), LifecycleActions(event, Index(event.indexes.output, 0));
      TypedHonest(a, event, at);
      KindActionsOK(EventKindOf(event.envelope.eventType), event, at);
      PerformAllSafe(a, typed, at);
      var b := PerformAll(a, typed, at).0;
      LifecycleQuiet(b, event, at);
      PerformAppend(a, typed, lifecycle, at);
      var c := PerformAll(b, lifecycle, at).0;
      FinalOnlyAtEnd(event, at);
      SilentActions(c, FinalActions(event, at), at);
      PerformAppend(a, typed + lifecycle, FinalActions(event, at), at);
      SilentTail(PerformAll(a, typed, at).1);
    }
  }

  lemma SilentTail(o: seq<Output>)
    ensures o + [] == o && o + [] + [] == o
  {
  }

  lemma LifecycleQuiet(a: Acc, event: Event, at: int)
    requires NoneCompleted(a)
    ensures var (b, o) := PerformAll(a, LifecycleActions(event, Index(event.indexes.output, 0)), at);
            NoneCompleted(b) && o == []
  {
    var actions := LifecycleActions(event, Index(event.indexes.output, 0));
    LifecycleActionsQuiet(event, Index(event.indexes.output, 0));
    if actions != [] {
      PerformOne(a, actions[0], at);
      EditPartQuiet(a, actions[0].key, actions[0].edits);
    }
  }

  lemma ObserveDecodedHonest(a: Acc, event: Event, at: int)
    requires Core(a) && NoneCompleted(a)
    ensures var (b, o) := ObserveDecoded(a, event, at);
            && Core(b) && b.decodeFailed == a.decodeFailed
            && (EventEnd(event.envelope).NotTerminal? ==> NoneCompleted(b))
            && (a.decodeFailed && !EventSlips(event) ==> Honest(o))
  {
    var finishes := !EventFailed(event.envelope);
    ObserveDecodedSafe(a, event, at);
    ObserveChoicesSafe(a, event.choices, 0, at, finishes);
    ObserveChoicesQuiet(a, event.choices, 0, at, finishes);
    var (b, o1) := ObserveChoices(a, event.choices, 0, at, finishes);
    NativeActionsOK(event, at, finishes);
    NativeActionsQuiet(event, at, finishes);
    PerformAllSafe(b, NativeActions(event, at, finishes), at);
    PerformAllQuiet(b, NativeActions(event, at, finishes), at);
    var (c, o2) := PerformAll(b, NativeActions(event, at, finishes), at);
    ResponsesHonest(c, event, at);
    var (d, o3) := PerformAll(c, ResponsesActions(event, at), at);
    if a.decodeFailed && !EventSlips(event) {
      HonestThen(o1, o2);
      HonestThen(o1 + o2, o3);
    }
  }

  lemma EndHonest(a: Acc, t: Terminal, at: int)
    requires Core(a) && t.Terminal? && VerdictOK(EndVerdict(t))
    ensures var (b, o) := FinishAll(CloseAt(a, t), at, EndVerdict(t));
            NoneCompleted(b) && (a.decodeFailed ==> Honest(o))
  {
    FinishAllSafe(CloseAt(a, t), at, EndVerdict(t));
    if a.decodeFailed {
      FinishAllHonest(CloseAt(a, t), at, EndVerdict(t));
    }
  }

  lemma ObserveEventHonest(a: Acc, event: Event, at: int)
    requires Core(a) && NoneCompleted(a)
    ensures var (b, o) := ObserveEvent(a, event, at);
            NoneCompleted(b) && (a.decodeFailed && !EventSlips(event) ==> Honest(o))
  {
    ObserveDecodedHonest(a, event, at);
    var (b, o) := ObserveDecoded(a, event, at);
    var t := EventEnd(event.envelope);
    if t.Terminal? {
      EventEndOK(event.envelope);
      EndHonest(b, t, at);
      if a.decodeFailed && !EventSlips(event) {
        HonestThen(o, FinishAll(CloseAt(b, t), at, EndVerdict(t)).1);
      }
    }
  }

  predicate InputSlips(i: Input) {
    i.Payload? && i.payload.JSON? && i.payload.event.Some? && EventSlips(i.payload.event.value)
  }

  lemma ReceiveHonest(a: Acc, i: Input)
    requires Valid(a) && NoneCompleted(a)
    ensures var (b, o) := Receive(a, i);
            NoneCompleted(b) && (a.decodeFailed && !InputSlips(i) ==> Honest(o))
  {
    match i
    case Payload(payload, protocolTerminal, at) =>
      if !a.closed && protocolTerminal {
        EndHonest(a, Terminal(false, false, ""), at);
      } else if !a.closed && payload.JSON? {
        match payload.event
        case None =>
          var b, t := a.(decodeFailed := true, limited := true), DecodeTerminal(payload);
          if t.Terminal? {
            DecodeTerminalOK(payload);
            EndHonest(b, t, at);
          }
        case Some(event) => ObserveEventHonest(a, event, at);
      }
    case MarkLimited =>
    case End(at) =>
      if !a.closed {
        var b, v := a.(closed := true), Verdict(false, false, "");
        FinishAllSafe(b, at, v);
        if a.decodeFailed {
          FinishAllHonest(b, at, v);
        }
      }
  }

  /**
   * Once a payload has failed to decode, no output of any protocol claims to be complete without
   * admitting that the observation was limited, unless a program item slips through.
   */
  lemma {:induction false} DecodeFailureAdmitted(a: Acc, inputs: seq<Input>)
    requires Valid(a) && NoneCompleted(a) && a.decodeFailed
    requires forall i :: 0 <= i < |inputs| ==> !InputSlips(inputs[i])
    ensures Honest(Run(a, inputs).1)
    decreases |inputs|
  {
    if inputs != [] {
      ReceiveSteps(a, inputs[0]);
      ReceiveHonest(a, inputs[0]);
      var (b, o) := Receive(a, inputs[0]);
      DecodeFailureAdmitted(b, inputs[1..]);
      HonestThen(o, Run(b, inputs[1..]).1);
    }
  }

  /** No reachable accumulator holds a live part that was marked completed. */
  lemma {:induction false} NoneCompletedReachable(a: Acc, inputs: seq<Input>)
    requires Valid(a) && NoneCompleted(a)
    ensures Valid(Run(a, inputs).0) && NoneCompleted(Run(a, inputs).0)
    decreases |inputs|
  {
    if inputs != [] {
      ReceiveSteps(a, inputs[0]);
      ReceiveHonest(a, inputs[0]);
      NoneCompletedReachable(Receive(a, inputs[0]).0, inputs[1..]);
    }
  }

  // ---------- Exactly when a program slips through ----------

  /** Edits that leave what a part says about its status. */
  predicate Harmless(e: Edit) {
    || PlainEdit(e) || e.DefaultToolID? || e.SetAuthoritative?
    || (e.ApplyOutputStatus? && (e.status == "in_progress" || e.status == "queued") && e.error.None?)
  }

  predicate AllHarmless(edits: seq<Edit>) {
    forall i :: 0 <= i < |edits| ==> Harmless(edits[i])
  }

  predicate SameStatus(s: State, t: State) {
    && t.flags.completed == s.flags.completed && t.flags.failed == s.flags.failed
    && t.flags.incomplete == s.flags.incomplete && t.kind == s.kind
  }

  lemma HarmlessKeepsStatus(s: State, e: Edit, limit: nat)
    requires Harmless(e)
    ensures SameStatus(s, ApplyEdit(s, e, limit))
  {
  }

  lemma {:induction false} HarmlessKeep(s: State, edits: seq<Edit>, limit: nat)
    requires AllHarmless(edits)
    ensures SameStatus(s, ApplyEdits(s, edits, limit))
    decreases |edits|
  {
    if edits != [] {
      HarmlessKeepsStatus(s, edits[0], limit);
      HarmlessKeep(ApplyEdit(s, edits[0], limit), edits[1..], limit);
    }
  }

  predicate LeavesType(edits: seq<Edit>) {
    forall i :: 0 <= i < |edits| ==> !((edits[i].AppendTo? || edits[i].Replace?) && edits[i].field == ToolTypeText)
  }

  lemma {:induction false} TypeKept(s: State, edits: seq<Edit>, limit: nat)
    requires LeavesType(edits)
    ensures TextAt(ApplyEdits(s, edits, limit).texts, ToolTypeText) == TextAt(s.texts, ToolTypeText)
    decreases |edits|
  {
    if edits != [] {
      TypeKept(ApplyEdit(s, edits[0], limit), edits[1..], limit);
    }
  }

  lemma SetNonempty(value: Bytes, limit: nat)
    requires value != "" && limit > 0
    ensures Nonempty(SetTo(value, limit))
  {
    assert Sanitised(value) != "";
  }

  function ProgramStart(item: Item, at: int): seq<Edit> {
    ToolStart(item.id) + [Touch(at), Replace(ToolIDText, if item.callID == "" then item.id else item.callID)]
  }

  function ProgramRest(item: Item): seq<Edit> {
    [Replace(NameText, item.name), Replace(ArgumentsText, item.arguments), SetAuthoritative(item.arguments != ""),
     ApplyOutputStatus(item.status, item.error)]
  }

  function ProgramEdits(item: Item, at: int): seq<Edit> {
    ProgramStart(item, at) + ([Replace(ToolTypeText, "program")] + (ProgramRest(item) + [SetCompleted]))
  }

  lemma ProgramAction(item: Item, outputIndex: int, at: int)
    requires SlipsThrough(item)
    ensures ItemActions(item, outputIndex, at, true) == [Update(ToolKey(outputIndex), ProgramEdits(item, at))]
  {
    var shown := ToolStart(item.id) + ([Touch(at),
      Replace(ToolIDText, if item.callID == "" then item.id else item.callID),
      Replace(ToolTypeText, "program"), Replace(NameText, item.name)]
      + ([Replace(ArgumentsText, item.arguments), SetAuthoritative(item.arguments != ""),
          ApplyOutputStatus(item.status, item.error)] + [SetCompleted]));
    assert shown == ProgramEdits(item, at);
  }

  lemma EditsInStages(s: State, x: seq<Edit>, e: Edit, y: seq<Edit>, f: Edit, limit: nat)
    ensures ApplyEdits(s, x + ([e] + (y + [f])), limit)
         == ApplyEdit(ApplyEdits(ApplyEdit(ApplyEdits(s, x, limit), e, limit), y, limit), f, limit)
  {
    ApplyEditsAppend(s, x, [e] + (y + [f]), limit);
    assert ([e] + (y + [f]))[1..] == y + [f];
    var t := ApplyEdit(ApplyEdits(s, x, limit), e, limit);
    ApplyEditsAppend(t, y, [f], limit);
    assert [f][1..] == [];
  }

  /** Named a program, then marked completed: the flags it had stay. */
  lemma NamedAndCompleted(s: State, x: seq<Edit>, y: seq<Edit>, limit: nat)
    requires AllHarmless(x) && AllHarmless(y) && LeavesType(y) && limit > 0
    ensures var t := ApplyEdits(s, x + ([Replace(ToolTypeText, "program")] + (y + [SetCompleted])), limit);
            && t.flags.completed && t.flags.failed == s.flags.failed && t.flags.incomplete == s.flags.incomplete
            && t.kind == s.kind && Nonempty(TextAt(t.texts, ToolTypeText))
  {
    var named := Replace(ToolTypeText, "program");
    EditsInStages(s, x, named, y, SetCompleted, limit);
    HarmlessKeep(s, x, limit);
    SetNonempty("program", limit);
    var s2 := ApplyEdit(ApplyEdits(s, x, limit), named, limit);
    HarmlessKeep(s2, y, limit);
    TypeKept(s2, y, limit);
  }

  lemma ProgramEdited(s: State, item: Item, at: int, limit: nat)
    requires SlipsThrough(item) && limit > 0
    ensures var t := ApplyEdits(s, ProgramEdits(item, at), limit);
            && t.flags.completed && t.flags.failed == s.flags.failed && t.flags.incomplete == s.flags.incomplete
            && t.kind == s.kind && Nonempty(TextAt(t.texts, ToolTypeText))
  {
    NamedAndCompleted(s, ProgramStart(item, at), ProgramRest(item), limit);
  }

  predicate Undone(s: State) {
    s.flags.failed || s.flags.incomplete
  }

  /** The tool part of the output is live or can be created, and is neither failed nor incomplete. */
  predicate ToolOpen(a: Acc, outputIndex: int) {
    var key := ToolKey(outputIndex);
    GetState(a, key).1 && (key in a.states ==> !Undone(a.states[key]))
  }

  predicate OnlyToolCompleted(b: Acc, outputIndex: int) {
    forall k :: k in b.states && k != ToolKey(outputIndex) ==> !b.states[k].flags.completed
  }

  /** A part that will be given out complete although its item is not. */
  predicate SlipsOut(s: State) {
    s.kind == ToolCall && HasData(s) && !Open(s)
  }

  lemma ToolGot(a: Acc, key: Key)
    requires Core(a) && NoneCompleted(a) && KeyOK(key)
    ensures var (b, ok) := GetState(a, key);
            && b.limit == a.limit && NoneCompleted(b) && (a.limited ==> b.limited)
            && (ok <==> key in b.states)
            && (ok ==> b.limited == a.limited && b.states[key].kind == key.kind
                       && (Undone(b.states[key]) <==> key in a.states && Undone(a.states[key])))
  {
    GetStateQuiet(a, key);
    if key in a.states {
      assert StateOK(key, a.states[key], a.limit);
      LiveGot(a, key);
    }
  }

  lemma LiveGot(a: Acc, key: Key)
    requires Core(a) && key in a.states
    ensures GetState(a, key) == (a, true)
  {
    assert GroupOf(key) !in a.finishedGroups;
  }

  lemma ToolUpdated(a: Acc, item: Item, outputIndex: int, at: int)
    requires Core(a) && NoneCompleted(a) && SlipsThrough(item)
    ensures var b, key := UpdatePartOf(a, ToolKey(outputIndex), ProgramEdits(item, at)), ToolKey(outputIndex);
            && (ToolOpen(a, outputIndex) ==> b.limited == a.limited && key in b.states && SlipsOut(b.states[key]))
            && (a.limited ==> b.limited)
            && (!ToolOpen(a, outputIndex) && key in b.states ==> Open(b.states[key]))
            && OnlyToolCompleted(b, outputIndex)
  {
    var key := ToolKey(outputIndex);
    var (b, ok) := GetState(a, key);
    ToolGot(a, key);
    if ok {
      ProgramSlipsOut(b.states[key], item, at, a.limit);
    }
  }

  lemma ProgramSlipsOut(s: State, item: Item, at: int, limit: nat)
    requires SlipsThrough(item) && limit > 0 && s.kind == ToolCall
    ensures var t := ApplyEdits(s, ProgramEdits(item, at), limit);
            if Undone(s) then Open(t) else SlipsOut(t)
  {
    ProgramEdited(s, item, at, limit);
  }

  lemma MarkUpdated(a: Acc, item: Item, outputIndex: int)
    requires SlipsThrough(item)
    ensures OutputMarked(a, outputIndex, item.status, item.error) == a
  {
    var b := OutputMarked(a, outputIndex, item.status, item.error);
    forall k | k in a.states ensures b.states[k] == a.states[k] {
      assert StatusApplied(a.states[k], item.status, item.error) == a.states[k];
    }
    SameMap(a.states, b.states);
  }

  /** The program item marks its tool part completed; its status marks nothing. */
  lemma ProgramMarked(a: Acc, item: Item, outputIndex: int, at: int)
    requires SlipsThrough(item)
    ensures ItemMarked(a, item, outputIndex, at) == UpdatePartOf(a, ToolKey(outputIndex), ProgramEdits(item, at))
  {
    ProgramAction(item, outputIndex, at);
    PerformOne(a, Update(ToolKey(outputIndex), ProgramEdits(item, at)), at);
    MarkUpdated(UpdatePartOf(a, ToolKey(outputIndex), ProgramEdits(item, at)), item, outputIndex);
  }

  /** Finishing the tool part that slips out gives a complete output with no admission. */
  lemma ToolSlipsOut(b: Acc, outputIndex: int, at: int)
    requires Core(b) && !b.limited && ToolKey(outputIndex) in b.states && SlipsOut(b.states[ToolKey(outputIndex)])
    ensures var o := FinishOutputKind(b, outputIndex, ToolCall, at, Verdict(false, false, "")).1;
            |o| == 1 && o[0].complete && !o[0].observationLimited
  {
    var key, v := ToolKey(outputIndex), Verdict(false, false, "");
    var sorted := SortedParts(b, outputIndex, ToolCall);
    FinishOutputKindClosed(b, outputIndex, ToolCall, at, v);
    OnlyToolPart(b, outputIndex);
    var parts := PartOutputs(b, sorted, at, v);
    var part := PartOutput(b, key, at, v);
    OnePart(b, key, at, v);
    assert part.complete && !part.observationLimited;
    MergedCompletes(parts, at, b.limit, b.limited);
    MergeVerdictMeaning(Verdict(true, false, ""), parts);
  }

  lemma OnePart(a: Acc, key: Key, at: int, v: Verdict)
    requires key in a.states && HasData(a.states[key])
    ensures PartOutputs(a, [key], at, v) == [PartOutput(a, key, at, v)]
  {
    assert [key][1..] == [];
  }

  lemma OnlyToolPart(b: Acc, outputIndex: int)
    requires Core(b) && ToolKey(outputIndex) in b.states
    ensures SortedParts(b, outputIndex, ToolCall) == [ToolKey(outputIndex)]
  {
    var keys, key := PartKeys(b, outputIndex, ToolCall), ToolKey(outputIndex);
    forall k ensures k in keys <==> k == key {
      if k in keys {
        assert KeyOK(k);
      }
    }
    assert IsSortOf([key], keys, PartRank);
    PartRankTotal(b, outputIndex, ToolCall);
    SortUnique([key], SortOf(keys, PartRank), keys, PartRank);
  }

  /** Finishing another kind first does not touch the tool part. */
  lemma OtherKindKeepsTool(b: Acc, outputIndex: int, kind: Kind, at: int, v: Verdict)
    requires Core(b) && VerdictOK(v) && kind != ToolCall && ToolKey(outputIndex) in b.states
    ensures var c, key := FinishOutputKind(b, outputIndex, kind, at, v).0, ToolKey(outputIndex);
            Core(c) && c.limited == b.limited && key in c.states && c.states[key] == b.states[key]
  {
    FinishOutputKindSafe(b, outputIndex, kind, at, v);
  }

  lemma OutputSlipsOut(b: Acc, outputIndex: int, at: int)
    requires Core(b) && !b.limited && ToolKey(outputIndex) in b.states && SlipsOut(b.states[ToolKey(outputIndex)])
    ensures !Honest(FinishOutputKinds(b, KindsOf(outputIndex), at, Verdict(false, false, "")).1)
  {
    var v := Verdict(false, false, "");
    OtherKindKeepsTool(b, outputIndex, Reasoning, at, v);
    var (c, o1) := FinishOutputKind(b, outputIndex, Reasoning, at, v);
    OtherKindKeepsTool(c, outputIndex, Kind.Response, at, v);
    var (d, o2) := FinishOutputKind(c, outputIndex, Kind.Response, at, v);
    ToolSlipsOut(d, outputIndex, at);
    FinishThree(b, outputIndex, at, v);
    DishonestAtLast(o1, o2, FinishOutputKind(d, outputIndex, ToolCall, at, v).1);
  }

  lemma DishonestAtLast(o: seq<Output>, p: seq<Output>, q: seq<Output>)
    requires |q| == 1 && q[0].complete && !q[0].observationLimited
    ensures !Honest(o + (p + q))
  {
    assert (o + (p + q))[|o| + |p|] == q[0];
  }

  lemma FinishThree(b: Acc, outputIndex: int, at: int, v: Verdict)
    ensures var (c, o1) := FinishOutputKind(b, outputIndex, Reasoning, at, v);
            var (d, o2) := FinishOutputKind(c, outputIndex, Kind.Response, at, v);
            var (e, o3) := FinishOutputKind(d, outputIndex, ToolCall, at, v);
            FinishOutputKinds(b, KindsOf(outputIndex), at, v) == (e, o1 + (o2 + o3))
  {
    var kinds := KindsOf(outputIndex);
    var (c, o1) := FinishOutputKind(b, outputIndex, Reasoning, at, v);
    var (d, o2) := FinishOutputKind(c, outputIndex, Kind.Response, at, v);
    var (e, o3) := FinishOutputKind(d, outputIndex, ToolCall, at, v);
    assert kinds[1..] == [(outputIndex, Kind.Response), (outputIndex, ToolCall)];
    assert kinds[1..][1..] == [(outputIndex, ToolCall)];
    assert kinds[1..][1..][1..] == [];
    assert FinishOutputKinds(d, kinds[1..][1..], at, v) == (e, o3) by {
      assert o3 + [] == o3;
    }
  }

  /** The item's own actions give such an output exactly when the part can be had and is not undone. */
  lemma ItemSlips(a: Acc, item: Item, outputIndex: int, at: int)
    requires Core(a) && NoneCompleted(a) && a.decodeFailed && SlipsThrough(item)
    ensures !Honest(PerformAll(a, ItemDoneActions(Some(item), outputIndex, at), at).1)
       <==> !a.limited && ToolOpen(a, outputIndex)
  {
    var b, v := ItemMarked(a, item, outputIndex, at), Verdict(false, false, "");
    ItemMarkedOK(a, item, outputIndex, at);
    ItemDoneSteps(a, item, outputIndex, at);
    ProgramMarked(a, item, outputIndex, at);
    ToolUpdated(a, item, outputIndex, at);
    assert ItemVerdict(item) == v;
    if !a.limited && ToolOpen(a, outputIndex) {
      OutputSlipsOut(b, outputIndex, at);
    } else if b.limited {
      FinishOutputKindsSafe(b, KindsOf(outputIndex), at, v);
    } else {
      OutputFinishedHonest(b, outputIndex, at, v);
    }
  }

  const ITEM_DONE: Bytes := "response.output_item.done"

  lemma ItemDoneType(t: Bytes)
    requires EventKindOf(t).ItemDone?
    ensures t == ITEM_DONE
  {
  }

  /** Such an event does not fail, is not native and brings no final response. */
  predicate Plainly(e: Envelope) {
    && e.eventType != "" && !EventFailed(e)
    && e.eventType != "response.completed" && e.eventType != "response.failed" && e.eventType != "response.incomplete"
  }

  lemma ItemDonePlainly(e: Envelope)
    requires e.eventType == ITEM_DONE
    ensures Plainly(e)
  {
  }

  lemma NoLifecycleActions(event: Event, outputIndex: int)
    requires event.envelope.eventType == ITEM_DONE
    ensures LifecycleActions(event, outputIndex) == []
  {
    assert |ITEM_DONE| == 25 && ITEM_DONE[24] == 'e' && ITEM_DONE[23] == 'n';
    NoLifecycle(ITEM_DONE);
  }

  /** No type that ends like "done" reports a lifecycle status. */
  lemma NoLifecycle(t: Bytes)
    requires |t| > 10 && t[|t| - 1] == 'e' && t[|t| - 2] == 'n'
    ensures ToolLifecycle(t) == None
  {
    var name := t[9..];
    assert name[|name| - 1] == 'e' && name[|name| - 2] == 'n';
    NoStatus(name, "completed");
    NoStatus(name, "failed");
    NoStatus(name, "incomplete");
  }

  lemma NoStatus(name: Bytes, status: Bytes)
    requires |name| > 1 && |status| > 1
    requires name[|name| - 1] != status[|status| - 1] || name[|name| - 2] != status[|status| - 2]
    ensures LifecycleOf(name, status) == None
  {
    NoSuffix(name, "." + status);
  }

  lemma NoSuffix(s: Bytes, suffix: Bytes)
    requires |s| > 1 && |suffix| > 1
    requires s[|s| - 1] != suffix[|suffix| - 1] || s[|s| - 2] != suffix[|suffix| - 2]
    ensures !HasSuffix(s, suffix)
  {
    if |suffix| <= |s| {
      var tail := s[|s| - |suffix|..];
      assert tail[|suffix| - 1] == s[|s| - 1] && tail[|suffix| - 2] == s[|s| - 2];
    }
  }

  lemma PlainActions(event: Event, at: int)
    requires Plainly(event.envelope)
    ensures NativeActions(event, at, true) == []
    ensures ResponsesActions(event, at)
         == TypedActions(event, at) + LifecycleActions(event, Index(event.indexes.output, 0)) + []
  {
  }

  lemma ItemDoneTyped(event: Event, at: int)
    requires EventSlips(event)
    ensures TypedActions(event, at) == ItemDoneActions(event.item, Index(event.indexes.output, 0), at)
  {
  }

  lemma NothingElse(actions: seq<Action>)
    ensures actions + [] + [] == actions
  {
  }

  /** The accumulator after the choices of an event, which come first; an event without any leaves it as it is. */
  ghost function AfterChoices(a: Acc, event: Event, at: int): (b: Acc)
    ensures event.choices == [] ==> b == a
  {
    ObserveChoices(a, event.choices, 0, at, !EventFailed(event.envelope)).0
  }

  /** An item that is done brings its own actions and nothing else. */
  lemma SlipsAlone(event: Event, at: int)
    requires EventSlips(event)
    ensures Plainly(event.envelope) && NativeActions(event, at, true) == []
    ensures ResponsesActions(event, at) == ItemDoneActions(event.item, Index(event.indexes.output, 0), at)
  {
    ItemDoneType(event.envelope.eventType);
    ItemDonePlainly(event.envelope);
    PlainActions(event, at);
    NoLifecycleActions(event, Index(event.indexes.output, 0));
    ItemDoneTyped(event, at);
    NothingElse(TypedActions(event, at));
  }

  lemma DecodedSlips(a: Acc, event: Event, at: int)
    requires Core(a) && NoneCompleted(a) && a.decodeFailed && EventSlips(event)
    ensures var b := AfterChoices(a, event, at);
            !Honest(ObserveDecoded(a, event, at).1) <==> !b.limited && ToolOpen(b, Index(event.indexes.output, 0))
  {
    SlipsAlone(event, at);
    var (b, o1) := ObserveChoices(a, event.choices, 0, at, true);
    ObserveChoicesSafe(a, event.choices, 0, at, true);
    ObserveChoicesQuiet(a, event.choices, 0, at, true);
    ItemSlips(b, event.item.value, Index(event.indexes.output, 0), at);
    var o3 := PerformAll(b, ResponsesActions(event, at), at).1;
    DishonestAfter(o1 + [], o3);
  }

  lemma DishonestAfter(o: seq<Output>, p: seq<Output>)
    requires Honest(o)
    ensures Honest(o + p) <==> Honest(p)
  {
    assert forall i :: 0 <= i < |p| ==> (o + p)[|o| + i] == p[i];
  }

  lemma HonestBefore(o: seq<Output>, p: seq<Output>)
    requires Honest(p)
    ensures Honest(o + p) <==> Honest(o)
  {
    assert forall i :: 0 <= i < |o| ==> (o + p)[i] == o[i];
  }

  /**
   * After a decode failure, the event that reports a program item done while its status is
   * in_progress or queued makes Observe give out an output that claims to be complete without
   * admitting any limit, exactly when no cap was hit and the tool part of the item can be had and
   * is neither failed nor incomplete.
   */
  lemma ProgramSlips(a: Acc, event: Event, at: int)
    requires Valid(a) && NoneCompleted(a) && !a.closed && a.decodeFailed && EventSlips(event)
    ensures var b := AfterChoices(a, event, at);
            !Honest(Receive(a, Decoded(event, at)).1) <==> !b.limited && ToolOpen(b, Index(event.indexes.output, 0))
  {
    DecodedSlips(a, event, at);
    ObserveDecodedSafe(a, event, at);
    var (c, o) := ObserveDecoded(a, event, at);
    var t := EventEnd(event.envelope);
    assert Receive(a, Decoded(event, at)) == ObserveEvent(a, event, at);
    if t.Terminal? {
      EventEndOK(event.envelope);
      EndHonest(c, t, at);
      HonestBefore(o, FinishAll(CloseAt(c, t), at, EndVerdict(t)).1);
    }
  }

  /** It does happen: after one undecodable payload, such an item is given out as a success. */
  lemma ProgramSlipsFromTheStart(limit: int, event: Event, at: int)
    requires EventSlips(event) && event.choices == []
    ensures !Honest(Run(NewAcc(limit), [Input.Payload(NotJSON, false, at), Decoded(event, at)]).1)
  {
    var a := NewAcc(limit).(decodeFailed := true);
    NewAccValid(limit);
    assert Receive(NewAcc(limit), Input.Payload(NotJSON, false, at)) == (a, []);
    assert AfterChoices(a, event, at) == a;
    FreshToolOpen(limit, Index(event.indexes.output, 0));
    ProgramSlips(a, event, at);
    var first, second := [Input.Payload(NotJSON, false, at)], [Decoded(event, at)];
    RunAppend(NewAcc(limit), first, second);
    OneInput(NewAcc(limit), first[0]);
    OneInput(a, second[0]);
    assert first + second == [Input.Payload(NotJSON, false, at), Decoded(event, at)];
    assert [] + Run(a, second).1 == Run(a, second).1;
  }

  lemma FreshToolOpen(limit: int, outputIndex: int)
    ensures ToolOpen(NewAcc(limit).(decodeFailed := true), outputIndex)
  {
  }
}

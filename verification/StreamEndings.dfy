/**
 * The events that give outputs out, by their types and fields alone: a choice that finishes, an
 * item that is done, a tool call whose lifecycle is reported, and each way in which a stream
 * ends. What is given out is one output for each group that has something to report, and that
 * is what the parts of the group come to.
 */
module StreamEndings {
  import opened Bytes
  import opened LimitedText
  import opened Ordering
  import opened StreamEvents
  import opened StreamParts
  import opened StreamActions
  import opened StreamAssembly
  import opened StreamFinishing
  import opened StreamInvariants
  import opened StreamSafety
  import opened StreamTexts
  import opened StreamRuns
  import opened StreamOrder
  import opened StreamReports
  import StreamStatus
  import opened StreamMeaning

  // ---------- What is given out ----------

  /** All the parts of a group that have something to report, in their order. */
  ghost predicate ListsOf(ks: seq<Key>, g: Group, heard: Key -> State) {
    ks != [] && InJoinOrder(ks) && forall k :: k in ks <==> GroupOf(k) == g && Speaking(heard(k))
  }

  function PartsOf(ks: seq<Key>, heard: Key -> State): seq<State> {
    if ks == [] then [] else [heard(ks[0])] + PartsOf(ks[1..], heard)
  }

  /**
   * One output for each group of these parts that has something to report, each what the parts of
   * its group come to, and nothing else.
   */
  ghost predicate GivesOut(outputs: seq<Output>, over: Key -> bool, heard: Key -> State, e: Ending) {
    && (forall i, j :: 0 <= i < j < |outputs| ==> OutputGroup(outputs[i]) != OutputGroup(outputs[j]))
    && (forall o :: o in outputs ==> Voiced(over, heard, OutputGroup(o)))
    && forall g: Group, ks: seq<Key> :: ListsOf(ks, g, heard) && over(ks[0]) ==>
         Reported(outputs, g, ks, PartsOf(ks, heard), e)
  }

  /** Some of these parts belongs to the group and has something to report. */
  ghost predicate Voiced(over: Key -> bool, heard: Key -> State, g: Group) {
    exists k :: over(k) && GroupOf(k) == g && Speaking(heard(k))
  }

  /** The live parts are what was heard, and of other parts nothing was. */
  ghost predicate Holds(c: Acc, heard: Key -> State) {
    forall k :: if k in c.states then c.states[k] == heard(k) else !Speaking(heard(k))
  }

  lemma Listed(c: Acc, heard: Key -> State, ks: seq<Key>, g: Group)
    requires Holds(c, heard) && ListsOf(ks, g, heard)
    ensures Lists(ks, c.states, g) && StatesAt(c, ks) == PartsOf(ks, heard)
  {
    forall k ensures k in ks <==> k in c.states && GroupOf(k) == g && Speaking(c.states[k]) {
      assert k in ks <==> GroupOf(k) == g && Speaking(heard(k));
    }
    StatesHeard(c, heard, ks);
  }

  lemma {:induction false} StatesHeard(c: Acc, heard: Key -> State, ks: seq<Key>)
    requires Holds(c, heard) && forall k :: k in ks ==> k in c.states
    ensures StatesAt(c, ks) == PartsOf(ks, heard)
  {
    if ks != [] {
      StatesHeard(c, heard, ks[1..]);
    }
  }

  lemma VoicesHeard(c: Acc, heard: Key -> State, among: set<Key>, over: Key -> bool, outputs: seq<Output>)
    requires Holds(c, heard) && AllSpeak(c.states, among, outputs) && forall k :: k in among ==> over(k)
    ensures forall o :: o in outputs ==> Voiced(over, heard, OutputGroup(o))
  {
    forall o | o in outputs ensures Voiced(over, heard, OutputGroup(o)) {
      assert GroupSpeaks(c.states, among, OutputGroup(o));
      var k :| k in among && k in c.states && GroupOf(k) == OutputGroup(o) && Speaking(c.states[k]);
      assert over(k) && c.states[k] == heard(k);
    }
  }

  function Everything(): Key -> bool {
    _ => true
  }

  /** The end of a stream. */
  lemma AllGivenOut(c: Acc, heard: Key -> State, at: int, v: Verdict)
    requires Core(c) && Told(v) && Holds(c, heard)
    ensures GivesOut(FinishAll(c, at, v).1, Everything(), heard, EndingOf(c, at, v))
  {
    var outputs := FinishAll(c, at, v).1;
    FinishAllSafe(c, at, v);
    OnlySpeakers(c, at, v);
    VoicesHeard(c, heard, c.states.Keys, Everything(), outputs);
    forall g: Group, ks: seq<Key> | ListsOf(ks, g, heard) && Everything()(ks[0])
      ensures Reported(outputs, g, ks, PartsOf(ks, heard), EndingOf(c, at, v))
    {
      Listed(c, heard, ks, g);
      AllReport(c, g, ks, at, v);
    }
  }

  function OfTheChoice(source: Source, index: int): Key -> bool {
    (k: Key) => k.source == source && k.choiceIndex == index
  }

  lemma ChoiceGivenOut(c: Acc, heard: Key -> State, source: Source, index: int, at: int, v: Verdict)
    requires Core(c) && Told(v) && Holds(c, heard) && source != Responses
    ensures var (d, outputs) := FinishMatching(c, ChoiceKeys(c, source, index), at, v);
            && d == AllFinished(c, ChoiceKeys(c, source, index))
            && GivesOut(outputs, OfTheChoice(source, index), heard, EndingOf(c, at, v))
  {
    var keys := ChoiceKeys(c, source, index);
    var outputs := FinishMatching(c, keys, at, v).1;
    FinishMatchingSafe(c, keys, at, v);
    MatchingSpeaks(c, keys, at, v);
    VoicesHeard(c, heard, keys, OfTheChoice(source, index), outputs);
    forall g: Group, ks: seq<Key> | ListsOf(ks, g, heard) && OfTheChoice(source, index)(ks[0])
      ensures Reported(outputs, g, ks, PartsOf(ks, heard), EndingOf(c, at, v))
    {
      Listed(c, heard, ks, g);
      assert ks[0] in ks;
      MatchingReports(c, keys, g, ks, at, v);
    }
  }

  function OfTheOutput(outputIndex: int): Key -> bool {
    (k: Key) => k.source == Responses && k.outputIndex == outputIndex
  }

  lemma OutputGivenOut(c: Acc, heard: Key -> State, outputIndex: int, at: int, v: Verdict)
    requires Core(c) && Told(v) && Holds(c, heard)
    ensures GivesOut(FinishOutputKinds(c, KindsOf(outputIndex), at, v).1, OfTheOutput(outputIndex), heard,
              EndingOf(c, at, v))
  {
    var kinds := KindsOf(outputIndex);
    var outputs := FinishOutputKinds(c, kinds, at, v).1;
    FinishOutputKindsSafe(c, kinds, at, v);
    KindsSpeak(c, kinds, at, v);
    VoicesHeard(c, heard, KeysOf(c, kinds), OfTheOutput(outputIndex), outputs);
    forall g: Group, ks: seq<Key> | ListsOf(ks, g, heard) && OfTheOutput(outputIndex)(ks[0])
      ensures Reported(outputs, g, ks, PartsOf(ks, heard), EndingOf(c, at, v))
    {
      Listed(c, heard, ks, g);
      assert ks[0] in ks && KeyOK(ks[0]);
      KindListed(outputIndex, ks[0].kind);
      KindsReport(c, kinds, outputIndex, ks[0].kind, ks, at, v);
    }
  }

  lemma KindListed(outputIndex: int, kind: Kind)
    ensures (outputIndex, kind) in KindsOf(outputIndex)
  {
    var kinds := KindsOf(outputIndex);
    assert kinds[0] == (outputIndex, Reasoning) && kinds[1] == (outputIndex, Kind.Response);
    assert kinds[2] == (outputIndex, ToolCall);
  }

  // ---------- What was told before ----------

  /** The parts once the actions of an event have been heard, whether or not they are live. */
  lemma ToldBefore(a: Acc, actions: seq<Action>, at: int, heard: Key -> State)
    requires Core(a) && ActionsOK(actions) && AllUpdates(actions) && Room(a, Claimed(actions))
    requires forall k :: heard(k) == On(PartOrNew(a.states, k), actions, k, a.limit)
    ensures var (b, outputs) := PerformAll(a, actions, at);
            && Core(b) && Holds(b, heard) && outputs == []
            && b == a.(states := b.states, groups := b.groups, createdParts := b.createdParts)
            && forall k :: PartOrNew(b.states, k) == heard(k)
  {
    var b := Assembled(a, actions);
    UpdatesAssemble(a, actions, at);
    AssembledOwnChanges(a, actions);
    PerformAllSafe(a, actions, at);
    ToldParts(a, actions, b, heard);
    AsTheyAre(b, heard);
  }

  lemma ToldParts(a: Acc, actions: seq<Action>, b: Acc, heard: Key -> State)
    requires AllUpdates(actions) && HasOwnChanges(a, actions, b)
    requires forall k :: heard(k) == On(PartOrNew(a.states, k), actions, k, a.limit)
    ensures forall k :: PartOrNew(b.states, k) == heard(k)
  {
    forall k ensures PartOrNew(b.states, k) == heard(k) {
      PartFound(a, actions, b, k);
    }
  }

  lemma NewIsSilent(k: Key)
    ensures !Speaking(NewState(k.kind, LabelsOf(k)))
  {
  }

  /** Of these parts none is left; the others are as they were. */
  ghost predicate Leaves(d: Acc, over: Key -> bool, heard: Key -> State) {
    forall k :: if over(k) then k !in d.states else PartOrNew(d.states, k) == heard(k)
  }

  // ---------- An item that is done ----------

  /** How the output of an item ends, by the item's status. */
  function ItemEnds(item: Item): Verdict {
    if item.error.Some? then Verdict(false, true, item.error.value)
    else if item.status == "failed" || item.status == "error" then Verdict(false, true, "upstream reported an error")
    else
      var unended := item.status == "incomplete" || item.status == "cancelled" || item.status == "canceled"
        || item.status == "in_progress" || item.status == "queued";
      Verdict(!unended, false, "")
  }

  /** The item's own parts are heard as done, and the status reaches every part of the output. */
  function DoneHeard(s: State, key: Key, item: Item, output: int, at: int, limit: nat): State {
    var r := ItemHeard(s, key, item, true, output, at, limit);
    if OfTheOutput(output)(key) then OutputStatusHeard(r, item.status, item.error) else r
  }

  lemma MarkKeepsVoice(s: State, status: Bytes, error: Option<Bytes>)
    ensures Speaking(OutputStatusHeard(s, status, error)) <==> Speaking(s)
  {
  }

  /** The status reaches every part of the output and no other. */
  ghost predicate StatusReaches(output: int, status: Bytes, error: Option<Bytes>, before: Key -> State,
          heard: Key -> State) {
    forall k :: heard(k) == if OfTheOutput(output)(k) then OutputStatusHeard(before(k), status, error) else before(k)
  }

  lemma MarkedHolds(b: Acc, output: int, status: Bytes, error: Option<Bytes>, before: Key -> State, heard: Key -> State)
    requires Core(b) && Holds(b, before)
    requires StatusReaches(output, status, error, before, heard)
    ensures Core(OutputMarked(b, output, status, error)) && Holds(OutputMarked(b, output, status, error), heard)
  {
    var c := OutputMarked(b, output, status, error);
    OutputMarkedSafe(b, output, status, error);
    forall k ensures if k in c.states then c.states[k] == heard(k) else !Speaking(heard(k)) {
      MarkKeepsVoice(before(k), status, error);
      if k in b.states {
        OutputStatusMeans(b.states[k], status, error, b.limit);
      }
    }
  }

  lemma OutputLeft(c: Acc, output: int, at: int, v: Verdict)
    requires Core(c) && VerdictOK(v)
    ensures var d := FinishOutputKinds(c, KindsOf(output), at, v).0;
            forall k :: if OfTheOutput(output)(k) then k !in d.states
                        else PartOrNew(d.states, k) == PartOrNew(c.states, k)
  {
    FinishOutputKindsSafe(c, KindsOf(output), at, v);
    KindsSpeak(c, KindsOf(output), at, v);
    var d := FinishOutputKinds(c, KindsOf(output), at, v).0;
    forall k ensures if OfTheOutput(output)(k) then k !in d.states
                     else PartOrNew(d.states, k) == PartOrNew(c.states, k)
    {
      KindListed(output, k.kind);
      assert k in d.states <==> k in Surviving(c, KindsOf(output));
      assert forall x :: x in KindsOf(output) ==> x.0 == output;
    }
  }

  lemma ItemDoneIs(t: Bytes)
    requires t == "response.output_item.done"
    ensures EventKindOf(t).ItemDone?
  {
  }

  lemma ItemDoneKind(event: Event, at: int)
    requires EventKindOf(event.envelope.eventType).ItemDone?
    ensures TypedActions(event, at) == ItemDoneActions(event.item, Index(event.indexes.output, 0), at)
  {
  }

  /** Such an event asks for nothing else. */
  lemma ItemDoneAlone(a: Acc, event: Event, at: int)
    requires event.envelope.eventType == "response.output_item.done" && event.choices == []
    requires !EndsStream(event.envelope) && !a.closed
    ensures Receive(a, Decoded(event, at))
         == PerformAll(a, ItemDoneActions(event.item, Index(event.indexes.output, 0), at), at)
  {
    var actions := ItemDoneActions(event.item, Index(event.indexes.output, 0), at);
    ItemDoneIs(event.envelope.eventType);
    ItemDoneKind(event, at);
    StreamStatus.NoLifecycleActions(event, Index(event.indexes.output, 0));
    StreamGoesOn(event.envelope);
    assert actions + [] + [] == actions;
    assert ResponsesActions(event, at) == actions;
    DecodedAlone(a, event, at);
  }

  /** An event of a type, with no choices, that does not end the stream. */
  lemma DecodedAlone(a: Acc, event: Event, at: int)
    requires event.envelope.eventType != "" && event.choices == [] && !EndsStream(event.envelope) && !a.closed
    ensures Receive(a, Decoded(event, at)) == PerformAll(a, ResponsesActions(event, at), at)
  {
    StreamGoesOn(event.envelope);
    var (d, o) := PerformAll(a, ResponsesActions(event, at), at);
    assert [] + [] + o == o;
  }

  /** The output is given out, and the other parts are left. */
  ghost predicate OutputEnds(r: (Acc, seq<Output>), output: int, heard: Key -> State, e: Ending) {
    GivesOut(r.1, OfTheOutput(output), heard, e) && Leaves(r.0, OfTheOutput(output), heard)
  }

  lemma OutputFinished(c: Acc, heard: Key -> State, output: int, at: int, v: Verdict)
    requires Core(c) && Told(v) && Holds(c, heard)
    requires forall k :: !OfTheOutput(output)(k) ==> PartOrNew(c.states, k) == heard(k)
    ensures OutputEnds(FinishOutputKinds(c, KindsOf(output), at, v), output, heard, EndingOf(c, at, v))
  {
    OutputGivenOut(c, heard, output, at, v);
    OutputLeft(c, output, at, v);
  }

  lemma MarkedOthers(b: Acc, output: int, status: Bytes, error: Option<Bytes>)
    ensures forall k :: !OfTheOutput(output)(k) ==>
              PartOrNew(OutputMarked(b, output, status, error).states, k) == PartOrNew(b.states, k)
    ensures forall at, v :: EndingOf(OutputMarked(b, output, status, error), at, v) == EndingOf(b, at, v)
  {
  }

  /** The output marked and finished, once its item has been heard. */
  lemma MarkedFinished(b: Acc, item: Item, output: int, at: int, before: Key -> State, heard: Key -> State)
    requires Core(b) && Holds(b, before) && forall k :: PartOrNew(b.states, k) == before(k)
    requires StatusReaches(output, item.status, item.error, before, heard)
    ensures var c := OutputMarked(b, output, item.status, item.error);
            OutputEnds(FinishOutputKinds(c, KindsOf(output), at, ItemEnds(item)), output, heard,
              EndingOf(b, at, ItemEnds(item)))
  {
    MarkedHolds(b, output, item.status, item.error, before, heard);
    MarkedOthers(b, output, item.status, item.error);
    OutputFinished(OutputMarked(b, output, item.status, item.error), heard, output, at, ItemEnds(item));
  }

  lemma ItemSettled(a: Acc, item: Item, output: int, at: int, heard: Key -> State)
    requires Core(a) && Room(a, Claimed(ItemActions(item, output, at, true)))
    requires forall k :: heard(k) == DoneHeard(PartOrNew(a.states, k), k, item, output, at, a.limit)
    ensures OutputEnds(PerformAll(a, ItemDoneActions(Some(item), output, at), at), output, heard,
              EndingOf(a, at, ItemEnds(item)))
  {
    var before := (k: Key) => ItemHeard(PartOrNew(a.states, k), k, item, true, output, at, a.limit);
    ItemTold(a, item, output, at, before);
    var b := PerformAll(a, ItemActions(item, output, at, true), at).0;
    MarkedFinished(b, item, output, at, before, heard);
    MarkAndFinish(a, item, output, at);
  }

  lemma MarkAndFinish(a: Acc, item: Item, output: int, at: int)
    requires PerformAll(a, ItemActions(item, output, at, true), at).1 == []
    ensures PerformAll(a, ItemDoneActions(Some(item), output, at), at)
         == FinishOutputKinds(OutputMarked(PerformAll(a, ItemActions(item, output, at, true), at).0, output,
           item.status, item.error), KindsOf(output), at, ItemEnds(item))
  {
    ItemEndsAsSaid(item, output, at);
    MarkThenFinish(a, ItemActions(item, output, at, true), output, item.status, item.error, ItemEnds(item), at);
  }

  lemma ItemEndsAsSaid(item: Item, output: int, at: int)
    ensures ItemDoneActions(Some(item), output, at)
         == ItemActions(item, output, at, true)
            + [MarkOutput(output, item.status, item.error), FinishOutput(output, ItemEnds(item))]
  {
  }

  /** The parts once an item has been heard as done. */
  lemma ItemTold(a: Acc, item: Item, output: int, at: int, before: Key -> State)
    requires Core(a) && Room(a, Claimed(ItemActions(item, output, at, true)))
    requires forall k :: before(k) == ItemHeard(PartOrNew(a.states, k), k, item, true, output, at, a.limit)
    ensures var (b, outputs) := PerformAll(a, ItemActions(item, output, at, true), at);
            && Core(b) && Holds(b, before) && outputs == []
            && b == a.(states := b.states, groups := b.groups, createdParts := b.createdParts)
            && forall k :: PartOrNew(b.states, k) == before(k)
  {
    var actions := ItemActions(item, output, at, true);
    ItemUpdates(item, output, at, true);
    ItemActionsOK(item, output, at, true);
    forall k ensures before(k) == On(PartOrNew(a.states, k), actions, k, a.limit) {
      ItemMeans(PartOrNew(a.states, k), item, true, output, at, k, a.limit);
    }
    ToldBefore(a, actions, at, before);
  }

  /**
   * An item that is done gives out its output: one for each kind whose parts have something to
   * report once the item has been heard in full, with the status that the item brings.
   */
  lemma ItemGivenOut(a: Acc, event: Event, at: int, heard: Key -> State)
    requires Valid(a) && !a.closed && event.item.Some? && event.choices == [] && !EndsStream(event.envelope)
    requires event.envelope.eventType == "response.output_item.done"
    requires Room(a, Claimed(ItemActions(event.item.value, Index(event.indexes.output, 0), at, true)))
    requires forall k :: heard(k) == DoneHeard(PartOrNew(a.states, k), k, event.item.value,
                                       Index(event.indexes.output, 0), at, a.limit)
    ensures OutputEnds(Receive(a, Decoded(event, at)), Index(event.indexes.output, 0), heard,
              EndingOf(a, at, ItemEnds(event.item.value)))
  {
    ItemDoneAlone(a, event, at);
    ItemSettled(a, event.item.value, Index(event.indexes.output, 0), at, heard);
  }

  /** Without an item, the output is given out complete, as it is. */
  lemma OutputGivenOutAsIs(a: Acc, event: Event, at: int, heard: Key -> State)
    requires Valid(a) && !a.closed && event.item.None? && event.choices == [] && !EndsStream(event.envelope)
    requires event.envelope.eventType == "response.output_item.done"
    requires forall k :: heard(k) == PartOrNew(a.states, k)
    ensures OutputEnds(Receive(a, Decoded(event, at)), Index(event.indexes.output, 0), heard,
              EndingOf(a, at, Verdict(true, false, "")))
  {
    NoItemFinishes(a, event, at);
    AsTheyAre(a, heard);
    OutputFinished(a, heard, Index(event.indexes.output, 0), at, Verdict(true, false, ""));
  }

  lemma NoItemFinishes(a: Acc, event: Event, at: int)
    requires event.envelope.eventType == "response.output_item.done" && event.choices == [] && event.item.None?
    requires !EndsStream(event.envelope) && !a.closed
    ensures Receive(a, Decoded(event, at))
         == FinishOutputKinds(a, KindsOf(Index(event.indexes.output, 0)), at, Verdict(true, false, ""))
  {
    var output, v := Index(event.indexes.output, 0), Verdict(true, false, "");
    ItemDoneAlone(a, event, at);
    PerformOne(a, FinishOutput(output, v), at);
    PerformFinish(a, output, v, at);
  }

  lemma AsTheyAre(a: Acc, heard: Key -> State)
    requires forall k :: heard(k) == PartOrNew(a.states, k)
    ensures Holds(a, heard)
  {
    forall k | k !in a.states ensures !Speaking(heard(k)) {
      NewIsSilent(k);
    }
  }

  // ---------- The lifecycle of a tool call ----------

  /** A report on a tool call names it, and its status is that of the call. */
  function LifecycleHeard(s: State, event: Event, toolType: Bytes, status: Bytes, limit: nat): State {
    var named := Named(Named(ToolNamed(s, event.itemID, limit), ToolTypeText, toolType, limit), NameText, event.name,
      limit);
    var r := StatusHeard(named, status, event.envelope.error);
    if r.flags.failed && event.envelope.message != "" then r.(errorMessage := Truncate(event.envelope.message)) else r
  }

  /** By its last letters the type is none that ends in delta, done or added. */
  predicate EndsOtherwise(t: Bytes) {
    && |t| > 2 && t[|t| - 1] != 'a'
    && !(t[|t| - 1] == 'e' && t[|t| - 3] == 'o')
    && !(t[|t| - 1] == 'd' && t[|t| - 3] == 'd')
  }

  lemma NoTextDelta(t: Bytes)
    requires EndsOtherwise(t)
    ensures TextDeltaKindOf(t).OtherEvent?
  {
  }

  lemma NoToolDelta(t: Bytes)
    requires EndsOtherwise(t)
    ensures ToolDeltaKindOf(t).OtherEvent?
  {
  }

  lemma NoCommand(t: Bytes)
    requires EndsOtherwise(t)
    ensures CommandKindOf(t).OtherEvent?
  {
  }

  lemma NoTextDone(t: Bytes)
    requires EndsOtherwise(t)
    ensures TextDoneKindOf(t).OtherEvent?
  {
  }

  lemma NoToolDone(t: Bytes)
    requires EndsOtherwise(t)
    ensures ToolDoneKindOf(t).OtherEvent?
  {
  }

  lemma NoItem(t: Bytes)
    requires EndsOtherwise(t)
    ensures ItemKindOf(t).OtherEvent?
  {
  }

  lemma NoKind(t: Bytes)
    requires EndsOtherwise(t)
    ensures EventKindOf(t).OtherEvent?
  {
    NoTextDelta(t);
    NoToolDelta(t);
    NoCommand(t);
    NoTextDone(t);
    NoToolDone(t);
    NoItem(t);
    KindByGroups(t);
  }

  /** The type of a report on a tool call of this type. */
  function ReportType(toolType: Bytes, status: Bytes): Bytes {
    "response." + toolType + "." + status
  }

  predicate IsReport(toolType: Bytes, status: Bytes) {
    HasSuffix(toolType, "_call") && (status == "completed" || status == "failed" || status == "incomplete")
  }

  lemma OwnStatus(name: Bytes, toolType: Bytes, status: Bytes)
    requires HasSuffix(toolType, "_call") && name == toolType + ("." + status)
    ensures LifecycleOf(name, status) == Some((toolType, status))
  {
    assert name[|toolType|..] == "." + status && name[..|toolType|] == toolType;
  }

  lemma OtherStatus(name: Bytes, toolType: Bytes, status: Bytes, other: Bytes)
    requires name == toolType + ("." + status) && |status| > 2 && |other| > 2
    requires status[|status| - 1] != other[|other| - 1] || status[|status| - 3] != other[|other| - 3]
    ensures LifecycleOf(name, other) == None
  {
    assert HasSuffix(name, "." + status) by { assert name[|toolType|..] == "." + status; }
    LastLetters(name, "." + status);
    if HasSuffix(name, "." + other) {
      LastLetters(name, "." + other);
    }
  }

  lemma LastLetters(s: Bytes, tail: Bytes)
    requires HasSuffix(s, tail) && |tail| > 2
    ensures s[|s| - 1] == tail[|tail| - 1] && s[|s| - 3] == tail[|tail| - 3]
  {
  }

  lemma ReportRead(toolType: Bytes, status: Bytes)
    requires IsReport(toolType, status)
    ensures ToolLifecycle(ReportType(toolType, status)) == Some((toolType, status))
  {
    var t := ReportType(toolType, status);
    var name := toolType + ("." + status);
    assert t == "response." + name && t[9..] == name;
    OwnStatus(name, toolType, status);
    if status != "completed" {
      OtherStatus(name, toolType, status, "completed");
      if status != "failed" {
        OtherStatus(name, toolType, status, "failed");
      }
    }
  }

  lemma ReportEnds(toolType: Bytes, status: Bytes)
    requires IsReport(toolType, status)
    ensures EndsOtherwise(ReportType(toolType, status))
  {
    var t, n, m := ReportType(toolType, status), |ReportType(toolType, status)|, |status|;
    assert t[n - m..] == status;
    assert t[n - 1] == status[m - 1] && t[n - 3] == status[m - 3];
  }

  lemma OtherTellsNothing(kind: EventKind, event: Event, at: int)
    requires kind.OtherEvent?
    ensures KindActions(kind, event, at) == []
  {
  }

  lemma ReportTellsNothing(event: Event, toolType: Bytes, status: Bytes, at: int)
    requires IsReport(toolType, status) && event.envelope.eventType == ReportType(toolType, status)
    ensures TypedActions(event, at) == []
  {
    var t := event.envelope.eventType;
    ReportEnds(toolType, status);
    NoKind(t);
    OtherTellsNothing(EventKindOf(t), event, at);
  }

  function LifecycleEdits(event: Event, toolType: Bytes, status: Bytes): seq<Edit> {
    [Replace(ToolTypeText, toolType), Replace(NameText, event.name), ApplyStatus(status, event.envelope.error),
     LifecycleMessage(event.envelope.message)]
  }

  lemma LifecycleMeans(s: State, event: Event, toolType: Bytes, status: Bytes, limit: nat)
    ensures ApplyEdits(s, ToolStart(event.itemID) + LifecycleEdits(event, toolType, status), limit)
         == LifecycleHeard(s, event, toolType, status, limit)
  {
    var r := ToolNamed(s, event.itemID, limit);
    var a, b := Replace(ToolTypeText, toolType), Replace(NameText, event.name);
    var c, d := ApplyStatus(status, event.envelope.error), LifecycleMessage(event.envelope.message);
    EditsThen(s, ToolStart(event.itemID), [a, b, c, d], ToolStart(event.itemID) + [a, b, c, d], limit);
    ToolNamedMeans(s, event.itemID, limit);
    Edits4(r, a, b, c, d, limit);
    var named := Named(Named(r, ToolTypeText, toolType, limit), NameText, event.name, limit);
    assert ApplyEdit(ApplyEdit(r, a, limit), b, limit) == named;
    StatusMeans(named, status, event.envelope.error, limit);
  }

  /** The accumulator once its tool part, if it is live, has heard the report. */
  function ToolReported(a: Acc, event: Event, toolType: Bytes, status: Bytes): Acc {
    var key := ToolOfItem(Index(event.indexes.output, 0));
    if key !in a.states then a
    else a.(states := a.states[key := LifecycleHeard(a.states[key], event, toolType, status, a.limit)])
  }

  /** A report on a tool call is heard by the live part of that call, and by nothing else. */
  lemma ReportHeard(a: Acc, event: Event, toolType: Bytes, status: Bytes, at: int)
    requires !a.closed && IsReport(toolType, status) && event.envelope.eventType == ReportType(toolType, status)
    requires event.choices == [] && !EndsStream(event.envelope)
    ensures Receive(a, Decoded(event, at)) == (ToolReported(a, event, toolType, status), [])
  {
    var output := Index(event.indexes.output, 0);
    var revise := Revise(ToolKey(output), ToolStart(event.itemID) + LifecycleEdits(event, toolType, status));
    ReportRead(toolType, status);
    ReportTellsNothing(event, toolType, status, at);
    StreamGoesOn(event.envelope);
    assert [] + [revise] + [] == [revise];
    assert ResponsesActions(event, at) == [revise];
    DecodedAlone(a, event, at);
    PerformOne(a, revise, at);
    if ToolKey(output) in a.states {
      LifecycleMeans(a.states[ToolKey(output)], event, toolType, status, a.limit);
    }
  }

  // ---------- A choice that finishes ----------

  /** The choice is heard by its own parts. */
  function OneChoiceHeard(s: State, key: Key, choice: Choice, index: int, at: int, limit: nat): State {
    if OfChoice(key, index) then ChoiceHeard(s, key, choice, at, limit) else s
  }

  /** The parts of the choice have heard it, and then why it finished. */
  function FinishHeard(s: State, key: Key, choice: Choice, index: int, reason: Bytes, at: int, limit: nat): State {
    var r := OneChoiceHeard(s, key, choice, index, at, limit);
    if OfTheChoice(Chat, index)(key) then Named(r, FinishReasonText, reason, limit) else r
  }

  /** The same choice before it says why it finished. */
  function Unfinished(choice: Choice): Choice {
    choice.(finishReason := None)
  }

  lemma ReasonKeepsVoice(s: State, reason: Bytes, limit: nat)
    ensures Speaking(Named(s, FinishReasonText, reason, limit)) <==> Speaking(s)
  {
    var t := Named(s, FinishReasonText, reason, limit);
    assert forall f :: Speaks(s.kind, f) ==> TextAt(t.texts, f) == TextAt(s.texts, f);
  }

  /** The reason reaches every part of the choice and no other. */
  ghost predicate ReasonReaches(source: Source, index: int, reason: Bytes, before: Key -> State, heard: Key -> State,
          limit: nat) {
    forall k :: heard(k) == if OfTheChoice(source, index)(k) then Named(before(k), FinishReasonText, reason, limit)
                            else before(k)
  }

  /** A choice is recorded as finished, and its parts are told why. */
  lemma RecordedHolds(b: Acc, source: Source, index: int, reason: Bytes, before: Key -> State, heard: Key -> State)
    requires Core(b) && Holds(b, before) && |b.finishedChoices| < MAX_STREAM_OUTPUT_STATES
    requires ReasonReaches(source, index, reason, before, heard, b.limit)
    ensures var c := ChoiceRecorded(b, source, index, reason);
            Core(c) && Holds(c, heard)
  {
    var c := ChoiceRecorded(b, source, index, reason);
    ChoiceRecordedSafe(b, source, index, reason);
    forall k ensures if k in c.states then c.states[k] == heard(k) else !Speaking(heard(k)) {
      ReasonKeepsVoice(before(k), reason, b.limit);
    }
  }

  /** The choice's outputs are given out; the other parts are left. */
  ghost predicate ChoiceEnds(r: (Acc, seq<Output>), source: Source, index: int, heard: Key -> State, e: Ending) {
    && GivesOut(r.1, OfTheChoice(source, index), heard, e)
    && Leaves(r.0, OfTheChoice(source, index), heard)
    && (source, index) in r.0.finishedChoices
  }

  lemma RecordedOthers(b: Acc, source: Source, index: int, reason: Bytes)
    ensures forall k :: !OfTheChoice(source, index)(k) ==>
              PartOrNew(ChoiceRecorded(b, source, index, reason).states, k) == PartOrNew(b.states, k)
    ensures forall at, v :: EndingOf(ChoiceRecorded(b, source, index, reason), at, v) == EndingOf(b, at, v)
    ensures ChoiceRecorded(b, source, index, reason).finishedChoices == b.finishedChoices + {(source, index)}
  {
  }

  lemma ChoiceFinished(b: Acc, source: Source, index: int, reason: Bytes, at: int, before: Key -> State,
          heard: Key -> State)
    requires Core(b) && Holds(b, before) && forall k :: PartOrNew(b.states, k) == before(k)
    requires source != Responses && (source, index) !in b.finishedChoices
    requires |b.finishedChoices| < MAX_STREAM_OUTPUT_STATES
    requires ReasonReaches(source, index, reason, before, heard, b.limit)
    ensures ChoiceEnds(FinishChoiceOf(b, source, index, at, reason), source, index, heard,
              EndingOf(b, at, Verdict(true, false, "")))
  {
    var c := ChoiceRecorded(b, source, index, reason);
    RecordedHolds(b, source, index, reason, before, heard);
    RecordedOthers(b, source, index, reason);
    ChoiceGivenOut(c, heard, source, index, at, Verdict(true, false, ""));
    var d := AllFinished(c, ChoiceKeys(c, source, index));
    forall k ensures if OfTheChoice(source, index)(k) then k !in d.states else PartOrNew(d.states, k) == heard(k) {
      assert k in ChoiceKeys(c, source, index) <==> k in c.states && OfTheChoice(source, index)(k);
    }
  }

  /** A Chat event of one choice asks for what the choice asks for. */
  lemma ChoiceAlone(a: Acc, event: Event, at: int)
    requires event.envelope.eventType == "" && |event.choices| == 1 && !EndsStream(event.envelope) && !a.closed
    requires (Chat, Index(event.choices[0].index, 0)) !in a.finishedChoices
    ensures Receive(a, Decoded(event, at))
         == PerformAll(a, ChoiceActions(event.choices[0], Index(event.choices[0].index, 0), at, true), at)
  {
    StreamGoesOn(event.envelope);
    var choice, i := event.choices[0], Index(event.choices[0].index, 0);
    assert event.choices[1..] == [];
    var (b, o) := PerformAll(a, ChoiceActions(choice, i, at, true), at);
    assert o + [] + [] + [] == o;
    assert ObserveChoices(a, event.choices, 0, at, true) == (b, o) by { assert o + [] == o; }
    assert NativeActions(event, at, true) == [] && ResponsesActions(event, at) == [];
  }

  /** The parts of the choice once they have heard it. */
  lemma ChoiceTold(a: Acc, choice: Choice, index: int, at: int, before: Key -> State)
    requires Core(a) && Room(a, Claimed(ChoiceActions(Unfinished(choice), index, at, true)))
    requires forall k :: before(k) == OneChoiceHeard(PartOrNew(a.states, k), k, choice, index, at, a.limit)
    ensures var (b, outputs) := PerformAll(a, ChoiceActions(Unfinished(choice), index, at, true), at);
            && Core(b) && Holds(b, before) && outputs == []
            && b == a.(states := b.states, groups := b.groups, createdParts := b.createdParts)
            && forall k :: PartOrNew(b.states, k) == before(k)
  {
    var told := ChoiceActions(Unfinished(choice), index, at, true);
    ChoiceUpdates(Unfinished(choice), index, at, true);
    ChoiceActionsOK(Unfinished(choice), index, at, true);
    forall k ensures before(k) == On(PartOrNew(a.states, k), told, k, a.limit) {
      ChoiceMeans(PartOrNew(a.states, k), Unfinished(choice), index, at, true, k, a.limit);
    }
    ToldBefore(a, told, at, before);
  }

  lemma ToldThenFinished(a: Acc, choice: Choice, index: int, at: int)
    requires choice.finishReason.Some?
    requires PerformAll(a, ChoiceActions(Unfinished(choice), index, at, true), at).1 == []
    ensures PerformAll(a, ChoiceActions(choice, index, at, true), at)
         == FinishChoiceOf(PerformAll(a, ChoiceActions(Unfinished(choice), index, at, true), at).0, Chat, index, at,
           choice.finishReason.value)
  {
    var told := ChoiceActions(Unfinished(choice), index, at, true);
    var last := FinishChoice(Chat, index, choice.finishReason.value);
    assert ChoiceActions(choice, index, at, true) == told + [last];
    QuietFirst(a, told, [last], at);
    PerformOne(PerformAll(a, told, at).0, last, at);
  }

  /**
   * A choice that finishes gives out each of its parts that has something to report once the
   * choice has been heard, as complete and with the reason; nothing else is given out.
   */
  lemma FinishedChoiceGivenOut(a: Acc, event: Event, at: int, heard: Key -> State)
    requires Valid(a) && !a.closed && event.envelope.eventType == "" && !EndsStream(event.envelope)
    requires |event.choices| == 1 && event.choices[0].finishReason.Some?
    requires (Chat, Index(event.choices[0].index, 0)) !in a.finishedChoices
    requires |a.finishedChoices| < MAX_STREAM_OUTPUT_STATES
    requires Room(a, Claimed(ChoiceActions(Unfinished(event.choices[0]), Index(event.choices[0].index, 0), at, true)))
    requires var choice := event.choices[0];
             forall k :: heard(k) == FinishHeard(PartOrNew(a.states, k), k, choice, Index(choice.index, 0),
                                       choice.finishReason.value, at, a.limit)
    ensures ChoiceEnds(Receive(a, Decoded(event, at)), Chat, Index(event.choices[0].index, 0), heard,
              EndingOf(a, at, Verdict(true, false, "")))
  {
    ChoiceAlone(a, event, at);
    ChoiceSettled(a, event.choices[0], Index(event.choices[0].index, 0), at, heard);
  }

  lemma ChoiceSettled(a: Acc, choice: Choice, index: int, at: int, heard: Key -> State)
    requires Core(a) && choice.finishReason.Some? && (Chat, index) !in a.finishedChoices
    requires |a.finishedChoices| < MAX_STREAM_OUTPUT_STATES
    requires Room(a, Claimed(ChoiceActions(Unfinished(choice), index, at, true)))
    requires forall k :: heard(k) == FinishHeard(PartOrNew(a.states, k), k, choice, index,
                                       choice.finishReason.value, at, a.limit)
    ensures ChoiceEnds(PerformAll(a, ChoiceActions(choice, index, at, true), at), Chat, index, heard,
              EndingOf(a, at, Verdict(true, false, "")))
  {
    var before := (k: Key) => OneChoiceHeard(PartOrNew(a.states, k), k, choice, index, at, a.limit);
    ChoiceTold(a, choice, index, at, before);
    ToldThenFinished(a, choice, index, at);
    var b := PerformAll(a, ChoiceActions(Unfinished(choice), index, at, true), at).0;
    FinishedFrom(a, b, Chat, index, choice.finishReason.value, at, before, heard);
  }

  /** The same, when the accumulator before was told nothing but changes of its parts. */
  lemma FinishedFrom(a: Acc, b: Acc, source: Source, index: int, reason: Bytes, at: int, before: Key -> State,
          heard: Key -> State)
    requires Core(b) && Holds(b, before) && forall k :: PartOrNew(b.states, k) == before(k)
    requires b == a.(states := b.states, groups := b.groups, createdParts := b.createdParts)
    requires source != Responses && (source, index) !in a.finishedChoices
    requires |a.finishedChoices| < MAX_STREAM_OUTPUT_STATES
    requires ReasonReaches(source, index, reason, before, heard, a.limit)
    ensures ChoiceEnds(FinishChoiceOf(b, source, index, at, reason), source, index, heard,
              EndingOf(a, at, Verdict(true, false, "")))
  {
    ChoiceFinished(b, source, index, reason, at, before, heard);
  }

  // ---------- Events of several choices ----------

  ghost function FirstObserved(a: Acc, choice: Choice, position: nat, at: int, finishes: bool): (Acc, seq<Output>) {
    var index := Index(choice.index, position);
    if (Chat, index) in a.finishedChoices then (a, [])
    else PerformAll(a, ChoiceActions(choice, index, at, finishes), at)
  }

  lemma ChoicesStep(a: Acc, x: seq<Choice>, position: nat, at: int, finishes: bool)
    requires x != []
    ensures var first := FirstObserved(a, x[0], position, at, finishes);
            Continues(ObserveChoices(a, x, position, at, finishes), first,
              ObserveChoices(first.0, x[1..], position + 1, at, finishes))
  {
  }

  lemma {:induction false} ChoicesInTwo(a: Acc, x: seq<Choice>, y: seq<Choice>, position: nat, at: int, finishes: bool)
    ensures var first := ObserveChoices(a, x, position, at, finishes);
            Continues(ObserveChoices(a, x + y, position, at, finishes), first,
              ObserveChoices(first.0, y, position + |x|, at, finishes))
    decreases |x|
  {
    if x == [] {
      assert x + y == y;
      assert [] + ObserveChoices(a, y, position, at, finishes).1 == ObserveChoices(a, y, position, at, finishes).1;
    } else {
      assert (x + y)[0] == x[0] && (x + y)[1..] == x[1..] + y;
      var first := FirstObserved(a, x[0], position, at, finishes);
      ChoicesStep(a, x, position, at, finishes);
      ChoicesStep(a, x + y, position, at, finishes);
      ChoicesInTwo(first.0, x[1..], y, position + 1, at, finishes);
      var second := ObserveChoices(first.0, x[1..], position + 1, at, finishes);
      Associative(first.1, second.1, ObserveChoices(second.0, y, position + |x|, at, finishes).1);
    }
  }

  /** The choice, numbered by its position if it has no number. */
  function Numbered(choice: Choice, position: nat): Choice {
    choice.(index := Some(Index(choice.index, position)))
  }

  lemma ChoicesOnly(a: Acc, event: Event, at: int)
    requires event.envelope.eventType == "" && event.choices != [] && !EndsStream(event.envelope) && !a.closed
    ensures Receive(a, Decoded(event, at)) == ObserveChoices(a, event.choices, 0, at, true)
  {
    StreamGoesOn(event.envelope);
    var o := ObserveChoices(a, event.choices, 0, at, true).1;
    assert o + [] + [] == o;
    assert NativeActions(event, at, true) == [] && ResponsesActions(event, at) == [];
  }

  lemma LastChoice(a: Acc, choice: Choice, position: nat, at: int)
    ensures ObserveChoices(a, [choice], position, at, true)
         == ObserveChoices(a, [Numbered(choice, position)], 0, at, true)
  {
    var index := Index(choice.index, position);
    assert [choice][1..] == [] && [Numbered(choice, position)][1..] == [];
    assert ChoiceActions(choice, index, at, true) == ChoiceActions(Numbered(choice, position), index, at, true);
  }

  lemma TwoInputs(a: Acc, x: Input, y: Input)
    ensures Continues(Run(a, [x, y]), Receive(a, x), Receive(Receive(a, x).0, y))
  {
    assert [x, y] == [x] + [y];
    RunAppend(a, [x], [y]);
    OneInput(a, x);
    OneInput(Receive(a, x).0, y);
  }

  lemma StillOpen(a: Acc, choices: seq<Choice>, at: int)
    requires Core(a) && !a.closed
    ensures !ObserveChoices(a, choices, 0, at, true).0.closed
  {
    ObserveChoicesSafe(a, choices, 0, at, true);
  }

  lemma SecondChoices(a: Acc, event: Event, choices: seq<Choice>, last: Choice, at: int)
    requires Core(a) && !a.closed && event.envelope.eventType == "" && !EndsStream(event.envelope) && choices != []
    ensures var b := ObserveChoices(a, choices, 0, at, true).0;
            && Receive(a, Decoded(event.(choices := choices), at)) == ObserveChoices(a, choices, 0, at, true)
            && Receive(b, Decoded(event.(choices := [Numbered(last, |choices|)]), at))
               == ObserveChoices(b, [last], |choices|, at, true)
  {
    var b := ObserveChoices(a, choices, 0, at, true).0;
    StillOpen(a, choices, at);
    ChoicesOnly(a, event.(choices := choices), at);
    ChoicesOnly(b, event.(choices := [Numbered(last, |choices|)]), at);
    LastChoice(b, last, |choices|, at);
  }

  lemma ChoicesTogether(a: Acc, event: Event, choices: seq<Choice>, last: Choice, at: int)
    requires !a.closed && event.envelope.eventType == "" && !EndsStream(event.envelope)
    requires event.choices == choices + [last]
    ensures var first := ObserveChoices(a, choices, 0, at, true);
            Continues(Receive(a, Decoded(event, at)), first, ObserveChoices(first.0, [last], |choices|, at, true))
  {
    ChoicesOnly(a, event, at);
    ChoicesInTwo(a, choices, [last], 0, at, true);
  }

  lemma ChoicesInTurn(a: Acc, event: Event, choices: seq<Choice>, last: Choice, at: int)
    requires Core(a) && !a.closed && event.envelope.eventType == "" && !EndsStream(event.envelope) && choices != []
    ensures var first := ObserveChoices(a, choices, 0, at, true);
            Continues(Run(a, [Decoded(event.(choices := choices), at),
                              Decoded(event.(choices := [Numbered(last, |choices|)]), at)]),
              first, ObserveChoices(first.0, [last], |choices|, at, true))
  {
    SecondChoices(a, event, choices, last, at);
    TwoInputs(a, Decoded(event.(choices := choices), at), Decoded(event.(choices := [Numbered(last, |choices|)]), at));
  }

  /** An event of several choices is as many events of one choice, one after the other. */
  lemma ChoicesApart(a: Acc, event: Event, choices: seq<Choice>, last: Choice, at: int)
    requires Valid(a) && !a.closed && event.envelope.eventType == "" && !EndsStream(event.envelope)
    requires choices != [] && event.choices == choices + [last]
    ensures Receive(a, Decoded(event, at))
         == Run(a, [Decoded(event.(choices := choices), at),
                    Decoded(event.(choices := [Numbered(last, |choices|)]), at)])
  {
    ChoicesTogether(a, event, choices, last, at);
    ChoicesInTurn(a, event, choices, last, at);
  }
}

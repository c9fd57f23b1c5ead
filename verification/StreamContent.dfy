/**
 * What a stream of deltas says: the text of every part is what the events said to it, one after
 * the other. `Said` reads that off the events, with no regard to the accumulator.
 */
module StreamContent {
  import opened Bytes
  import opened LimitedText
  import opened StreamEvents
  import opened StreamParts
  import opened StreamActions
  import opened StreamAssembly
  import opened StreamFinishing
  import opened StreamInvariants
  import opened StreamRuns
  import opened StreamTexts
  import opened StreamOrder
  import opened StreamMeaning

  // ---------- What the events say ----------

  function Spoken(s: Bytes): seq<Bytes> {
    if s == "" then [] else [s]
  }

  /** Fragments for the texts of one part; `to` is the part that they are for. */
  function SaidTo(to: Key, field: Field, s: Bytes, key: Key, f: Field): seq<Bytes> {
    if key == to && f == field then Spoken(s) else []
  }

  function SaidByTools(tools: seq<ToolPart>, position: nat, choiceIndex: int, key: Key, f: Field): seq<Bytes>
    decreases |tools|
  {
    if tools == [] then []
    else
      SaidByCall(tools[0].function_, choiceIndex, Index(tools[0].index, position), key, f)
      + SaidByTools(tools[1..], position + 1, choiceIndex, key, f)
  }

  function SaidByCall(call: Option<Call>, choiceIndex: int, toolIndex: int, key: Key, f: Field): seq<Bytes> {
    if call.None? then []
    else
      SaidTo(ChatKey(ToolCall, choiceIndex, toolIndex), NameText, call.value.name, key, f)
      + SaidTo(ChatKey(ToolCall, choiceIndex, toolIndex), ArgumentsText, call.value.arguments, key, f)
  }

  function SaidInText(delta: Delta, choiceIndex: int, key: Key, f: Field): seq<Bytes> {
    SaidTo(ChatKey(Reasoning, choiceIndex, -1), ReasoningText,
      PreferredReasoning(delta.reasoningContent, delta.reasoning), key, f)
    + (SaidTo(ChatKey(Kind.Response, choiceIndex, -1), ContentText, delta.content, key, f)
       + SaidTo(ChatKey(Kind.Response, choiceIndex, -1), RefusalText, delta.refusal, key, f))
  }

  /** What a Chat delta says: only the parts of its own choice are spoken to. */
  function SaidByDelta(delta: Delta, choiceIndex: int, key: Key, f: Field): seq<Bytes> {
    SaidInText(delta, choiceIndex, key, f) + SaidByTools(delta.toolCalls, 0, choiceIndex, key, f)
    + SaidByCall(delta.functionCall, choiceIndex, 0, key, f)
  }

  function SaidByChoice(choice: Choice, choiceIndex: int, key: Key, f: Field): seq<Bytes> {
    (if choice.delta.Some? then SaidByDelta(choice.delta.value, choiceIndex, key, f) else [])
    + SaidTo(ChatKey(Kind.Response, choiceIndex, -1), ContentText, choice.text, key, f)
  }

  /** A choice that has finished is not listened to. */
  function SaidByChoices(finished: set<(Source, int)>, choices: seq<Choice>, position: nat, key: Key,
          f: Field): seq<Bytes>
    decreases |choices|
  {
    if choices == [] then []
    else
      var index := Index(choices[0].index, position);
      (if (Chat, index) in finished then [] else SaidByChoice(choices[0], index, key, f))
      + SaidByChoices(finished, choices[1..], position + 1, key, f)
  }

  function SaidByNative(event: Event, key: Key, f: Field): seq<Bytes> {
    if event.envelope.eventType != "" || event.choices != [] then []
    else
      SaidTo(NativeKey(Reasoning), ReasoningText, PreferredReasoning(event.reasoningContent, event.reasoning), key, f)
      + SaidTo(NativeKey(Kind.Response), ContentText, event.content, key, f)
  }

  /** The text of a part, and its kind, as an event brings it. */
  function SaidByPart(part: Part, outputIndex: int, contentIndex: int, key: Key, f: Field): seq<Bytes> {
    if PartKind(part) == Reasoning then
      SaidTo(ResponsesKey(Reasoning, outputIndex, contentIndex), ReasoningText, part.text, key, f)
    else if part.refusal != "" then
      SaidTo(ResponsesKey(Kind.Response, outputIndex, contentIndex), RefusalText, part.refusal, key, f)
    else SaidTo(ResponsesKey(Kind.Response, outputIndex, contentIndex), ContentText, part.text, key, f)
  }

  function SaidByParts(parts: seq<Part>, position: nat, outputIndex: int, key: Key, f: Field): seq<Bytes>
    decreases |parts|
  {
    if parts == [] then []
    else SaidByPart(parts[0], outputIndex, position, key, f)
         + SaidByParts(parts[1..], position + 1, outputIndex, key, f)
  }

  function SaidBySummaries(parts: seq<Part>, position: nat, outputIndex: int, key: Key, f: Field): seq<Bytes>
    decreases |parts|
  {
    if parts == [] then []
    else
      SaidTo(SummaryKey(outputIndex, position), ReasoningText, parts[0].text, key, f)
      + SaidBySummaries(parts[1..], position + 1, outputIndex, key, f)
  }

  /** What an item says when it is added. */
  function SaidByItem(item: Item, outputIndex: int, key: Key, f: Field): seq<Bytes> {
    if item.itemType == "message" then SaidByParts(item.content, 0, outputIndex, key, f)
    else if item.itemType == "reasoning" then
      SaidByParts(item.content, 0, outputIndex, key, f) + SaidBySummaries(item.summary, 0, outputIndex, key, f)
    else if !HasSuffix(item.itemType, "_call") && item.itemType != "program" then []
    else SaidTo(ToolKey(outputIndex), ArgumentsText, item.arguments, key, f)
  }

  /** What an item or a part that is added says. */
  function SaidByAddition(event: Event, key: Key, f: Field): seq<Bytes> {
    var t, output, content := event.envelope.eventType, Index(event.indexes.output, 0), Index(event.indexes.content, 0);
    if t == "response.output_item.added" then
      if event.item.None? then [] else SaidByItem(event.item.value, output, key, f)
    else if event.part.None? then []
    else if t == "response.content_part.added" then SaidByPart(event.part.value, output, content, key, f)
    else if t == "response.reasoning_summary_part.added" then
      SaidTo(SummaryOfItem(output, Index(event.indexes.summary, 0)), ReasoningText, event.part.value.text, key, f)
    else []
  }

  /** What a telling adds to a text; one that settles it adds nothing. */
  function SaidByTelling(telling: Telling, key: Key, f: Field): seq<Bytes> {
    if telling.settles || telling.OfCommand? then []
    else if telling.OfText? then SaidTo(telling.to, telling.field, telling.value, key, f)
    else SaidTo(ToolOfItem(telling.output), ArgumentsText, telling.value, key, f)
  }

  /** What a Responses event says, by its type. */
  function SaidByType(event: Event, key: Key, f: Field): seq<Bytes> {
    var telling := TellingOf(event);
    if telling.Some? then SaidByTelling(telling.value, key, f) else SaidByAddition(event, key, f)
  }

  function SaidByResponses(event: Event, key: Key, f: Field): seq<Bytes> {
    if event.envelope.eventType == "" then [] else SaidByType(event, key, f)
  }

  function SaidByEvent(finished: set<(Source, int)>, event: Event, key: Key, f: Field): seq<Bytes> {
    SaidByChoices(finished, event.choices, 0, key, f) + SaidByNative(event, key, f) + SaidByResponses(event, key, f)
  }

  function Said(finished: set<(Source, int)>, arrivals: seq<Arrival>, key: Key, f: Field): seq<Bytes> {
    if arrivals == [] then []
    else SaidByEvent(finished, arrivals[0].event, key, f) + Said(finished, arrivals[1..], key, f)
  }

  // ---------- What the actions tell ----------

  function Compact(fragments: seq<Bytes>): seq<Bytes> {
    if fragments == [] then [] else Spoken(fragments[0]) + Compact(fragments[1..])
  }

  /** What updates append to one text of one part, empty fragments left out. */
  function Told(actions: seq<Action>, key: Key, f: Field): seq<Bytes> {
    if actions == [] then []
    else
      (if IsFor(actions[0], key) then Compact(Appends(actions[0].edits, f)) else [])
      + Told(actions[1..], key, f)
  }

  /** No action sets the text of this part: it is only added to. */
  predicate OnlyAppend(actions: seq<Action>, key: Key, f: Field) {
    forall i :: 0 <= i < |actions| && IsFor(actions[i], key) ==> AppendsTo(actions[i].edits, f)
  }

  /** The texts that events add to: those that parts are joined by, and the names of the tools of Chat. */
  predicate Spoke(key: Key, f: Field) {
    Joins(f) || (f.NameText? && key.source == Chat)
  }

  lemma {:induction false} ToldAppend(x: seq<Action>, y: seq<Action>, key: Key, f: Field)
    ensures Told(x + y, key, f) == Told(x, key, f) + Told(y, key, f)
    decreases |x|
  {
    if x == [] {
      assert x + y == y;
    } else {
      assert (x + y)[0] == x[0] && (x + y)[1..] == x[1..] + y;
      ToldAppend(x[1..], y, key, f);
      var first := if IsFor(x[0], key) then Compact(Appends(x[0].edits, f)) else [];
      Associative(first, Told(x[1..], key, f), Told(y, key, f));
    }
  }

  lemma {:induction false} CompactAppend(x: seq<Bytes>, y: seq<Bytes>)
    ensures Compact(x + y) == Compact(x) + Compact(y)
    decreases |x|
  {
    if x == [] {
      assert x + y == y;
    } else {
      assert (x + y)[0] == x[0] && (x + y)[1..] == x[1..] + y;
      CompactAppend(x[1..], y);
      Associative(Spoken(x[0]), Compact(x[1..]), Compact(y));
    }
  }

  lemma {:induction false} ToldIsCompact(actions: seq<Action>, key: Key, f: Field)
    ensures Told(actions, key, f) == Compact(Appends(EditsFor(actions, key), f))
  {
    if actions != [] {
      var own := if IsFor(actions[0], key) then actions[0].edits else [];
      ToldIsCompact(actions[1..], key, f);
      AppendsAppend(own, EditsFor(actions[1..], key), f);
      CompactAppend(Appends(own, f), Appends(EditsFor(actions[1..], key), f));
    }
  }

  /** Empty fragments add nothing. */
  lemma {:induction false} CompactEnough(t: Text, fragments: seq<Bytes>, limit: nat)
    requires WellFormed(t, limit)
    ensures AppendAll(t, fragments, limit) == AppendAll(t, Compact(fragments), limit)
    decreases |fragments|
  {
    if fragments != [] {
      var first, rest := fragments[0], fragments[1..];
      if first == "" {
        NothingAppended(t, limit);
        CompactEnough(t, rest, limit);
        assert [] + Compact(rest) == Compact(rest);
      } else {
        AppendWellFormed(t, first, limit);
        CompactEnough(Appended(t, first, limit), rest, limit);
        assert ([first] + Compact(rest))[0] == first && ([first] + Compact(rest))[1..] == Compact(rest);
      }
    }
  }

  // ---------- The edits of a part ----------

  lemma {:induction false} EditsForAppend(actions: seq<Action>, key: Key, f: Field)
    requires OnlyAppend(actions, key, f)
    ensures AppendsTo(EditsFor(actions, key), f)
  {
    if actions != [] {
      EditsForAppend(actions[1..], key, f);
    }
  }

  lemma CompactOne(s: Bytes)
    ensures Compact([s]) == Spoken(s) && Compact([]) == []
  {
    assert [s][1..] == [];
  }

  // ---------- Actions and what was said ----------

  /** Edits that leave a text alone. */
  predicate Leave(edits: seq<Edit>, f: Field) {
    forall i :: 0 <= i < |edits| ==> !AppendsField(edits[i], f) && !(edits[i].Replace? && edits[i].field == f)
  }

  lemma AppendsLast(start: seq<Edit>, field: Field, s: Bytes, f: Field)
    requires Leave(start, f)
    ensures var edits := start + [AppendTo(field, s)];
            AppendsTo(edits, f) && Appends(edits, f) == if field == f then [s] else []
  {
    var last := [AppendTo(field, s)];
    NoneAppends(start, f);
    assert last[1..] == [];
    AppendsAppend(start, last, f);
  }

  /** What a single update tells. */
  lemma UpdateTold(to: Key, edits: seq<Edit>, key: Key, f: Field)
    requires key == to ==> AppendsTo(edits, f)
    ensures Told([Update(to, edits)], key, f) == if key == to then Compact(Appends(edits, f)) else []
    ensures OnlyAppend([Update(to, edits)], key, f)
  {
    assert [Update(to, edits)][1..] == [];
    assert Compact(Appends(edits, f)) + [] == Compact(Appends(edits, f));
  }

  /** A part is told one fragment, after edits that leave the text alone. */
  lemma FragmentTold(to: Key, start: seq<Edit>, field: Field, s: Bytes, key: Key, f: Field)
    requires key == to ==> Leave(start, f)
    ensures Told([Update(to, start + [AppendTo(field, s)])], key, f) == SaidTo(to, field, s, key, f)
    ensures OnlyAppend([Update(to, start + [AppendTo(field, s)])], key, f)
  {
    if key == to {
      AppendsLast(start, field, s, f);
      CompactOne(s);
    }
    UpdateTold(to, start + [AppendTo(field, s)], key, f);
  }

  lemma Heard(to: Key, field: Field, s: Bytes, at: int, key: Key, f: Field)
    ensures Told(Tell(to, field, s, at), key, f) == SaidTo(to, field, s, key, f)
    ensures OnlyAppend(Tell(to, field, s, at), key, f)
  {
    FragmentTold(to, [Touch(at)], field, s, key, f);
    assert [Touch(at)] + [AppendTo(field, s)] == [Touch(at), AppendTo(field, s)];
  }

  lemma AppendsMore(edits: seq<Edit>, field: Field, s: Bytes, f: Field)
    requires AppendsTo(edits, f)
    ensures var more := edits + [AppendTo(field, s)];
            && AppendsTo(more, f)
            && Compact(Appends(more, f)) == Compact(Appends(edits, f)) + if field == f then Spoken(s) else []
  {
    var last := [AppendTo(field, s)];
    assert last[1..] == [];
    AppendsAppend(edits, last, f);
    CompactAppend(Appends(edits, f), Appends(last, f));
    CompactOne(s);
  }

  /** Two fragments for different texts, after edits that leave the text alone. */
  lemma PairTold(to: Key, start: seq<Edit>, x: Field, s: Bytes, y: Field, r: Bytes, key: Key, f: Field)
    requires x != y && (key == to ==> Leave(start, f))
    ensures var edits := start + [AppendTo(x, s), AppendTo(y, r)];
            && Told([Update(to, edits)], key, f) == SaidTo(to, x, s, key, f) + SaidTo(to, y, r, key, f)
            && OnlyAppend([Update(to, edits)], key, f)
  {
    var first := start + [AppendTo(x, s)];
    if key == to {
      AppendsLast(start, x, s, f);
      CompactOne(s);
      AppendsMore(first, y, r, f);
    }
    UpdateTold(to, first + [AppendTo(y, r)], key, f);
    assert start + [AppendTo(x, s), AppendTo(y, r)] == first + [AppendTo(y, r)];
  }

  lemma ToldThen(x: seq<Action>, y: seq<Action>, key: Key, f: Field)
    requires OnlyAppend(x, key, f) && OnlyAppend(y, key, f)
    ensures Told(x + y, key, f) == Told(x, key, f) + Told(y, key, f)
    ensures OnlyAppend(x + y, key, f)
  {
    ToldAppend(x, y, key, f);
  }

  lemma ToldThree(x: seq<Action>, y: seq<Action>, z: seq<Action>, key: Key, f: Field)
    requires OnlyAppend(x, key, f) && OnlyAppend(y, key, f) && OnlyAppend(z, key, f)
    ensures Told(x + y + z, key, f) == Told(x, key, f) + Told(y, key, f) + Told(z, key, f)
    ensures OnlyAppend(x + y + z, key, f)
  {
    ToldThen(x, y, key, f);
    ToldThen(x + y, z, key, f);
  }

  lemma {:induction false} ToolsTold(tools: seq<ToolPart>, position: nat, i: int, at: int, key: Key, f: Field)
    requires Spoke(key, f)
    ensures Told(ToolActions(tools, position, i, at), key, f) == SaidByTools(tools, position, i, key, f)
    ensures OnlyAppend(ToolActions(tools, position, i, at), key, f)
    decreases |tools|
  {
    if tools != [] {
      ToolsTold(tools[1..], position + 1, i, at, key, f);
      var to := ChatKey(ToolCall, i, Index(tools[0].index, position));
      ToolTold(tools[0], to, at, key, f);
      ToldThen([Update(to, ToolEdits(tools[0], at))], ToolActions(tools[1..], position + 1, i, at), key, f);
    }
  }

  lemma ToolTold(tool: ToolPart, to: Key, at: int, key: Key, f: Field)
    requires Spoke(key, f)
    ensures Told([Update(to, ToolEdits(tool, at))], key, f)
         == if tool.function_.None? then []
            else SaidTo(to, NameText, tool.function_.value.name, key, f)
                 + SaidTo(to, ArgumentsText, tool.function_.value.arguments, key, f)
    ensures OnlyAppend([Update(to, ToolEdits(tool, at))], key, f)
  {
    var edits, call := ToolEdits(tool, at), tool.function_.GetOr(Call("", ""));
    if edits == [] {
      assert [Update(to, edits)][1..] == [];
    } else {
      var start := [Touch(at), Replace(ToolIDText, tool.id), Replace(ToolTypeText, tool.toolType)];
      assert edits == start + [AppendTo(NameText, call.name), AppendTo(ArgumentsText, call.arguments)];
      PairTold(to, start, NameText, call.name, ArgumentsText, call.arguments, key, f);
    }
  }

  lemma TextsTold(delta: Delta, i: int, at: int, key: Key, f: Field)
    ensures Told(DeltaTextActions(delta, i, at), key, f) == SaidInText(delta, i, key, f)
    ensures OnlyAppend(DeltaTextActions(delta, i, at), key, f)
  {
    var reasoning, to := PreferredReasoning(delta.reasoningContent, delta.reasoning), ChatKey(Kind.Response, i, -1);
    var thinks := Tell(ChatKey(Reasoning, i, -1), ReasoningText, reasoning, at);
    var says := [Update(to, [Touch(at), AppendTo(ContentText, delta.content), AppendTo(RefusalText, delta.refusal)])];
    Heard(ChatKey(Reasoning, i, -1), ReasoningText, reasoning, at, key, f);
    PairTold(to, [Touch(at)], ContentText, delta.content, RefusalText, delta.refusal, key, f);
    assert [Touch(at)] + [AppendTo(ContentText, delta.content), AppendTo(RefusalText, delta.refusal)]
        == [Touch(at), AppendTo(ContentText, delta.content), AppendTo(RefusalText, delta.refusal)];
    ToldThen(thinks, says, key, f);
    if delta.content == "" && delta.refusal == "" {
      assert DeltaTextActions(delta, i, at) == thinks + [];
      ToldThen(thinks, [], key, f);
    } else {
      assert DeltaTextActions(delta, i, at) == thinks + says;
    }
  }

  lemma FunctionCallTold(call: Option<Call>, i: int, at: int, key: Key, f: Field)
    requires Spoke(key, f)
    ensures Told(FunctionCallActions(call, i, at), key, f) == SaidByCall(call, i, 0, key, f)
    ensures OnlyAppend(FunctionCallActions(call, i, at), key, f)
  {
    if call.Some? && call.value != Call("", "") {
      var start := [Touch(at), Replace(ToolTypeText, "function")];
      PairTold(ChatKey(ToolCall, i, 0), start, NameText, call.value.name, ArgumentsText, call.value.arguments, key, f);
      assert start + [AppendTo(NameText, call.value.name), AppendTo(ArgumentsText, call.value.arguments)]
          == [Touch(at), Replace(ToolTypeText, "function"), AppendTo(NameText, call.value.name),
              AppendTo(ArgumentsText, call.value.arguments)];
    }
  }

  lemma DeltaTold(delta: Delta, i: int, at: int, key: Key, f: Field)
    requires Spoke(key, f)
    ensures Told(DeltaActions(delta, i, at), key, f) == SaidByDelta(delta, i, key, f)
    ensures OnlyAppend(DeltaActions(delta, i, at), key, f)
  {
    var x, y := DeltaTextActions(delta, i, at), ToolActions(delta.toolCalls, 0, i, at);
    var z := FunctionCallActions(delta.functionCall, i, at);
    TextsTold(delta, i, at, key, f);
    ToolsTold(delta.toolCalls, 0, i, at, key, f);
    FunctionCallTold(delta.functionCall, i, at, key, f);
    ToldThree(x, y, z, key, f);
  }

  lemma NothingTold(actions: seq<Action>, key: Key, f: Field)
    requires |actions| <= 1 && forall i :: 0 <= i < |actions| ==> !IsUpdate(actions[i])
    ensures Told(actions, key, f) == [] && OnlyAppend(actions, key, f)
  {
    assert actions != [] ==> actions[1..] == [];
  }

  lemma ChoiceDeltaTold(delta: Option<Delta>, i: int, at: int, key: Key, f: Field)
    requires Spoke(key, f)
    ensures var actions := if delta.None? then [] else DeltaActions(delta.value, i, at);
            && Told(actions, key, f) == (if delta.Some? then SaidByDelta(delta.value, i, key, f) else [])
            && OnlyAppend(actions, key, f)
  {
    if delta.Some? {
      DeltaTold(delta.value, i, at, key, f);
    }
  }

  lemma ChoiceTold(choice: Choice, i: int, at: int, finishes: bool, key: Key, f: Field)
    requires Spoke(key, f)
    ensures Told(ChoiceActions(choice, i, at, finishes), key, f) == SaidByChoice(choice, i, key, f)
    ensures OnlyAppend(ChoiceActions(choice, i, at, finishes), key, f)
  {
    var x := if choice.delta.None? then [] else DeltaActions(choice.delta.value, i, at);
    ChoiceDeltaTold(choice.delta, i, at, key, f);
    Heard(ChatKey(Kind.Response, i, -1), ContentText, choice.text, at, key, f);
    TwoThenNothing(x, ChoiceTextActions(choice, i, at), ChoiceReasonActions(choice, i, finishes), key, f);
  }

  lemma TwoThenNothing(x: seq<Action>, y: seq<Action>, z: seq<Action>, key: Key, f: Field)
    requires OnlyAppend(x, key, f) && OnlyAppend(y, key, f)
    requires |z| <= 1 && forall i :: 0 <= i < |z| ==> !IsUpdate(z[i])
    ensures Told(x + y + z, key, f) == Told(x, key, f) + Told(y, key, f) && OnlyAppend(x + y + z, key, f)
  {
    NothingTold(z, key, f);
    ToldThree(x, y, z, key, f);
    NothingMore(Told(x, key, f) + Told(y, key, f));
  }

  lemma NothingMore(s: seq<Bytes>)
    ensures s + [] == s
  {
  }

  lemma {:induction false} ChoicesTold(finished: set<(Source, int)>, choices: seq<Choice>, position: nat, at: int,
          finishes: bool, key: Key, f: Field)
    requires Spoke(key, f)
    ensures Told(ChoicesActions(finished, choices, position, at, finishes), key, f)
         == SaidByChoices(finished, choices, position, key, f)
    ensures OnlyAppend(ChoicesActions(finished, choices, position, at, finishes), key, f)
    decreases |choices|
  {
    if choices != [] {
      var index := Index(choices[0].index, position);
      if (Chat, index) !in finished {
        ChoiceTold(choices[0], index, at, finishes, key, f);
      }
      ChoicesTold(finished, choices[1..], position + 1, at, finishes, key, f);
      ToldThen(FirstChoiceActions(finished, choices[0], position, at, finishes),
        ChoicesActions(finished, choices[1..], position + 1, at, finishes), key, f);
    }
  }

  lemma NativeTold(event: Event, at: int, finishes: bool, key: Key, f: Field)
    ensures Told(NativeActions(event, at, finishes), key, f) == SaidByNative(event, key, f)
    ensures OnlyAppend(NativeActions(event, at, finishes), key, f)
  {
    if event.envelope.eventType == "" && event.choices == [] {
      var reasoning := PreferredReasoning(event.reasoningContent, event.reasoning);
      NativeTextTold(reasoning, event.content, at, NativeStopActions(event, finishes), key, f);
    }
  }

  lemma NativeTextTold(reasoning: Bytes, content: Bytes, at: int, z: seq<Action>, key: Key, f: Field)
    requires |z| <= 1 && forall i :: 0 <= i < |z| ==> !IsUpdate(z[i])
    ensures var x := Tell(NativeKey(Reasoning), ReasoningText, reasoning, at);
            var y := Tell(NativeKey(Kind.Response), ContentText, content, at);
            && Told(x + y + z, key, f)
               == SaidTo(NativeKey(Reasoning), ReasoningText, reasoning, key, f)
                  + SaidTo(NativeKey(Kind.Response), ContentText, content, key, f)
            && OnlyAppend(x + y + z, key, f)
  {
    var x := Tell(NativeKey(Reasoning), ReasoningText, reasoning, at);
    var y := Tell(NativeKey(Kind.Response), ContentText, content, at);
    Heard(NativeKey(Reasoning), ReasoningText, reasoning, at, key, f);
    Heard(NativeKey(Kind.Response), ContentText, content, at, key, f);
    TwoThenNothing(x, y, z, key, f);
  }

  // ---------- Responses ----------

  /** The part and the text that a Responses delta is for. */
  function Addressee(kind: EventKind, event: Event): Option<(Key, Field)> {
    var output, content := Index(event.indexes.output, 0), Index(event.indexes.content, 0);
    match kind
    case TextDelta => Some((ResponsesKey(Kind.Response, output, content), ContentText))
    case RefusalDelta => Some((ResponsesKey(Kind.Response, output, content), RefusalText))
    case ReasoningDelta => Some((ResponsesKey(Reasoning, output, content), ReasoningText))
    case SummaryDelta => Some((SummaryKey(output, Index(event.indexes.summary, 0)), ReasoningText))
    case FunctionDelta => Some((ToolKey(output), ArgumentsText))
    case CustomToolDelta => Some((ToolKey(output), ArgumentsText))
    case MCPDelta => Some((ToolKey(output), ArgumentsText))
    case CodeDelta => Some((ToolKey(output), ArgumentsText))
    case _ => None
  }

  function SaidByKind(kind: EventKind, event: Event, key: Key, f: Field): seq<Bytes> {
    var output := Index(event.indexes.output, 0);
    match kind
    case ItemAdded => if event.item.None? then [] else SaidByItem(event.item.value, output, key, f)
    case PartAdded =>
      if event.part.None? then [] else SaidByPart(event.part.value, output, Index(event.indexes.content, 0), key, f)
    case SummaryPartAdded =>
      if event.part.None? then []
      else SaidTo(SummaryKey(output, Index(event.indexes.summary, 0)), ReasoningText, event.part.value.text, key, f)
    case _ =>
      match Addressee(kind, event)
      case None => []
      case Some((to, field)) => SaidTo(to, field, event.delta, key, f)
  }

  /** The events that only add to texts and commands. */
  predicate OnlyAdds(kind: EventKind) {
    IsTextDelta(kind) || IsToolDelta(kind) || kind.ShellDelta? || IsAdded(kind) || kind.OtherEvent?
  }

  predicate IsTextDelta(kind: EventKind) {
    kind.TextDelta? || kind.RefusalDelta? || kind.ReasoningDelta? || kind.SummaryDelta?
  }

  predicate IsToolDelta(kind: EventKind) {
    kind.FunctionDelta? || kind.CustomToolDelta? || kind.MCPDelta? || kind.CodeDelta?
  }

  predicate IsAdded(kind: EventKind) {
    kind.ItemAdded? || kind.PartAdded? || kind.SummaryPartAdded?
  }

  predicate NamingEdit(e: Edit) {
    e.Touch? || e.DefaultToolID? || (e.Replace? && IsMetadata(e.field))
  }

  /** A part of the Responses protocol is told one fragment, after it has been named and touched. */
  lemma PartHeard(to: Key, start: seq<Edit>, field: Field, s: Bytes, key: Key, f: Field)
    requires Spoke(key, f) && to.source == Responses && forall i :: 0 <= i < |start| ==> NamingEdit(start[i])
    ensures Told([Update(to, start + [AppendTo(field, s)])], key, f) == SaidTo(to, field, s, key, f)
    ensures OnlyAppend([Update(to, start + [AppendTo(field, s)])], key, f)
  {
    FragmentTold(to, start, field, s, key, f);
  }

  /** A part is only named. */
  lemma PartNamed(to: Key, edits: seq<Edit>, key: Key, f: Field)
    requires Spoke(key, f) && to.source == Responses && edits != []
    requires forall i :: 0 <= i < |edits| ==> NamingEdit(edits[i])
    ensures Told([Update(to, edits)], key, f) == [] && OnlyAppend([Update(to, edits)], key, f)
  {
    if key == to {
      NoneAppends(edits, f);
    }
    UpdateTold(to, edits, key, f);
  }

  lemma TextDeltaTold(kind: EventKind, event: Event, at: int, key: Key, f: Field)
    requires Spoke(key, f) && IsTextDelta(kind)
    ensures Told(KindActions(kind, event, at), key, f) == SaidByKind(kind, event, key, f)
    ensures OnlyAppend(KindActions(kind, event, at), key, f)
  {
    var (to, field) := Addressee(kind, event).value;
    var start := [Replace(ItemIDText, event.itemID), Touch(at)];
    PartHeard(to, start, field, event.delta, key, f);
    assert start + [AppendTo(field, event.delta)]
        == [Replace(ItemIDText, event.itemID)] + [Touch(at), AppendTo(field, event.delta)];
  }

  lemma ToolHeard(output: int, itemID: Bytes, toolType: Bytes, name: Bytes, s: Bytes, at: int, key: Key, f: Field)
    requires Spoke(key, f)
    ensures var actions := [AppendToTool(output, itemID, toolType, name, s, at)];
            Told(actions, key, f) == SaidTo(ToolKey(output), ArgumentsText, s, key, f) && OnlyAppend(actions, key, f)
  {
    var start := ToolStart(itemID) + [Touch(at), Replace(ToolTypeText, toolType), Replace(NameText, name)];
    PartHeard(ToolKey(output), start, ArgumentsText, s, key, f);
    assert start + [AppendTo(ArgumentsText, s)]
        == ToolStart(itemID) + [Touch(at), Replace(ToolTypeText, toolType), Replace(NameText, name),
          AppendTo(ArgumentsText, s)];
  }

  lemma ToolDeltaTold(kind: EventKind, event: Event, at: int, key: Key, f: Field)
    requires Spoke(key, f) && IsToolDelta(kind)
    ensures Told(KindActions(kind, event, at), key, f) == SaidByKind(kind, event, key, f)
    ensures OnlyAppend(KindActions(kind, event, at), key, f)
  {
    var output := Index(event.indexes.output, 0);
    match kind
    case FunctionDelta => ToolHeard(output, event.itemID, "function_call", "", event.delta, at, key, f);
    case CustomToolDelta => ToolHeard(output, event.itemID, "custom_tool_call", "", event.delta, at, key, f);
    case MCPDelta => ToolHeard(output, event.itemID, "mcp_call", event.name, event.delta, at, key, f);
    case CodeDelta => ToolHeard(output, event.itemID, "code_interpreter_call", "", event.delta, at, key, f);
  }

  lemma ShellDeltaTold(event: Event, at: int, key: Key, f: Field)
    requires Spoke(key, f)
    ensures Told(KindActions(ShellDelta, event, at), key, f) == []
    ensures OnlyAppend(KindActions(ShellDelta, event, at), key, f)
  {
    var actions := KindActions(ShellDelta, event, at);
    NoneAppends(actions[0].edits, f);
    assert actions[1..] == [];
  }

  lemma PartAddedTold(part: Part, output: int, content: int, itemID: Bytes, at: int, key: Key, f: Field)
    requires Spoke(key, f)
    ensures Told(PartActions(part, output, content, itemID, at, false), key, f)
         == SaidByPart(part, output, content, key, f)
    ensures OnlyAppend(PartActions(part, output, content, itemID, at, false), key, f)
  {
    if part.text != "" || part.refusal != "" {
      var kind, start := PartKind(part), [Replace(ItemIDText, itemID), Touch(at)];
      var field := if kind == Reasoning then ReasoningText else if part.refusal != "" then RefusalText else ContentText;
      var text := if kind == Kind.Response && part.refusal != "" then part.refusal else part.text;
      PartHeard(ResponsesKey(kind, output, content), start, field, text, key, f);
      assert start + [AppendTo(field, text)] == [Replace(ItemIDText, itemID)] + ([Touch(at)] + [AppendTo(field, text)]);
    }
  }

  lemma SummaryAddedTold(part: Part, output: int, summary: int, itemID: Bytes, at: int, key: Key, f: Field)
    requires Spoke(key, f)
    ensures var actions := [SummaryPartAction(part, output, summary, itemID, at, false)];
            && Told(actions, key, f) == SaidTo(SummaryKey(output, summary), ReasoningText, part.text, key, f)
            && OnlyAppend(actions, key, f)
  {
    var start := [Replace(ItemIDText, itemID)];
    if part.text == "" {
      PartNamed(SummaryKey(output, summary), start, key, f);
      assert start == start + ([] + []);
    } else {
      PartHeard(SummaryKey(output, summary), start + [Touch(at)], ReasoningText, part.text, key, f);
      assert start + [Touch(at)] + [AppendTo(ReasoningText, part.text)]
          == start + ([Touch(at), AppendTo(ReasoningText, part.text)] + []);
    }
  }

  lemma {:induction false} PartsAddedTold(parts: seq<Part>, position: nat, output: int, itemID: Bytes, at: int,
          key: Key, f: Field)
    requires Spoke(key, f)
    ensures Told(PartsActions(parts, position, output, itemID, at, false), key, f)
         == SaidByParts(parts, position, output, key, f)
    ensures OnlyAppend(PartsActions(parts, position, output, itemID, at, false), key, f)
    decreases |parts|
  {
    if parts != [] {
      PartAddedTold(parts[0], output, position, itemID, at, key, f);
      PartsAddedTold(parts[1..], position + 1, output, itemID, at, key, f);
      ToldThen(PartActions(parts[0], output, position, itemID, at, false),
        PartsActions(parts[1..], position + 1, output, itemID, at, false), key, f);
    }
  }

  lemma {:induction false} SummariesAddedTold(parts: seq<Part>, position: nat, output: int, itemID: Bytes, at: int,
          key: Key, f: Field)
    requires Spoke(key, f)
    ensures Told(SummariesActions(parts, position, output, itemID, at, false), key, f)
         == SaidBySummaries(parts, position, output, key, f)
    ensures OnlyAppend(SummariesActions(parts, position, output, itemID, at, false), key, f)
    decreases |parts|
  {
    if parts != [] {
      SummaryAddedTold(parts[0], output, position, itemID, at, key, f);
      SummariesAddedTold(parts[1..], position + 1, output, itemID, at, key, f);
      ToldThen([SummaryPartAction(parts[0], output, position, itemID, at, false)],
        SummariesActions(parts[1..], position + 1, output, itemID, at, false), key, f);
    }
  }

  lemma ToolItemTold(item: Item, output: int, at: int, key: Key, f: Field)
    requires Spoke(key, f) && item.itemType != "message" && item.itemType != "reasoning"
    ensures Told(ItemActions(item, output, at, false), key, f) == SaidByItem(item, output, key, f)
    ensures OnlyAppend(ItemActions(item, output, at, false), key, f)
  {
    if HasSuffix(item.itemType, "_call") || item.itemType == "program" {
      var named := [Touch(at), Replace(ToolIDText, if item.callID == "" then item.id else item.callID),
        Replace(ToolTypeText, item.itemType), Replace(NameText, item.name)];
      PartHeard(ToolKey(output), ToolStart(item.id) + named, ArgumentsText, item.arguments, key, f);
      Associative(ToolStart(item.id), named, [AppendTo(ArgumentsText, item.arguments)]);
    }
  }

  lemma ItemAddedTold(item: Item, output: int, at: int, key: Key, f: Field)
    requires Spoke(key, f)
    ensures Told(ItemActions(item, output, at, false), key, f) == SaidByItem(item, output, key, f)
    ensures OnlyAppend(ItemActions(item, output, at, false), key, f)
  {
    PartsAddedTold(item.content, 0, output, item.id, at, key, f);
    if item.itemType == "reasoning" {
      SummariesAddedTold(item.summary, 0, output, item.id, at, key, f);
      ToldThen(PartsActions(item.content, 0, output, item.id, at, false),
        SummariesActions(item.summary, 0, output, item.id, at, false), key, f);
    } else if item.itemType != "message" {
      ToolItemTold(item, output, at, key, f);
    }
  }

  lemma AddedTold(kind: EventKind, event: Event, at: int, key: Key, f: Field)
    requires Spoke(key, f) && IsAdded(kind)
    ensures Told(KindActions(kind, event, at), key, f) == SaidByKind(kind, event, key, f)
    ensures OnlyAppend(KindActions(kind, event, at), key, f)
  {
    var output := Index(event.indexes.output, 0);
    match kind
    case ItemAdded =>
      if event.item.Some? {
        ItemAddedTold(event.item.value, output, at, key, f);
      }
    case PartAdded =>
      if event.part.Some? {
        PartAddedTold(event.part.value, output, Index(event.indexes.content, 0), event.itemID, at, key, f);
      }
    case SummaryPartAdded =>
      if event.part.Some? {
        SummaryAddedTold(event.part.value, output, Index(event.indexes.summary, 0), event.itemID, at, key, f);
      }
  }

  lemma KindTold(kind: EventKind, event: Event, at: int, key: Key, f: Field)
    requires Spoke(key, f) && OnlyAdds(kind)
    ensures Told(KindActions(kind, event, at), key, f) == SaidByKind(kind, event, key, f)
    ensures OnlyAppend(KindActions(kind, event, at), key, f)
  {
    if IsTextDelta(kind) {
      TextDeltaTold(kind, event, at, key, f);
    } else if IsToolDelta(kind) {
      ToolDeltaTold(kind, event, at, key, f);
    } else if IsAdded(kind) {
      AddedTold(kind, event, at, key, f);
    } else if kind.ShellDelta? {
      ShellDeltaTold(event, at, key, f);
    }
  }

  // ---------- Texts ----------

  /** The event settles nothing. */
  predicate Adds(event: Event) {
    && (TellingOf(event).Some? ==> !TellingOf(event).value.settles)
    && event.envelope.eventType != "response.content_part.done"
    && event.envelope.eventType != "response.reasoning_summary_part.done"
  }

  /** An arrival that only adds to texts and commands. */
  predicate IsAddition(finished: set<(Source, int)>, e: Arrival) {
    OnlyTells(finished, e.event) && Adds(e.event)
  }

  lemma AdditionIsDelta(finished: set<(Source, int)>, e: Arrival)
    requires IsAddition(finished, e)
    ensures IsDelta(finished, e.event, e.at) && OnlyAdds(EventKindOf(e.event.envelope.eventType))
    ensures EventEnd(e.event.envelope).NotTerminal?
  {
    TellsOnly(finished, e.event, e.at);
    StreamGoesOn(e.event.envelope);
    AddingKinds(e.event);
  }

  lemma AddingKinds(event: Event)
    requires Adds(event) && event.envelope.eventType != "response.output_item.done"
    ensures OnlyAdds(EventKindOf(event.envelope.eventType))
  {
    var t := event.envelope.eventType;
    var kind := EventKindOf(t);
    TypesTell(event);
    KindsTell(kind, event);
    if TellingOf(event).Some? {
      TellingKinds(kind, event);
    } else {
      ItemKind(t);
      PartKinds(t);
    }
  }

  lemma TellingKinds(kind: EventKind, event: Event)
    requires KindTelling(kind, event).Some? && !KindTelling(kind, event).value.settles
    ensures IsTextDelta(kind) || IsToolDelta(kind) || kind.ShellDelta?
  {
  }

  lemma PartKinds(t: Bytes)
    requires t != "response.content_part.done" && t != "response.reasoning_summary_part.done"
    requires t != "response.output_item.done"
    ensures IsAdded(ItemKindOf(t)) || ItemKindOf(t).OtherEvent?
  {
  }

  /** What a type says, and what the code's name for the type says. */
  lemma SaidByName(event: Event, key: Key, f: Field)
    requires Adds(event) && event.envelope.eventType != "response.output_item.done"
    ensures SaidByType(event, key, f) == SaidByKind(EventKindOf(event.envelope.eventType), event, key, f)
  {
    var kind := EventKindOf(event.envelope.eventType);
    TypesTell(event);
    KindsTell(kind, event);
    if TellingOf(event).Some? {
      TellingSaid(kind, event, key, f);
    } else {
      ItemKind(event.envelope.eventType);
      PartSaidByName(event, key, f);
    }
  }

  lemma TellingSaid(kind: EventKind, event: Event, key: Key, f: Field)
    requires KindTelling(kind, event).Some? && !KindTelling(kind, event).value.settles
    ensures SaidByKind(kind, event, key, f) == SaidByTelling(KindTelling(kind, event).value, key, f)
  {
  }

  lemma PartSaidByName(event: Event, key: Key, f: Field)
    requires var t := event.envelope.eventType;
             && t != "response.output_item.done" && t != "response.content_part.done"
             && t != "response.reasoning_summary_part.done"
    ensures SaidByAddition(event, key, f) == SaidByKind(ItemKindOf(event.envelope.eventType), event, key, f)
  {
  }

  predicate AllAdditions(finished: set<(Source, int)>, arrivals: seq<Arrival>) {
    forall i :: 0 <= i < |arrivals| ==> IsAddition(finished, arrivals[i])
  }

  lemma AdditionsTail(finished: set<(Source, int)>, arrivals: seq<Arrival>)
    requires AllAdditions(finished, arrivals) && arrivals != []
    ensures IsAddition(finished, arrivals[0]) && AllAdditions(finished, arrivals[1..])
  {
  }

  /** An event that ends nothing brings no final items. */
  lemma NoFinalItems(event: Event, at: int)
    requires EventEnd(event.envelope).NotTerminal?
    ensures ResponsesActions(event, at)
         == if event.envelope.eventType == "" then []
            else TypedActions(event, at) + LifecycleActions(event, Index(event.indexes.output, 0))
  {
    var typed := TypedActions(event, at) + LifecycleActions(event, Index(event.indexes.output, 0));
    assert typed + [] == typed;
  }

  lemma TypedTold(event: Event, at: int, key: Key, f: Field)
    requires Spoke(key, f) && OnlyAdds(EventKindOf(event.envelope.eventType))
    requires Adds(event) && event.envelope.eventType != "response.output_item.done"
    ensures Told(TypedActions(event, at), key, f) == SaidByType(event, key, f)
    ensures OnlyAppend(TypedActions(event, at), key, f)
  {
    SaidByName(event, key, f);
    KindTold(EventKindOf(event.envelope.eventType), event, at, key, f);
  }

  /** A report on the lifecycle of a tool adds nothing. */
  lemma LifecycleTold(x: seq<Action>, event: Event, outputIndex: int, key: Key, f: Field)
    requires OnlyAppend(x, key, f)
    ensures var y := LifecycleActions(event, outputIndex);
            Told(x + y, key, f) == Told(x, key, f) && OnlyAppend(x + y, key, f)
  {
    var y := LifecycleActions(event, outputIndex);
    NothingTold(y, key, f);
    ToldThen(x, y, key, f);
    NothingMore(Told(x, key, f));
  }

  lemma ResponsesTold(event: Event, at: int, key: Key, f: Field)
    requires Spoke(key, f) && OnlyAdds(EventKindOf(event.envelope.eventType)) && EventEnd(event.envelope).NotTerminal?
    requires Adds(event) && event.envelope.eventType != "response.output_item.done"
    ensures Told(ResponsesActions(event, at), key, f) == SaidByResponses(event, key, f)
    ensures OnlyAppend(ResponsesActions(event, at), key, f)
  {
    NoFinalItems(event, at);
    if event.envelope.eventType != "" {
      TypedTold(event, at, key, f);
      LifecycleTold(TypedActions(event, at), event, Index(event.indexes.output, 0), key, f);
    }
  }

  lemma EventTold(finished: set<(Source, int)>, e: Arrival, key: Key, f: Field)
    requires Spoke(key, f) && IsAddition(finished, e)
    ensures Told(EventActions(finished, e.event, e.at), key, f) == SaidByEvent(finished, e.event, key, f)
    ensures OnlyAppend(EventActions(finished, e.event, e.at), key, f)
  {
    var finishes := !EventFailed(e.event.envelope);
    var x := ChoicesActions(finished, e.event.choices, 0, e.at, finishes);
    var y, z := NativeActions(e.event, e.at, finishes), ResponsesActions(e.event, e.at);
    AdditionIsDelta(finished, e);
    ChoicesTold(finished, e.event.choices, 0, e.at, finishes, key, f);
    NativeTold(e.event, e.at, finishes, key, f);
    ResponsesTold(e.event, e.at, key, f);
    ToldThree(x, y, z, key, f);
  }

  lemma {:induction false} ArrivalsTold(finished: set<(Source, int)>, arrivals: seq<Arrival>, key: Key, f: Field)
    requires Spoke(key, f) && AllAdditions(finished, arrivals)
    ensures Told(AllActions(finished, arrivals), key, f) == Said(finished, arrivals, key, f)
    ensures OnlyAppend(AllActions(finished, arrivals), key, f)
  {
    if arrivals != [] {
      EventTold(finished, arrivals[0], key, f);
      ArrivalsTold(finished, arrivals[1..], key, f);
      ToldThen(EventActions(finished, arrivals[0].event, arrivals[0].at), AllActions(finished, arrivals[1..]), key, f);
    }
  }

  lemma PartText(states: map<Key, State>, actions: seq<Action>, key: Key, f: Field, limit: nat)
    requires Spoke(key, f) && OnlyAppend(actions, key, f)
    requires WellFormed(TextAt(PartOrNew(states, key).texts, f), FieldLimit(f, limit))
    ensures TextAt(PartAfter(states, actions, key, limit).texts, f)
         == AppendAll(TextAt(PartOrNew(states, key).texts, f), Told(actions, key, f), FieldLimit(f, limit))
  {
    var s, edits := PartOrNew(states, key), EditsFor(actions, key);
    EditsForAppend(actions, key, f);
    EditsText(s, edits, f, limit);
    ToldIsCompact(actions, key, f);
    CompactEnough(TextAt(s.texts, f), Appends(edits, f), FieldLimit(f, limit));
  }

  /** Where a text of a part stands, for a part that may not be live. */
  function TextOf(a: Acc, key: Key, f: Field): Text {
    TextAt(PartOrNew(a.states, key).texts, f)
  }

  lemma AdditionsAssemble(a: Acc, arrivals: seq<Arrival>)
    requires !a.closed && AllAdditions(a.finishedChoices, arrivals)
    requires Room(a, Claimed(AllActions(a.finishedChoices, arrivals)))
    ensures AllUpdates(AllActions(a.finishedChoices, arrivals))
    ensures HasOwnChanges(a, AllActions(a.finishedChoices, arrivals), Run(a, Inputs(arrivals)).0)
  {
    var actions := AllActions(a.finishedChoices, arrivals);
    forall i | 0 <= i < |arrivals| ensures IsDelta(a.finishedChoices, arrivals[i].event, arrivals[i].at) {
      AdditionIsDelta(a.finishedChoices, arrivals[i]);
    }
    RunAsActions(a, arrivals);
    AllActionsUpdate(a.finishedChoices, arrivals);
    UpdatesAssemble(a, actions, 0);
    AssembledOwnChanges(a, actions);
  }

  lemma PartAssembled(a: Acc, actions: seq<Action>, b: Acc, key: Key)
    requires AllUpdates(actions) && HasOwnChanges(a, actions, b)
    ensures PartOrNew(b.states, key) == PartAfter(a.states, actions, key, a.limit)
  {
    if key !in b.states {
      NoChangesFor(actions, key);
      NothingChanged(PartOrNew(a.states, key), a.limit);
    }
  }

  lemma {:induction false} NoChangesFor(actions: seq<Action>, key: Key)
    requires AllUpdates(actions) && key !in UnitKeys(Claimed(actions))
    ensures EditsFor(actions, key) == [] && CommandsFor(actions, key) == []
  {
    if actions != [] {
      UnitKeysSplit(Claims(actions[0]), Claimed(actions[1..]));
      UnitKeysOfClaims(actions[0]);
      NoChangesFor(actions[1..], key);
    }
  }

  /**
   * While the caps are not reached, every text of every part is what it was, followed by what the
   * arrivals said to it, in their order and within its limit.
   */
  lemma TextsAreWhatWasSaid(a: Acc, arrivals: seq<Arrival>, key: Key, f: Field)
    requires !a.closed && AllAdditions(a.finishedChoices, arrivals) && Spoke(key, f)
    requires Room(a, Claimed(AllActions(a.finishedChoices, arrivals)))
    requires WellFormed(TextOf(a, key, f), FieldLimit(f, a.limit))
    ensures TextOf(Run(a, Inputs(arrivals)).0, key, f)
         == AppendAll(TextOf(a, key, f), Said(a.finishedChoices, arrivals, key, f), FieldLimit(f, a.limit))
  {
    var actions := AllActions(a.finishedChoices, arrivals);
    AdditionsAssemble(a, arrivals);
    ArrivalsTold(a.finishedChoices, arrivals, key, f);
    PartText(a.states, actions, key, f, a.limit);
    PartAssembled(a, actions, Run(a, Inputs(arrivals)).0, key);
  }

  /** From the start of a stream: what was said, as long as it fits, and marked as cut when it does not. */
  lemma FreshTexts(limit: int, arrivals: seq<Arrival>, key: Key, f: Field)
    requires AllAdditions({}, arrivals) && Spoke(key, f) && Room(NewAcc(limit), Claimed(AllActions({}, arrivals)))
    ensures var t, whole := TextOf(Run(NewAcc(limit), Inputs(arrivals)).0, key, f), Whole(Said({}, arrivals, key, f));
            (t.truncated <==> |whole| > FieldLimit(f, NewAcc(limit).limit)) && (!t.truncated ==> t.value == whole)
  {
    var a := NewAcc(limit);
    assert TextOf(a, key, f) == EMPTY;
    TextsAreWhatWasSaid(a, arrivals, key, f);
    BoundedText(Said({}, arrivals, key, f), FieldLimit(f, a.limit));
  }

  // ---------- Merged outputs ----------

  /** What was said to the parts, one part after the other. */
  function SaidJointly(arrivals: seq<Arrival>, keys: seq<Key>, f: Field): Bytes {
    if keys == [] then "" else Whole(Said({}, arrivals, keys[0], f)) + SaidJointly(arrivals, keys[1..], f)
  }

  predicate HoldsSaid(a: Acc, arrivals: seq<Arrival>, k: Key, f: Field) {
    k in a.states && var t := TextAt(a.states[k].texts, f); t.truncated || t.value == Whole(Said({}, arrivals, k, f))
  }

  /** A part whose arguments are not put together from shell commands. */
  predicate Plain(s: State, f: Field) {
    f.ArgumentsText? ==> s.shell == map[]
  }

  lemma PartOutputText(a: Acc, k: Key, at: int, v: Verdict, f: Field)
    requires k in a.states && Plain(a.states[k], f) && Joins(f)
    ensures var p := PartOutput(a, k, at, v);
            && OutputText(p, f) == TextAt(a.states[k].texts, f).value
            && (TextAt(a.states[k].texts, f).truncated ==> p.truncated)
    ensures !HasData(a.states[k]) && a.states[k].kind == KindOfText(f) ==> TextAt(a.states[k].texts, f) == EMPTY
  {
    var s := a.states[k];
    assert f in s.texts && s.texts[f].truncated ==> AnyTruncated(s.texts);
  }

  /** The kind of the parts that hold a text. */
  function KindOfText(f: Field): Kind
    requires Joins(f)
  {
    match f
    case ReasoningText => Reasoning
    case ArgumentsText => ToolCall
    case _ => Kind.Response
  }

  /** A part holds what was said to it, and is of the kind that holds such a text. */
  predicate PartSaid(a: Acc, arrivals: seq<Arrival>, k: Key, f: Field)
    requires Joins(f)
  {
    HoldsSaid(a, arrivals, k, f) && Plain(a.states[k], f) && a.states[k].kind == KindOfText(f)
  }

  lemma OutputSaid(a: Acc, arrivals: seq<Arrival>, k: Key, at: int, v: Verdict, f: Field)
    requires Joins(f) && PartSaid(a, arrivals, k, f) && (HasData(a.states[k]) ==> !PartOutput(a, k, at, v).truncated)
    ensures var said := Whole(Said({}, arrivals, k, f));
            if HasData(a.states[k]) then Sanitised(OutputText(PartOutput(a, k, at, v), f)) == said else said == ""
  {
    PartOutputText(a, k, at, v, f);
    WholeValid(Said({}, arrivals, k, f));
    SanitisedIdentity(Whole(Said({}, arrivals, k, f)), false);
  }

  /** The texts of the outputs of parts, unless one was cut, are what was said to the parts. */
  lemma {:induction false} PartOutputsSaid(a: Acc, arrivals: seq<Arrival>, keys: seq<Key>, at: int, v: Verdict,
          f: Field)
    requires Joins(f) && forall k :: k in keys ==> k in a.states && PartSaid(a, arrivals, k, f)
    requires forall p :: p in PartOutputs(a, keys, at, v) ==> !p.truncated
    ensures Whole(PartTexts(PartOutputs(a, keys, at, v), f)) == SaidJointly(arrivals, keys, f)
  {
    if keys != [] {
      FirstPartOutput(a, keys, at, v, f);
      PartOutputsSaid(a, arrivals, keys[1..], at, v, f);
      OutputSaid(a, arrivals, keys[0], at, v, f);
    }
  }

  lemma FirstPartOutput(a: Acc, keys: seq<Key>, at: int, v: Verdict, f: Field)
    requires keys != [] && forall k :: k in keys ==> k in a.states
    ensures var all, rest := PartOutputs(a, keys, at, v), PartOutputs(a, keys[1..], at, v);
            && (forall p :: p in rest ==> p in all)
            && (HasData(a.states[keys[0]]) ==> PartOutput(a, keys[0], at, v) in all)
            && Whole(PartTexts(all, f))
               == (if HasData(a.states[keys[0]]) then Sanitised(OutputText(PartOutput(a, keys[0], at, v), f)) else "")
                  + Whole(PartTexts(rest, f))
  {
    var rest := PartOutputs(a, keys[1..], at, v);
    if HasData(a.states[keys[0]]) {
      FirstPartText(PartOutput(a, keys[0], at, v), rest, f);
    } else {
      assert [] + rest == rest;
      assert "" + Whole(PartTexts(rest, f)) == Whole(PartTexts(rest, f));
    }
  }

  lemma FirstPartText(p: Output, rest: seq<Output>, f: Field)
    ensures Whole(PartTexts([p] + rest, f)) == Sanitised(OutputText(p, f)) + Whole(PartTexts(rest, f))
  {
    assert ([p] + rest)[1..] == rest;
    assert PartTexts([p] + rest, f)[1..] == PartTexts(rest, f);
  }

  /**
   * An output is what was said to its parts, joined by content index and then by summary index,
   * whatever the order in which it was said, unless it is marked as cut.
   */
  lemma GivenOutAsSaid(limit: int, arrivals: seq<Arrival>, outputIndex: int, at: int, v: Verdict, f: Field)
    requires AllAdditions({}, arrivals) && Joins(f) && Room(NewAcc(limit), Claimed(AllActions({}, arrivals)))
    requires forall k :: k in PartKeys(Run(NewAcc(limit), Inputs(arrivals)).0, outputIndex, KindOfText(f)) ==>
               Plain(Run(NewAcc(limit), Inputs(arrivals)).0.states[k], f)
    ensures var a := Run(NewAcc(limit), Inputs(arrivals)).0;
            var o := FinishOutputKind(a, outputIndex, KindOfText(f), at, v).1;
            && KeysOK(a)
            && (o != [] && !o[0].truncated ==>
                 OutputText(o[0], f) == SaidJointly(arrivals, SortedParts(a, outputIndex, KindOfText(f)), f))
  {
    var a := Run(NewAcc(limit), Inputs(arrivals)).0;
    ReachedValid(limit, arrivals);
    var keys := SortedParts(a, outputIndex, KindOfText(f));
    var parts := PartOutputs(a, keys, at, v);
    FinishOutputKindClosed(a, outputIndex, KindOfText(f), at, v);
    if parts != [] && !MergeOutputs(parts, at, a.limit, a.limited).truncated {
      MergedOutputText(parts, at, a.limit, a.limited, f);
      BoundedText(PartTexts(parts, f), a.limit);
      forall k | k in keys ensures PartSaid(a, arrivals, k, f) {
        FreshTexts(limit, arrivals, k, f);
        assert StateOK(k, a.states[k], a.limit);
      }
      PartOutputsSaid(a, arrivals, keys, at, v, f);
    }
  }

  lemma ReachedValid(limit: int, arrivals: seq<Arrival>)
    ensures var a := Run(NewAcc(limit), Inputs(arrivals)).0; Valid(a) && KeysOK(a)
  {
    NewAccValid(limit);
    RunSteps(NewAcc(limit), Inputs(arrivals));
    var a := Run(NewAcc(limit), Inputs(arrivals)).0;
    forall k | k in a.states ensures KeyOK(k) {
      assert StateOK(k, a.states[k], a.limit);
    }
  }

  // ---------- Shell commands ----------

  /** What an event says to one shell command of a part. */
  function SaidToCommandBy(event: Event, key: Key, index: int): seq<Bytes> {
    match TellingOf(event)
    case Some(OfCommand(output, command, value, false)) =>
      if key == ToolOfItem(output) && index == command then [value] else []
    case _ => []
  }

  /** The same by the code's name for the type. */
  function SaidToCommandByKind(kind: EventKind, event: Event, key: Key, index: int): seq<Bytes> {
    if kind.ShellDelta? && key == ToolKey(Index(event.indexes.output, 0)) && index == Index(event.indexes.command, 0)
    then [event.delta]
    else []
  }

  lemma CommandSaidByName(event: Event, key: Key, index: int)
    ensures SaidToCommandBy(event, key, index)
         == SaidToCommandByKind(EventKindOf(event.envelope.eventType), event, key, index)
  {
    TypesTell(event);
    CommandTellings(EventKindOf(event.envelope.eventType), event);
  }

  lemma CommandTellings(kind: EventKind, event: Event)
    ensures kind.ShellDelta? ==>
              KindTelling(kind, event) == Some(OfCommand(Index(event.indexes.output, 0),
                                                 Index(event.indexes.command, 0), event.delta, false))
    ensures !kind.ShellDelta? ==>
              match KindTelling(kind, event) case Some(OfCommand(_, _, _, settles)) => settles case _ => true
  {
  }

  lemma NoTypeNoCommand(event: Event, key: Key, index: int)
    requires event.envelope.eventType == ""
    ensures SaidToCommandBy(event, key, index) == []
  {
  }

  function SaidToCommand(arrivals: seq<Arrival>, key: Key, index: int): seq<Bytes> {
    if arrivals == [] then []
    else SaidToCommandBy(arrivals[0].event, key, index) + SaidToCommand(arrivals[1..], key, index)
  }

  /** What changes add to one shell command. */
  function CommandTexts(commands: seq<Command>, index: int): seq<Bytes> {
    if commands == [] then []
    else (if commands[0].index == index then [commands[0].text] else []) + CommandTexts(commands[1..], index)
  }

  predicate NoneAuthoritative(commands: seq<Command>) {
    forall i :: 0 <= i < |commands| ==> !commands[i].authoritative
  }

  lemma {:induction false} CommandAfter(shell: map<int, Text>, commands: seq<Command>, index: int, limit: nat)
    requires NoneAuthoritative(commands)
    ensures CommandAt(ShellAfter(shell, commands, limit), index)
         == AppendAll(CommandAt(shell, index), CommandTexts(commands, index), limit)
    decreases |commands|
  {
    if commands != [] {
      var c, own := commands[0], CommandTexts(commands[1..], index);
      var next := shell[c.index := Appended(CommandAt(shell, c.index), c.text, limit)];
      CommandAfter(next, commands[1..], index, limit);
      if c.index == index {
        assert ([c.text] + own)[1..] == own;
      } else {
        assert CommandAt(next, index) == CommandAt(shell, index) && [] + own == own;
      }
    }
  }

  predicate NoCommands(actions: seq<Action>) {
    forall i :: 0 <= i < |actions| ==> !actions[i].UpdateShell?
  }

  lemma {:induction false} NoCommandsFor(actions: seq<Action>, key: Key)
    requires NoCommands(actions)
    ensures CommandsFor(actions, key) == []
  {
    if actions != [] {
      NoCommandsFor(actions[1..], key);
    }
  }

  lemma {:induction false} CommandsForAppend(x: seq<Action>, y: seq<Action>, key: Key)
    ensures CommandsFor(x + y, key) == CommandsFor(x, key) + CommandsFor(y, key)
    decreases |x|
  {
    if x == [] {
      assert x + y == y;
    } else {
      assert (x + y)[0] == x[0] && (x + y)[1..] == x[1..] + y;
      CommandsForAppend(x[1..], y, key);
      Associative(if IsFor(x[0], key) then CommandsOf(x[0]) else [], CommandsFor(x[1..], key), CommandsFor(y, key));
    }
  }

  lemma {:induction false} CommandTextsAppend(x: seq<Command>, y: seq<Command>, index: int)
    ensures CommandTexts(x + y, index) == CommandTexts(x, index) + CommandTexts(y, index)
    decreases |x|
  {
    if x == [] {
      assert x + y == y;
    } else {
      assert (x + y)[0] == x[0] && (x + y)[1..] == x[1..] + y;
      CommandTextsAppend(x[1..], y, index);
      Associative(if x[0].index == index then [x[0].text] else [], CommandTexts(x[1..], index), CommandTexts(y, index));
    }
  }

  lemma {:induction false} ToolsBringNoCommands(tools: seq<ToolPart>, position: nat, choiceIndex: int, at: int)
    ensures NoCommands(ToolActions(tools, position, choiceIndex, at))
    decreases |tools|
  {
    if tools != [] {
      ToolsBringNoCommands(tools[1..], position + 1, choiceIndex, at);
    }
  }

  lemma DeltaBringsNoCommands(delta: Delta, choiceIndex: int, at: int)
    ensures NoCommands(DeltaActions(delta, choiceIndex, at))
  {
    ToolsBringNoCommands(delta.toolCalls, 0, choiceIndex, at);
    assert NoCommands(DeltaTextActions(delta, choiceIndex, at));
    assert NoCommands(FunctionCallActions(delta.functionCall, choiceIndex, at));
  }

  lemma ChoiceBringsNoCommands(choice: Choice, choiceIndex: int, at: int, finishes: bool)
    ensures NoCommands(ChoiceActions(choice, choiceIndex, at, finishes))
  {
    if choice.delta.Some? {
      DeltaBringsNoCommands(choice.delta.value, choiceIndex, at);
    }
    assert NoCommands(ChoiceTextActions(choice, choiceIndex, at));
    assert NoCommands(ChoiceReasonActions(choice, choiceIndex, finishes));
  }

  lemma {:induction false} ChoicesBringNoCommands(finished: set<(Source, int)>, choices: seq<Choice>, position: nat,
          at: int, finishes: bool)
    ensures NoCommands(ChoicesActions(finished, choices, position, at, finishes))
    decreases |choices|
  {
    if choices != [] {
      ChoiceBringsNoCommands(choices[0], Index(choices[0].index, position), at, finishes);
      ChoicesBringNoCommands(finished, choices[1..], position + 1, at, finishes);
    }
  }

  lemma {:induction false} PartsBringNoCommands(parts: seq<Part>, position: nat, output: int, itemID: Bytes, at: int)
    ensures NoCommands(PartsActions(parts, position, output, itemID, at, false))
    ensures NoCommands(SummariesActions(parts, position, output, itemID, at, false))
    decreases |parts|
  {
    if parts != [] {
      PartsBringNoCommands(parts[1..], position + 1, output, itemID, at);
    }
  }

  lemma AddedBringsNoCommands(kind: EventKind, event: Event, at: int)
    requires IsAdded(kind)
    ensures NoCommands(KindActions(kind, event, at))
  {
    if event.item.Some? {
      var item, output := event.item.value, Index(event.indexes.output, 0);
      PartsBringNoCommands(item.content, 0, output, item.id, at);
      PartsBringNoCommands(item.summary, 0, output, item.id, at);
    }
  }

  /** Only shell deltas change commands, and each adds to one. */
  lemma KindCommands(kind: EventKind, event: Event, at: int, key: Key, index: int)
    requires OnlyAdds(kind)
    ensures var commands := CommandsFor(KindActions(kind, event, at), key);
            CommandTexts(commands, index) == SaidToCommandByKind(kind, event, key, index) && NoneAuthoritative(commands)
  {
    var actions := KindActions(kind, event, at);
    if kind.ShellDelta? {
      assert actions[1..] == [];
      var command := Command(Index(event.indexes.command, 0), event.delta, false);
      assert CommandsFor(actions, key) == if key == ToolKey(Index(event.indexes.output, 0)) then [command] else [];
      assert [command][1..] == [];
    } else {
      if IsAdded(kind) {
        AddedBringsNoCommands(kind, event, at);
      }
      NoCommandsFor(actions, key);
    }
  }

  lemma EventCommands(finished: set<(Source, int)>, e: Arrival, key: Key, index: int)
    requires IsAddition(finished, e)
    ensures var commands := CommandsFor(EventActions(finished, e.event, e.at), key);
            CommandTexts(commands, index) == SaidToCommandBy(e.event, key, index) && NoneAuthoritative(commands)
  {
    var finishes := !EventFailed(e.event.envelope);
    AdditionIsDelta(finished, e);
    ChoicesBringNoCommands(finished, e.event.choices, 0, e.at, finishes);
    NativeBringsNoCommands(e.event, e.at, finishes);
    CommandsAtLast(ChoicesActions(finished, e.event.choices, 0, e.at, finishes), NativeActions(e.event, e.at, finishes),
      ResponsesActions(e.event, e.at), key);
    ResponsesCommands(e.event, e.at, key, index);
  }

  lemma NativeBringsNoCommands(event: Event, at: int, finishes: bool)
    ensures NoCommands(NativeActions(event, at, finishes))
  {
  }

  lemma CommandsAtLast(x: seq<Action>, y: seq<Action>, z: seq<Action>, key: Key)
    requires NoCommands(x) && NoCommands(y)
    ensures CommandsFor(x + y + z, key) == CommandsFor(z, key)
  {
    NoCommandsFor(x + y, key);
    CommandsForAppend(x + y, z, key);
  }

  lemma ResponsesCommands(event: Event, at: int, key: Key, index: int)
    requires OnlyAdds(EventKindOf(event.envelope.eventType)) && EventEnd(event.envelope).NotTerminal?
    ensures var commands := CommandsFor(ResponsesActions(event, at), key);
            CommandTexts(commands, index) == SaidToCommandBy(event, key, index) && NoneAuthoritative(commands)
  {
    NoFinalItems(event, at);
    if event.envelope.eventType == "" {
      NoTypeNoCommand(event, key, index);
    } else {
      var x, y := TypedActions(event, at), LifecycleActions(event, Index(event.indexes.output, 0));
      CommandSaidByName(event, key, index);
      KindCommands(EventKindOf(event.envelope.eventType), event, at, key, index);
      NoCommandsFor(y, key);
      CommandsForAppend(x, y, key);
      assert CommandsFor(x, key) + [] == CommandsFor(x, key);
    }
  }

  lemma {:induction false} ArrivalsCommands(finished: set<(Source, int)>, arrivals: seq<Arrival>, key: Key, index: int)
    requires AllAdditions(finished, arrivals)
    ensures var commands := CommandsFor(AllActions(finished, arrivals), key);
            CommandTexts(commands, index) == SaidToCommand(arrivals, key, index) && NoneAuthoritative(commands)
  {
    if arrivals != [] {
      AdditionsTail(finished, arrivals);
      EventCommands(finished, arrivals[0], key, index);
      ArrivalsCommands(finished, arrivals[1..], key, index);
      CommandsThen(EventActions(finished, arrivals[0].event, arrivals[0].at), AllActions(finished, arrivals[1..]), key,
        index);
    }
  }

  lemma CommandsThen(x: seq<Action>, y: seq<Action>, key: Key, index: int)
    requires NoneAuthoritative(CommandsFor(x, key)) && NoneAuthoritative(CommandsFor(y, key))
    ensures CommandTexts(CommandsFor(x + y, key), index)
         == CommandTexts(CommandsFor(x, key), index) + CommandTexts(CommandsFor(y, key), index)
    ensures NoneAuthoritative(CommandsFor(x + y, key))
  {
    CommandsForAppend(x, y, key);
    CommandTextsAppend(CommandsFor(x, key), CommandsFor(y, key), index);
  }

  /** Every shell command of every part is what it was, followed by the deltas that were addressed to it. */
  lemma CommandsAreWhatWasSaid(a: Acc, arrivals: seq<Arrival>, key: Key, index: int)
    requires !a.closed && AllAdditions(a.finishedChoices, arrivals)
    requires Room(a, Claimed(AllActions(a.finishedChoices, arrivals)))
    ensures CommandAt(PartOrNew(Run(a, Inputs(arrivals)).0.states, key).shell, index)
         == AppendAll(CommandAt(PartOrNew(a.states, key).shell, index), SaidToCommand(arrivals, key, index), a.limit)
  {
    var actions := AllActions(a.finishedChoices, arrivals);
    AdditionsAssemble(a, arrivals);
    PartAssembled(a, actions, Run(a, Inputs(arrivals)).0, key);
    ArrivalsCommands(a.finishedChoices, arrivals, key, index);
    CommandAfter(PartOrNew(a.states, key).shell, CommandsFor(actions, key), index, a.limit);
  }

  // ---------- Definitive texts ----------

  /** The actions are one update whose last edit sets the text. */
  predicate SetsLast(actions: seq<Action>, to: Key, field: Field, value: Bytes) {
    && |actions| == 1 && actions[0].Update? && actions[0].key == to
    && |actions[0].edits| > 0 && actions[0].edits[|actions[0].edits| - 1] == Replace(field, value)
  }

  /** The part and the text that the event settles. */
  function SettledBy(telling: Telling): (Key, Field) {
    match telling
    case OfText(to, f, _, _) => (to, f)
    case OfTool(output, _, _, _, _) => (ToolOfItem(output), ArgumentsText)
    case OfCommand(output, _, _, _) => (ToolOfItem(output), ArgumentsText)
  }

  lemma SettlesLast(telling: Telling, id: Bytes, at: int)
    requires telling.settles && !telling.OfCommand?
    ensures SetsLast(ToldBy(telling, id, at), SettledBy(telling).0, SettledBy(telling).1, telling.value)
  {
  }

  /** An event that tells one part something asks for that alone. */
  lemma TellsAlone(a: Acc, event: Event, at: int)
    requires !a.closed && OnlyTells(a.finishedChoices, event) && event.choices == []
    requires TellingOf(event).Some? && event.envelope.eventType != ""
    ensures Receive(a, Decoded(event, at))
         == PerformAll(a, ToldBy(TellingOf(event).value, event.itemID, at), at)
    ensures TellingOf(event).value.OfText? ==> Joins(TellingOf(event).value.field)
  {
    TellsOnly(a.finishedChoices, event, at);
    StreamGoesOn(event.envelope);
    DeltaAsActions(a, event, at);
    OnlyTyped(event, at);
    TypesTell(event);
    KindMeans(EventKindOf(event.envelope.eventType), event, at);
    var actions := ToldBy(TellingOf(event).value, event.itemID, at);
    assert [] + [] + actions == actions;
  }

  /**
   * Whatever was said before, one call of Observe with a "done" event settles the text that its type
   * names, if its part can be had.
   */
  lemma DoneSettlesText(a: Acc, event: Event, at: int)
    requires !a.closed && OnlyTells(a.finishedChoices, event) && event.choices == []
    requires TellingOf(event).Some? && TellingOf(event).value.settles && !TellingOf(event).value.OfCommand?
    requires event.envelope.eventType != "" && GetState(a, SettledBy(TellingOf(event).value).0).1
    ensures var telling := TellingOf(event).value;
            var (to, field) := SettledBy(telling);
            TextOf(Receive(a, Decoded(event, at)).0, to, field) == SetTo(telling.value, a.limit)
  {
    var telling := TellingOf(event).value;
    TellsAlone(a, event, at);
    SettlesLast(telling, event.itemID, at);
    SettledText(a, ToldBy(telling, event.itemID, at), SettledBy(telling).0, SettledBy(telling).1, telling.value, at);
  }

  lemma SettledText(a: Acc, actions: seq<Action>, to: Key, field: Field, value: Bytes, at: int)
    requires SetsLast(actions, to, field, value) && Joins(field) && GetState(a, to).1
    ensures TextOf(PerformAll(a, actions, at).0, to, field) == SetTo(value, a.limit)
  {
    OneUpdate(a, actions, at);
    SettledPart(GetState(a, to).0.states[to], actions[0].edits, field, value, a.limit);
  }

  lemma OneUpdate(a: Acc, actions: seq<Action>, at: int)
    requires |actions| == 1 && actions[0].Update? && GetState(a, actions[0].key).1
    ensures var b := GetState(a, actions[0].key).0;
            && actions[0].key in b.states
            && PerformAll(a, actions, at).0
               == b.(states := b.states[actions[0].key :=
                      ApplyEdits(b.states[actions[0].key], actions[0].edits, a.limit)])
  {
    assert actions[1..] == [];
  }

  lemma SettledPart(s: State, edits: seq<Edit>, field: Field, value: Bytes, limit: nat)
    requires |edits| > 0 && edits[|edits| - 1] == Replace(field, value) && Joins(field)
    ensures TextAt(ApplyEdits(s, edits, limit).texts, field) == SetTo(value, limit)
  {
    var n := |edits| - 1;
    assert edits == edits[..n] + [edits[n]];
    ApplyEditsAppend(s, edits[..n], [edits[n]], limit);
    assert [edits[n]][1..] == [];
  }

  // ---------- When a part cannot be had ----------

  /** The part that an event is for. */
  function PartTold(telling: Telling): Key {
    if telling.OfText? then telling.to else ToolOfItem(telling.output)
  }

  /** A fragment that is empty asks for no part. */
  predicate AsksForPart(telling: Telling) {
    telling.settles || telling.value != "" || !telling.OfText?
  }

  /** Its output has been given out. */
  predicate TooLate(a: Acc, key: Key) {
    key in a.finished || GroupOf(key) in a.finishedGroups
  }

  /** As many parts and commands as there may be, or as many outputs. */
  predicate TooMany(a: Acc, key: Key) {
    a.createdParts >= 128 || (GroupOf(key) !in a.groups && |a.groups| >= 64)
  }

  lemma OneTold(telling: Telling, id: Bytes, at: int)
    requires AsksForPart(telling)
    ensures var actions := ToldBy(telling, id, at);
            |actions| == 1 && IsUpdate(actions[0]) && KeyOf(actions[0]) == PartTold(telling)
  {
  }

  lemma PartRefused(a: Acc, action: Action, at: int)
    requires IsUpdate(action) && !GetState(a, KeyOf(action)).1
    ensures PerformAll(a, [action], at) == (GetState(a, KeyOf(action)).0, [])
  {
    PerformOne(a, action, at);
  }

  /**
   * What is told to a part that is not live has no effect once its output has been given out, and
   * none but the admission that something is missing once a cap is reached.
   */
  lemma NotHeard(a: Acc, event: Event, at: int)
    requires !a.closed && OnlyTells(a.finishedChoices, event) && event.choices == [] && event.envelope.eventType != ""
    requires TellingOf(event).Some? && AsksForPart(TellingOf(event).value)
    requires PartTold(TellingOf(event).value) !in a.states
    ensures var key := PartTold(TellingOf(event).value);
            && (TooLate(a, key) ==> Receive(a, Decoded(event, at)) == (a, []))
            && (!TooLate(a, key) && TooMany(a, key) ==>
                  Receive(a, Decoded(event, at)) == (a.(limited := true), []))
  {
    var telling, key := TellingOf(event).value, PartTold(TellingOf(event).value);
    TellsAlone(a, event, at);
    OneTold(telling, event.itemID, at);
    var actions := ToldBy(telling, event.itemID, at);
    assert actions == [actions[0]];
    if TooLate(a, key) || TooMany(a, key) {
      PartRefused(a, actions[0], at);
    }
  }

  /** A new command of a live tool is not kept once there are as many as there may be, and that is admitted. */
  lemma CommandNotKept(a: Acc, event: Event, at: int)
    requires !a.closed && OnlyTells(a.finishedChoices, event) && event.choices == [] && event.envelope.eventType != ""
    requires TellingOf(event).Some? && TellingOf(event).value.OfCommand?
    requires var telling := TellingOf(event).value;
             var key := ToolOfItem(telling.output);
             key in a.states && !TooLate(a, key) && telling.index !in a.states[key].shell && a.createdParts >= 128
    ensures var key := ToolOfItem(TellingOf(event).value.output);
            var named := ToolTyped(a.states[key], event.itemID, "shell_call", "", at, a.limit);
            Receive(a, Decoded(event, at)) == (a.(limited := true, states := a.states[key := named]), [])
  {
    var telling := TellingOf(event).value;
    TellsAlone(a, event, at);
    PerformOne(a, ToldBy(telling, event.itemID, at)[0], at);
    ShellTypedMeans(a.states[ToolOfItem(telling.output)], event.itemID, at, a.limit);
    ShellRefused(a, telling, event.itemID, at);
  }

  lemma ShellRefused(a: Acc, telling: Telling, id: Bytes, at: int)
    requires telling.OfCommand?
    requires var key := ToolOfItem(telling.output);
             key in a.states && !TooLate(a, key) && telling.index !in a.states[key].shell && a.createdParts >= 128
    ensures var edits := ToolStart(id) + [Touch(at), Replace(ToolTypeText, "shell_call")];
            var key := ToolOfItem(telling.output);
            UpdateShellOf(a, telling.output, edits, telling.index, telling.value, telling.settles)
            == a.(limited := true, states := a.states[key := ApplyEdits(a.states[key], edits, a.limit)])
  {
    var edits := ToolStart(id) + [Touch(at), Replace(ToolTypeText, "shell_call")];
    var key := ToolOfItem(telling.output);
    EditsIgnoreShell(a.states[key], edits, a.states[key].shell, a.limit);
  }
}

/**
 * What counts as a first token: something was said to a part. The accumulator looks at the texts
 * it holds; here that is tied to what the events said.
 */
module StreamTokens {
  import opened Bytes
  import opened LimitedText
  import opened StreamEvents
  import opened StreamParts
  import opened StreamActions
  import opened StreamAssembly
  import opened StreamInvariants
  import opened StreamRuns
  import opened StreamOrder
  import opened StreamReports
  import opened StreamMeaning
  import opened StreamContent
  import StreamStatus

  /** The types that say no more of a tool than that it is a function. */
  predicate OnlyAFunction(toolType: Bytes) {
    toolType == "function" || toolType == "function_call" || toolType == "custom_tool_call"
  }

  /** The part shows a token: a text that it speaks by, other than the type of a mere function. */
  ghost predicate ShowsToken(s: State) {
    exists f :: Speaks(s.kind, f) && Nonempty(TextAt(s.texts, f)) && !MereType(f, TextAt(s.texts, f))
  }

  predicate MereType(f: Field, t: Text) {
    f == ToolTypeText && OnlyAFunction(t.value) && !t.truncated
  }

  lemma PartTokens(s: State)
    ensures StateHasToken(s) <==> ShowsToken(s)
  {
    match s.kind
    case Reasoning => assert Speaks(s.kind, ReasoningText);
    case Response => assert Speaks(s.kind, ContentText) && Speaks(s.kind, RefusalText);
    case ToolCall => ToolPartTokens(s);
  }

  lemma ToolPartTokens(s: State)
    requires s.kind == ToolCall
    ensures StateHasToken(s) <==> ShowsToken(s)
  {
    assert Speaks(s.kind, ToolIDText) && Speaks(s.kind, ToolTypeText);
    assert Speaks(s.kind, NameText) && Speaks(s.kind, ArgumentsText);
  }

  /** An output shows a token by the same texts, or by admitting that something was cut. */
  lemma OutputTokens(o: Output)
    ensures OutputHasToken(o)
       <==> o.truncated || exists f :: Speaks(o.kind, f) && OutputText(o, f) != ""
                                       && !(f == ToolTypeText && OnlyAFunction(OutputText(o, f)))
  {
    match o.kind
    case Reasoning => assert Speaks(o.kind, ReasoningText);
    case Response => assert Speaks(o.kind, ContentText) && Speaks(o.kind, RefusalText);
    case ToolCall =>
      assert Speaks(o.kind, ToolIDText) && Speaks(o.kind, ToolTypeText);
      assert Speaks(o.kind, NameText) && Speaks(o.kind, ArgumentsText);
  }

  // ---------- Texts ----------

  predicate SaysSomething(fragments: seq<Bytes>) {
    exists i :: 0 <= i < |fragments| && fragments[i] != ""
  }

  lemma {:induction false} WholeSays(fragments: seq<Bytes>)
    ensures Whole(fragments) != "" <==> SaysSomething(fragments)
  {
    if fragments != [] {
      var rest := fragments[1..];
      WholeSays(rest);
      if fragments[0] == "" {
        assert "" + Whole(rest) == Whole(rest);
        assert forall i :: 0 < i < |fragments| ==> fragments[i] == rest[i - 1];
        assert forall i :: 0 <= i < |rest| ==> rest[i] == fragments[i + 1];
      } else {
        SomethingStays(fragments[0]);
      }
    }
  }

  lemma SomethingStays(s: Bytes)
    requires s != ""
    ensures Sanitised(s) != ""
  {
    StreamStatus.SetNonempty(s, |s| + 1);
  }

  /**
   * A part of a message or of reasoning shows a token exactly when something was said to one of
   * the texts that it speaks by.
   */
  lemma TokenIffSaid(limit: int, arrivals: seq<Arrival>, key: Key)
    requires AllAdditions({}, arrivals) && Room(NewAcc(limit), Claimed(AllActions({}, arrivals)))
    requires key.kind != ToolCall
    ensures var b := Run(NewAcc(limit), Inputs(arrivals)).0;
            key in b.states && StateHasToken(b.states[key])
            <==> exists f :: Speaks(key.kind, f) && SaysSomething(Said({}, arrivals, key, f))
  {
    var b := Run(NewAcc(limit), Inputs(arrivals)).0;
    NewAccValid(limit);
    RunSteps(NewAcc(limit), Inputs(arrivals));
    forall f | Speaks(key.kind, f)
      ensures Nonempty(TextOf(b, key, f)) <==> SaysSomething(Said({}, arrivals, key, f))
    {
      TextIffSaid(limit, arrivals, key, f);
    }
    TokenOfTexts(b, key);
  }

  lemma TextIffSaid(limit: int, arrivals: seq<Arrival>, key: Key, f: Field)
    requires AllAdditions({}, arrivals) && Room(NewAcc(limit), Claimed(AllActions({}, arrivals))) && Spoke(key, f)
    ensures Nonempty(TextOf(Run(NewAcc(limit), Inputs(arrivals)).0, key, f))
       <==> SaysSomething(Said({}, arrivals, key, f))
  {
    FreshTexts(limit, arrivals, key, f);
    WholeSays(Said({}, arrivals, key, f));
  }

  lemma TokenOfTexts(b: Acc, key: Key)
    requires StatesOK(b) && key.kind != ToolCall
    ensures key in b.states && StateHasToken(b.states[key])
       <==> exists f :: Speaks(key.kind, f) && Nonempty(TextOf(b, key, f))
  {
    if key in b.states {
      assert StateOK(key, b.states[key], b.limit);
      PartTokens(b.states[key]);
    }
  }

  // ---------- Tools ----------

  /** A type that is told says more than that the tool is a function. */
  predicate TypeShows(toolType: Bytes, limit: nat) {
    toolType != "" && !MereType(ToolTypeText, SetTo(toolType, MetadataLimit(limit)))
  }

  /** Something that is told of a tool shows, if it is not empty. */
  predicate ToolSays(id: Bytes, toolType: Bytes, name: Bytes, arguments: Bytes, limit: nat) {
    id != "" || name != "" || arguments != "" || TypeShows(toolType, limit)
  }

  /** The texts of a tool that has been told these things and nothing else. */
  predicate ToldOfTool(s: State, id: Bytes, toolType: Bytes, name: Bytes, arguments: Bytes, limit: nat) {
    && s.kind == ToolCall
    && TextAt(s.texts, ToolIDText) == SetTo(id, MetadataLimit(limit))
    && TextAt(s.texts, ToolTypeText) == SetTo(toolType, MetadataLimit(limit))
    && TextAt(s.texts, NameText) == SetTo(name, MetadataLimit(limit))
    && TextAt(s.texts, ArgumentsText) == SetTo(arguments, limit)
  }

  lemma SetShows(value: Bytes, limit: nat)
    requires limit > 0
    ensures Nonempty(SetTo(value, limit)) <==> value != ""
  {
    if value != "" {
      StreamStatus.SetNonempty(value, limit);
    } else {
      assert Sanitised("") == "";
    }
  }

  lemma ToolShows(s: State, id: Bytes, toolType: Bytes, name: Bytes, arguments: Bytes, limit: nat)
    requires limit > 0 && ToldOfTool(s, id, toolType, name, arguments, limit)
    ensures StateHasToken(s) <==> ToolSays(id, toolType, name, arguments, limit)
  {
    PartTokens(s);
    SetShows(id, MetadataLimit(limit));
    SetShows(toolType, MetadataLimit(limit));
    SetShows(name, MetadataLimit(limit));
    SetShows(arguments, limit);
    assert Speaks(s.kind, ToolIDText) && Speaks(s.kind, ToolTypeText);
    assert Speaks(s.kind, NameText) && Speaks(s.kind, ArgumentsText);
  }

  function NewTool(key: Key): State {
    NewState(ToolCall, LabelsOf(key))
  }

  lemma NothingSet(limit: nat)
    ensures SetTo("", limit) == EMPTY
  {
    assert Sanitised("") == "";
  }

  lemma FirstTyped(key: Key, id: Bytes, toolType: Bytes, name: Bytes, at: int, limit: nat)
    ensures ToldOfTool(ToolTyped(NewTool(key), id, toolType, name, at, limit), id, toolType, name, "", limit)
  {
    NothingSet(limit);
    NothingSet(MetadataLimit(limit));
  }

  lemma FirstTelling(key: Key, telling: Telling, id: Bytes, at: int, limit: nat)
    requires telling.OfTool? && key == ToolOfItem(telling.output)
    ensures ToldOfTool(TellingHeard(NewTool(key), key, telling, id, at, limit), id, telling.toolType, telling.name,
              telling.value, limit)
  {
    FirstTyped(key, id, telling.toolType, telling.name, at, limit);
    NothingSet(limit);
  }

  /** The first thing that a Responses event tells of a tool shows a token unless only its mere type is known. */
  lemma FirstTellingShows(key: Key, telling: Telling, id: Bytes, at: int, limit: nat)
    requires limit > 0 && telling.OfTool? && key == ToolOfItem(telling.output)
    ensures StateHasToken(TellingHeard(NewTool(key), key, telling, id, at, limit))
       <==> ToolSays(id, telling.toolType, telling.name, telling.value, limit)
  {
    FirstTelling(key, telling, id, at, limit);
    var s := TellingHeard(NewTool(key), key, telling, id, at, limit);
    ToolShows(s, id, telling.toolType, telling.name, telling.value, limit);
  }

  /** And so does the first delta of a Chat tool call. */
  lemma FirstCallShows(key: Key, tool: ToolPart, at: int, limit: nat)
    requires limit > 0
    ensures var call := tool.function_.GetOr(Call("", ""));
            StateHasToken(ToolCallHeard(NewTool(key), tool, at, limit))
            <==> ToolSays(tool.id, tool.toolType, call.name, call.arguments, limit)
  {
    var s, call := ToolCallHeard(NewTool(key), tool, at, limit), tool.function_.GetOr(Call("", ""));
    NothingSet(limit);
    NothingSet(MetadataLimit(limit));
    ToolShows(s, tool.id, tool.toolType, call.name, call.arguments, limit);
  }
}

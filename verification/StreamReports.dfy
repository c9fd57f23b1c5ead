/**
 * What an output reports of its parts, told without the code that finishes and merges them: its
 * place, its times, its texts and names, its status and its marks.
 */
module StreamReports {
  import opened Bytes
  import opened LimitedText
  import opened Ordering
  import opened StreamEvents
  import opened StreamParts
  import opened StreamActions
  import opened StreamAssembly
  import opened StreamFinishing
  import opened StreamInvariants
  import opened StreamSafety
  import opened StreamTexts

  // ---------- One part ----------

  /** The texts that a part of this kind speaks by. */
  predicate Speaks(kind: Kind, f: Field) {
    match kind
    case Reasoning => f == ReasoningText
    case Response => f == ContentText || f == RefusalText
    case ToolCall => f == ToolIDText || f == ToolTypeText || f == NameText || f == ArgumentsText
  }

  /** The part has something to report. */
  ghost predicate Speaking(s: State) {
    (exists f :: Speaks(s.kind, f) && Nonempty(TextAt(s.texts, f))) || (s.kind == ToolCall && s.shell != map[])
  }

  /** What the part was told of its own end goes before how its output ended. */
  predicate Completes(s: State, v: Verdict) {
    !s.flags.failed && !s.flags.incomplete && (s.flags.completed || v.complete)
  }

  predicate Fails(s: State, v: Verdict) {
    s.flags.failed || (v.failed && (s.flags.incomplete || !s.flags.completed))
  }

  /** The output ends as incomplete, as the protocol has it, for the part's own sake or the stream's. */
  predicate Unended(s: State, e: Ending) {
    s.flags.incomplete || (e.terminalIncomplete && !Completes(s, e.verdict))
  }

  /** The observation was limited, or such a completion cannot be relied on. */
  predicate Limits(e: Ending) {
    e.limited || (e.decodeFailed && e.verdict.complete)
  }

  /** The more telling of two messages, the part's own first. */
  function MoreTelling(own: Bytes, other: Bytes): Bytes {
    if own != "" && own != "upstream reported an error" then own
    else if other != "" && other != "upstream reported an error" then other
    else if own != "" then own
    else other
  }

  function MessageOf(s: State, v: Verdict): Bytes {
    if s.flags.failed then MoreTelling(s.errorMessage, v.message) else if Fails(s, v) then v.message else ""
  }

  /** The commands of a tool are its arguments, unless its arguments came in full. */
  predicate Commanded(s: State) {
    s.shell != map[] && !s.flags.argumentsAuthoritative
  }

  function SayingOf(s: State, f: Field, limit: nat): Bytes {
    if f == ArgumentsText && Commanded(s) then AssembledShellCommands(s.shell, limit).0 else TextAt(s.texts, f).value
  }

  ghost predicate CutShort(s: State, limit: nat) {
    (exists f :: TextAt(s.texts, f).truncated) || (Commanded(s) && AssembledShellCommands(s.shell, limit).1)
  }

  // ---------- The parts of one output ----------

  function Sayings(parts: seq<State>, f: Field, limit: nat): seq<Bytes> {
    if parts == [] then [] else [SayingOf(parts[0], f, limit)] + Sayings(parts[1..], f, limit)
  }

  function Messages(parts: seq<State>, v: Verdict): seq<Bytes> {
    if parts == [] then [] else [MessageOf(parts[0], v)] + Messages(parts[1..], v)
  }

  /** The last that is not empty. */
  function LastNamed(name: Bytes, names: seq<Bytes>): Bytes
    decreases |names|
  {
    if names == [] then name else LastNamed(if names[0] == "" then name else names[0], names[1..])
  }

  function Joined(parts: seq<State>, f: Field, limit: nat): Text {
    AppendAll(EMPTY, Sayings(parts, f, limit), limit)
  }

  /** When and how outputs end, and what the accumulator marks them with. */
  datatype Ending = Ending(
    at: int, verdict: Verdict, limit: nat, limited: bool, decodeFailed: bool, terminalIncomplete: bool)

  function EndingOf(a: Acc, at: int, v: Verdict): Ending {
    Ending(at, v, a.limit, a.limited, a.decodeFailed, a.terminalIncomplete)
  }

  /** No verdict is both complete and failed, and only a failure has a message. */
  predicate Told(v: Verdict) {
    VerdictOK(v) && (!v.failed ==> v.message == "")
  }

  /** The indexes of an output: a content index only if it is that of a single content or summary. */
  predicate ReportsPlace(o: Output, ks: seq<Key>)
    requires ks != []
  {
    var k := ks[0];
    && o.kind == k.kind
    && o.labels.choice == (if k.source == Chat then Some(k.choiceIndex) else None)
    && o.labels.output == (if k.source == Responses then Some(k.outputIndex) else None)
    && o.labels.tool == (if k.source == Chat && k.kind == ToolCall then Some(k.toolIndex) else None)
    && o.labels.content
       == (if k.source != Responses || k.kind == ToolCall || |ks| > 1 then None
           else if k.contentIndex >= 0 then Some(k.contentIndex)
           else Some(-2 - k.contentIndex))
  }

  /** From the start of the part that started first. */
  predicate ReportsTimes(o: Output, parts: seq<State>, e: Ending) {
    && o.end == e.at
    && (forall p :: p in parts ==> o.start <= p.start)
    && exists p :: p in parts && o.start == p.start
  }

  /** Texts are joined in order; of names and ids the last stays. */
  predicate ReportsTexts(o: Output, parts: seq<State>, e: Ending) {
    forall f :: OutputText(o, f) == if Joins(f) then Joined(parts, f, e.limit).value
                                    else LastNamed("", Sayings(parts, f, e.limit))
  }

  predicate ReportsStatus(o: Output, parts: seq<State>, e: Ending) {
    && (o.complete <==> forall p :: p in parts ==> Completes(p, e.verdict))
    && (o.failed <==> exists p :: p in parts && Fails(p, e.verdict))
    && o.errorMessage == LastNamed("", Messages(parts, e.verdict))
  }

  ghost predicate ReportsMarks(o: Output, parts: seq<State>, e: Ending) {
    && (o.truncated <==> (exists p :: p in parts && CutShort(p, e.limit))
                         || exists f :: Joins(f) && Joined(parts, f, e.limit).truncated)
    && (o.observationLimited <==> Limits(e))
    && (o.protocolIncomplete <==> exists p :: p in parts && Unended(p, e))
  }

  /** The output is what its parts, in this order, come to. */
  ghost predicate Reports(o: Output, ks: seq<Key>, parts: seq<State>, e: Ending)
    requires ks != []
  {
    && ReportsPlace(o, ks) && ReportsTimes(o, parts, e) && ReportsTexts(o, parts, e)
    && ReportsStatus(o, parts, e) && ReportsMarks(o, parts, e)
  }

  function StatesAt(a: Acc, ks: seq<Key>): seq<State>
    requires forall k :: k in ks ==> k in a.states
  {
    if ks == [] then [] else [a.states[ks[0]]] + StatesAt(a, ks[1..])
  }

  // ---------- A part alone ----------

  lemma SpeakingMeans(s: State)
    ensures HasData(s) <==> Speaking(s)
  {
    match s.kind
    case Reasoning => assert Speaks(s.kind, ReasoningText);
    case Response => assert Speaks(s.kind, ContentText) && Speaks(s.kind, RefusalText);
    case ToolCall =>
      assert Speaks(s.kind, ToolIDText) && Speaks(s.kind, ToolTypeText);
      assert Speaks(s.kind, NameText) && Speaks(s.kind, ArgumentsText);
  }

  /** A text that fits is kept as it is. */
  lemma Fits(value: Bytes, limit: nat)
    requires ValidUTF8(value) && |value| <= limit && limit > 0
    ensures SetTo(value, limit) == Text(value, false)
    ensures AppendAll(EMPTY, [value], limit) == Text(value, false)
  {
    SanitisedIdentity(value, false);
    assert "" + value == value;
    assert [value][1..] == [];
  }

  lemma SayingFits(s: State, f: Field, limit: nat)
    requires ContentOK(s, limit)
    ensures ValidUTF8(SayingOf(s, f, limit)) && |SayingOf(s, f, limit)| <= FieldLimit(f, limit)
  {
    AssembledOK(s.shell, limit);
  }

  lemma FinishedSays(s: State, f: Field, at: int, v: Verdict, limit: nat)
    ensures OutputText(FinishState(s, at, v, limit), f) == SayingOf(s, f, limit)
  {
  }

  lemma FinishedStatus(s: State, at: int, v: Verdict, limit: nat)
    requires Told(v)
    ensures var o := FinishState(s, at, v, limit);
            && (o.complete <==> Completes(s, v)) && (o.failed <==> Fails(s, v))
            && o.errorMessage == MessageOf(s, v) && o.protocolIncomplete == s.flags.incomplete
  {
  }

  lemma FinishedMarks(s: State, at: int, v: Verdict, limit: nat)
    ensures FinishState(s, at, v, limit).truncated <==> CutShort(s, limit)
  {
    assert forall f :: f in s.texts ==> TextAt(s.texts, f) == s.texts[f];
  }

  /** What the output of one part is, field by field. */
  predicate IsPart(o: Output, k: Key, s: State, e: Ending) {
    && o.kind == k.kind && o.labels == LabelsOf(k) && o.start == s.start && o.end == e.at
    && (forall f :: OutputText(o, f) == SayingOf(s, f, e.limit))
    && (o.complete <==> Completes(s, e.verdict)) && (o.failed <==> Fails(s, e.verdict))
    && o.errorMessage == MessageOf(s, e.verdict)
    && (o.observationLimited <==> Limits(e)) && (o.protocolIncomplete <==> Unended(s, e))
  }

  lemma PartIs(a: Acc, k: Key, at: int, v: Verdict)
    requires k in a.states && StateOK(k, a.states[k], a.limit) && Told(v)
    ensures var o := PartOutput(a, k, at, v);
            IsPart(o, k, a.states[k], EndingOf(a, at, v)) && (o.truncated <==> CutShort(a.states[k], a.limit))
  {
    var s := a.states[k];
    FinishedStatus(s, at, v, a.limit);
    FinishedMarks(s, at, v, a.limit);
    var o, p := PartOutput(a, k, at, v), FinishState(s, at, v, a.limit);
    forall f ensures OutputText(o, f) == SayingOf(s, f, a.limit) {
      FinishedSays(s, f, at, v, a.limit);
      assert OutputText(o, f) == OutputText(p, f);
    }
  }

  lemma OneSaying(s: State, f: Field, limit: nat)
    ensures Sayings([s], f, limit) == [SayingOf(s, f, limit)]
  {
    assert [s][1..] == [];
  }

  lemma OneName(name: Bytes)
    ensures LastNamed("", [name]) == name
  {
    assert [name][1..] == [];
  }

  lemma OneMessage(s: State, v: Verdict)
    ensures LastNamed("", Messages([s], v)) == MessageOf(s, v)
  {
    assert [s][1..] == [];
    OneName(MessageOf(s, v));
    assert Messages([s], v) == [MessageOf(s, v)];
  }

  lemma OneText(s: State, f: Field, limit: nat)
    requires ContentOK(s, limit) && limit > 0
    ensures Joins(f) ==> Joined([s], f, limit) == Text(SayingOf(s, f, limit), false)
    ensures !Joins(f) ==> LastNamed("", Sayings([s], f, limit)) == SayingOf(s, f, limit)
  {
    OneSaying(s, f, limit);
    OneName(SayingOf(s, f, limit));
    if Joins(f) {
      SayingFits(s, f, limit);
      Fits(SayingOf(s, f, limit), limit);
    }
  }

  /** A part that is an output of its own. */
  lemma PartReports(a: Acc, k: Key, at: int, v: Verdict)
    requires k in a.states && StateOK(k, a.states[k], a.limit) && Told(v) && a.limit > 0
    ensures Reports(PartOutput(a, k, at, v), [k], [a.states[k]], EndingOf(a, at, v))
  {
    var s, e, o := a.states[k], EndingOf(a, at, v), PartOutput(a, k, at, v);
    PartIs(a, k, at, v);
    OneMessage(s, v);
    forall f ensures OutputText(o, f) == if Joins(f) then Joined([s], f, e.limit).value
                                         else LastNamed("", Sayings([s], f, e.limit))
    {
      OneText(s, f, e.limit);
    }
    forall f | Joins(f) ensures !Joined([s], f, e.limit).truncated {
      OneText(s, f, e.limit);
    }
    assert s in [s];
  }

  // ---------- Parts merged ----------

  /** The edit says nothing about the text or the start. */
  predicate Elsewhere(e: Edit, f: Field) {
    (e.AppendTo? && e.field != f) || (e.Replace? && e.field != f)
  }

  lemma {:induction false} NothingHere(s: State, edits: seq<Edit>, f: Field, limit: nat)
    requires forall i :: 0 <= i < |edits| ==> Elsewhere(edits[i], f)
    ensures TextAt(ApplyEdits(s, edits, limit).texts, f) == TextAt(s.texts, f)
    decreases |edits|
  {
    if edits != [] {
      NothingHere(ApplyEdit(s, edits[0], limit), edits[1..], f, limit);
    }
  }

  lemma {:induction false} NamedOnce(s: State, edits: seq<Edit>, k: nat, f: Field, name: Bytes, limit: nat)
    requires k < |edits| && edits[k] == Replace(f, name) && IsMetadata(f)
    requires forall i :: 0 <= i < |edits| && i != k ==> Elsewhere(edits[i], f)
    ensures TextAt(ApplyEdits(s, edits, limit).texts, f)
         == if name == "" then TextAt(s.texts, f) else SetTo(name, MetadataLimit(limit))
    decreases |edits|
  {
    var t := ApplyEdit(s, edits[0], limit);
    if k == 0 {
      NothingHere(t, edits[1..], f, limit);
    } else {
      assert Elsewhere(edits[0], f);
      NamedOnce(t, edits[1..], k - 1, f, name, limit);
    }
  }

  lemma {:induction false} EditsKeepStart(s: State, edits: seq<Edit>, limit: nat)
    requires forall i :: 0 <= i < |edits| ==> !edits[i].Touch?
    ensures ApplyEdits(s, edits, limit).start == s.start
    decreases |edits|
  {
    if edits != [] {
      EditsKeepStart(ApplyEdit(s, edits[0], limit), edits[1..], limit);
    }
  }

  function PlaceOf(f: Field): nat {
    match f
    case ReasoningText => 0
    case ContentText => 1
    case RefusalText => 2
    case ArgumentsText => 3
    case NameText => 4
    case ToolTypeText => 5
    case ToolIDText => 6
    case ItemIDText => 7
    case FinishReasonText => 8
  }

  lemma MergedOnce(part: Output, f: Field)
    requires IsMetadata(f)
    ensures var e, k := MergeEdits(part), PlaceOf(f);
            && k < |e| && e[k] == Replace(f, OutputText(part, f))
            && (forall i :: 0 <= i < |e| && i != k ==> Elsewhere(e[i], f))
            && forall i :: 0 <= i < |e| ==> !e[i].Touch?
  {
  }

  predicate NameFits(name: Bytes, limit: nat) {
    ValidUTF8(name) && |name| <= MetadataLimit(limit)
  }

  lemma {:induction false} MergedName(s: State, parts: seq<Output>, f: Field, limit: nat)
    requires IsMetadata(f) && limit > 0 && !TextAt(s.texts, f).truncated
    requires forall p :: p in parts ==> NameFits(OutputText(p, f), limit)
    ensures TextAt(MergeState(s, parts, limit).texts, f)
         == Text(LastNamed(TextAt(s.texts, f).value, PartTexts(parts, f)), false)
    decreases |parts|
  {
    if parts != [] {
      var t, name := if parts[0].start < s.start then s.(start := parts[0].start) else s, OutputText(parts[0], f);
      MergedOnce(parts[0], f);
      NamedOnce(t, MergeEdits(parts[0]), PlaceOf(f), f, name, limit);
      if name != "" {
        Fits(name, MetadataLimit(limit));
      }
      MergedName(ApplyEdits(t, MergeEdits(parts[0]), limit), parts[1..], f, limit);
      assert PartTexts(parts, f)[1..] == PartTexts(parts[1..], f);
    }
  }

  lemma {:induction false} MergedStart(s: State, parts: seq<Output>, limit: nat)
    ensures var start := MergeState(s, parts, limit).start;
            && start <= s.start && (forall p :: p in parts ==> start <= p.start)
            && (start == s.start || exists p :: p in parts && start == p.start)
    decreases |parts|
  {
    if parts != [] {
      var t := if parts[0].start < s.start then s.(start := parts[0].start) else s;
      MergedOnce(parts[0], NameText);
      EditsKeepStart(t, MergeEdits(parts[0]), limit);
      MergedStart(ApplyEdits(t, MergeEdits(parts[0]), limit), parts[1..], limit);
    }
  }

  function FailureOf(o: Output): Bytes {
    if o.failed then o.errorMessage else ""
  }

  function Failures(parts: seq<Output>): seq<Bytes> {
    if parts == [] then [] else [FailureOf(parts[0])] + Failures(parts[1..])
  }

  lemma {:induction false} MergedMessage(v: Verdict, parts: seq<Output>)
    ensures MergeVerdict(v, parts).message == LastNamed(v.message, Failures(parts))
    decreases |parts|
  {
    if parts != [] {
      var p := parts[0];
      var w := if p.failed then Verdict(false, true, if p.errorMessage != "" then p.errorMessage else v.message)
               else if !p.complete then v.(complete := false)
               else v;
      MergedMessage(w, parts[1..]);
      assert Failures(parts)[1..] == Failures(parts[1..]);
    }
  }

  /** The outputs of parts, one for each. */
  predicate ArePartsOf(outputs: seq<Output>, ks: seq<Key>, parts: seq<State>, e: Ending) {
    |outputs| == |ks| == |parts| && forall i :: 0 <= i < |ks| ==> IsPart(outputs[i], ks[i], parts[i], e)
  }

  lemma {:induction false} PartsSay(outputs: seq<Output>, ks: seq<Key>, parts: seq<State>, e: Ending, f: Field)
    requires ArePartsOf(outputs, ks, parts, e)
    ensures PartTexts(outputs, f) == Sayings(parts, f, e.limit)
    ensures Failures(outputs) == Messages(parts, e.verdict)
    decreases |outputs|
  {
    if outputs != [] {
      assert IsPart(outputs[0], ks[0], parts[0], e);
      PartsSay(outputs[1..], ks[1..], parts[1..], e, f);
    }
  }

  /** What a part is told of its end leaves it either complete or failed, or neither. */
  lemma NotBoth(s: State, v: Verdict)
    requires VerdictOK(v)
    ensures !(Completes(s, v) && Fails(s, v))
  {
  }

  /** The outputs say what they lack. */
  ghost predicate AdmitCuts(outputs: seq<Output>, parts: seq<State>, limit: nat)
    requires |outputs| == |parts|
  {
    forall i :: 0 <= i < |parts| ==> (outputs[i].truncated <==> CutShort(parts[i], limit))
  }

  /** The parts of one output: those of one index and kind. */
  predicate OfOneOutput(ks: seq<Key>) {
    && ks != []
    && (forall k :: k in ks ==> KeyOK(k) && k.source == Responses)
    && forall k :: k in ks ==> k.kind == ks[0].kind && k.outputIndex == ks[0].outputIndex
  }

  predicate AllContentOK(parts: seq<State>, limit: nat) {
    forall p :: p in parts ==> ContentOK(p, limit)
  }

  function MergeStart(outputs: seq<Output>): State
    requires outputs != []
  {
    var labels := if |outputs| > 1 then outputs[0].labels.(content := None) else outputs[0].labels;
    NewState(outputs[0].kind, labels).(started := true, start := outputs[0].start)
  }

  /** What merging leaves of the state it starts from. */
  lemma MergeFrame(outputs: seq<Output>, limit: nat)
    requires outputs != []
    ensures var m := MergeState(MergeStart(outputs), outputs, limit);
            && m.kind == outputs[0].kind && m.labels == MergeStart(outputs).labels
            && m.shell == map[] && m.flags == NO_FLAGS
  {
    MergeStateOK(MergeStart(outputs), outputs, limit);
  }

  lemma MergedPlace(outputs: seq<Output>, ks: seq<Key>, parts: seq<State>, e: Ending)
    requires ArePartsOf(outputs, ks, parts, e) && OfOneOutput(ks)
    ensures ReportsPlace(MergeOutputs(outputs, e.at, e.limit, e.limited), ks)
  {
    assert IsPart(outputs[0], ks[0], parts[0], e) && ks[0] in ks;
    MergedLabels(outputs, e);
    PlaceOfLabels(MergeOutputs(outputs, e.at, e.limit, e.limited), ks);
  }

  lemma MergedLabels(outputs: seq<Output>, e: Ending)
    requires outputs != []
    ensures var o := MergeOutputs(outputs, e.at, e.limit, e.limited);
            o.kind == outputs[0].kind && o.labels == MergeStart(outputs).labels
  {
    MergeFrame(outputs, e.limit);
  }

  lemma PlaceOfLabels(o: Output, ks: seq<Key>)
    requires ks != [] && KeyOK(ks[0]) && ks[0].source == Responses && o.kind == ks[0].kind
    requires o.labels == if |ks| > 1 then LabelsOf(ks[0]).(content := None) else LabelsOf(ks[0])
    ensures ReportsPlace(o, ks)
  {
  }

  lemma MergedTimes(outputs: seq<Output>, ks: seq<Key>, parts: seq<State>, e: Ending)
    requires ArePartsOf(outputs, ks, parts, e) && outputs != []
    ensures ReportsTimes(MergeOutputs(outputs, e.at, e.limit, e.limited), parts, e)
  {
    var o := MergeOutputs(outputs, e.at, e.limit, e.limited);
    MergedStart(MergeStart(outputs), outputs, e.limit);
    forall p | p in parts ensures o.start <= p.start {
      var i :| 0 <= i < |parts| && parts[i] == p;
      assert IsPart(outputs[i], ks[i], parts[i], e);
      assert outputs[i] in outputs;
    }
    var q :| q in outputs && o.start == q.start;
    var i :| 0 <= i < |outputs| && outputs[i] == q;
    assert IsPart(outputs[i], ks[i], parts[i], e) && parts[i] in parts;
  }

  lemma PartsFit(outputs: seq<Output>, ks: seq<Key>, parts: seq<State>, e: Ending, f: Field)
    requires ArePartsOf(outputs, ks, parts, e) && AllContentOK(parts, e.limit) && IsMetadata(f)
    ensures forall p :: p in outputs ==> NameFits(OutputText(p, f), e.limit)
  {
    forall p | p in outputs ensures NameFits(OutputText(p, f), e.limit) {
      var i :| 0 <= i < |outputs| && outputs[i] == p;
      assert IsPart(outputs[i], ks[i], parts[i], e) && parts[i] in parts;
      SayingFits(parts[i], f, e.limit);
    }
  }

  /** What the merged state holds of each text. */
  lemma MergedTextAt(outputs: seq<Output>, ks: seq<Key>, parts: seq<State>, e: Ending, f: Field)
    requires ArePartsOf(outputs, ks, parts, e) && outputs != [] && AllContentOK(parts, e.limit) && e.limit > 0
    ensures TextAt(MergeState(MergeStart(outputs), outputs, e.limit).texts, f)
         == if Joins(f) then Joined(parts, f, e.limit)
            else Text(LastNamed("", Sayings(parts, f, e.limit)), false)
  {
    PartsSay(outputs, ks, parts, e, f);
    if Joins(f) {
      MergedText(MergeStart(outputs), outputs, f, e.limit);
    } else {
      PartsFit(outputs, ks, parts, e, f);
      MergedName(MergeStart(outputs), outputs, f, e.limit);
    }
  }

  lemma MergedTexts(outputs: seq<Output>, ks: seq<Key>, parts: seq<State>, e: Ending)
    requires ArePartsOf(outputs, ks, parts, e) && outputs != [] && AllContentOK(parts, e.limit) && e.limit > 0
    ensures ReportsTexts(MergeOutputs(outputs, e.at, e.limit, e.limited), parts, e)
  {
    MergeFrame(outputs, e.limit);
    var o := MergeOutputs(outputs, e.at, e.limit, e.limited);
    var m := MergeState(MergeStart(outputs), outputs, e.limit);
    forall f ensures OutputText(o, f) == if Joins(f) then Joined(parts, f, e.limit).value
                                         else LastNamed("", Sayings(parts, f, e.limit))
    {
      MergedTextAt(outputs, ks, parts, e, f);
      assert OutputText(o, f) == TextAt(m.texts, f).value;
    }
  }

  /** The outputs end as their parts do. */
  predicate EndAlike(outputs: seq<Output>, parts: seq<State>, v: Verdict) {
    && |outputs| == |parts|
    && forall i :: 0 <= i < |parts| ==>
         (outputs[i].complete <==> Completes(parts[i], v)) && (outputs[i].failed <==> Fails(parts[i], v))
  }

  lemma AllOf(outputs: seq<Output>, parts: seq<State>, v: Verdict)
    requires EndAlike(outputs, parts, v)
    ensures (forall p :: p in outputs ==> p.complete) <==> (forall p :: p in parts ==> Completes(p, v))
    ensures (exists p :: p in outputs && p.failed) <==> exists p :: p in parts && Fails(p, v)
  {
    assert forall i :: 0 <= i < |parts| ==> outputs[i] in outputs && parts[i] in parts;
  }

  lemma NoneBoth(outputs: seq<Output>, parts: seq<State>, v: Verdict)
    requires EndAlike(outputs, parts, v) && VerdictOK(v)
    ensures forall p :: p in outputs ==> !(p.complete && p.failed)
  {
    forall p | p in outputs ensures !(p.complete && p.failed) {
      var i :| 0 <= i < |outputs| && outputs[i] == p;
      NotBoth(parts[i], v);
    }
  }

  /** A merged output ends as the merged verdict says. */
  lemma MergedEnds(outputs: seq<Output>, e: Ending)
    requires outputs != []
    ensures var o := MergeOutputs(outputs, e.at, e.limit, e.limited);
            var v := MergeVerdict(Verdict(true, false, ""), outputs);
            o.complete == v.complete && o.failed == v.failed && o.errorMessage == v.message
  {
    MergeFrame(outputs, e.limit);
  }

  lemma MergedStatus(outputs: seq<Output>, ks: seq<Key>, parts: seq<State>, e: Ending)
    requires ArePartsOf(outputs, ks, parts, e) && outputs != [] && Told(e.verdict)
    ensures ReportsStatus(MergeOutputs(outputs, e.at, e.limit, e.limited), parts, e)
  {
    PartsEndAlike(outputs, ks, parts, e);
    NoneBoth(outputs, parts, e.verdict);
    AllOf(outputs, parts, e.verdict);
    MergedEnds(outputs, e);
    MergeVerdictMeaning(Verdict(true, false, ""), outputs);
    MergedMessage(Verdict(true, false, ""), outputs);
    PartsSay(outputs, ks, parts, e, NameText);
  }

  lemma PartsEndAlike(outputs: seq<Output>, ks: seq<Key>, parts: seq<State>, e: Ending)
    requires ArePartsOf(outputs, ks, parts, e)
    ensures EndAlike(outputs, parts, e.verdict)
  {
    forall i | 0 <= i < |parts|
      ensures (outputs[i].complete <==> Completes(parts[i], e.verdict))
              && (outputs[i].failed <==> Fails(parts[i], e.verdict))
    {
      assert IsPart(outputs[i], ks[i], parts[i], e);
    }
  }

  lemma MergedMarks(outputs: seq<Output>, ks: seq<Key>, parts: seq<State>, e: Ending)
    requires ArePartsOf(outputs, ks, parts, e) && outputs != [] && AllContentOK(parts, e.limit) && e.limit > 0
    requires AdmitCuts(outputs, parts, e.limit)
    ensures ReportsMarks(MergeOutputs(outputs, e.at, e.limit, e.limited), parts, e)
  {
    MergeFrame(outputs, e.limit);
    MergedCut(outputs, ks, parts, e);
    PartsMarked(outputs, ks, parts, e);
    SomeCut(outputs, parts, e.limit);
    SomeLimited(outputs, e);
    SomeUnended(outputs, parts, e);
  }

  predicate MarkAlike(outputs: seq<Output>, parts: seq<State>, e: Ending) {
    && |outputs| == |parts|
    && forall i :: 0 <= i < |parts| ==>
         (outputs[i].observationLimited <==> Limits(e)) && (outputs[i].protocolIncomplete <==> Unended(parts[i], e))
  }

  lemma PartsMarked(outputs: seq<Output>, ks: seq<Key>, parts: seq<State>, e: Ending)
    requires ArePartsOf(outputs, ks, parts, e)
    ensures MarkAlike(outputs, parts, e)
  {
    forall i | 0 <= i < |parts|
      ensures (outputs[i].observationLimited <==> Limits(e))
              && (outputs[i].protocolIncomplete <==> Unended(parts[i], e))
    {
      assert IsPart(outputs[i], ks[i], parts[i], e);
    }
  }

  /** Some output is marked exactly when some part is. */
  lemma SomeCut(outputs: seq<Output>, parts: seq<State>, limit: nat)
    requires |outputs| == |parts| && AdmitCuts(outputs, parts, limit)
    ensures (exists p :: p in outputs && p.truncated) <==> exists p :: p in parts && CutShort(p, limit)
  {
    if p :| p in outputs && p.truncated {
      var i :| 0 <= i < |outputs| && outputs[i] == p;
      assert parts[i] in parts;
    }
    if p :| p in parts && CutShort(p, limit) {
      var i :| 0 <= i < |parts| && parts[i] == p;
      assert outputs[i] in outputs;
    }
  }

  lemma SomeLimited(outputs: seq<Output>, e: Ending)
    requires outputs != [] && forall i :: 0 <= i < |outputs| ==> (outputs[i].observationLimited <==> Limits(e))
    ensures (exists p :: p in outputs && p.observationLimited) <==> Limits(e)
  {
    assert outputs[0] in outputs;
  }

  lemma SomeUnended(outputs: seq<Output>, parts: seq<State>, e: Ending)
    requires MarkAlike(outputs, parts, e)
    ensures (exists p :: p in outputs && p.protocolIncomplete) <==> exists p :: p in parts && Unended(p, e)
  {
    if p :| p in outputs && p.protocolIncomplete {
      var i :| 0 <= i < |outputs| && outputs[i] == p;
      assert parts[i] in parts;
    }
    if p :| p in parts && Unended(p, e) {
      var i :| 0 <= i < |parts| && parts[i] == p;
      assert outputs[i] in outputs;
    }
  }

  lemma MergedCut(outputs: seq<Output>, ks: seq<Key>, parts: seq<State>, e: Ending)
    requires ArePartsOf(outputs, ks, parts, e) && outputs != [] && AllContentOK(parts, e.limit) && e.limit > 0
    ensures AnyTruncated(MergeState(MergeStart(outputs), outputs, e.limit).texts)
       <==> exists f :: Joins(f) && Joined(parts, f, e.limit).truncated
  {
    var m := MergeState(MergeStart(outputs), outputs, e.limit);
    forall f ensures TextAt(m.texts, f).truncated <==> Joins(f) && Joined(parts, f, e.limit).truncated {
      MergedTextAt(outputs, ks, parts, e, f);
    }
    assert AnyTruncated(m.texts) <==> exists f :: TextAt(m.texts, f).truncated by {
      assert forall f :: f in m.texts ==> TextAt(m.texts, f) == m.texts[f];
    }
  }

  /** Several parts of one output. */
  lemma MergedReports(outputs: seq<Output>, ks: seq<Key>, parts: seq<State>, e: Ending)
    requires ArePartsOf(outputs, ks, parts, e) && AdmitCuts(outputs, parts, e.limit) && OfOneOutput(ks)
    requires AllContentOK(parts, e.limit) && e.limit > 0 && Told(e.verdict)
    ensures Reports(MergeOutputs(outputs, e.at, e.limit, e.limited), ks, parts, e)
  {
    MergedPlace(outputs, ks, parts, e);
    MergedTimes(outputs, ks, parts, e);
    MergedTexts(outputs, ks, parts, e);
    MergedStatus(outputs, ks, parts, e);
    MergedMarks(outputs, ks, parts, e);
  }

  // ---------- The parts of a group ----------

  /** The order in which parts are joined: contents by index, then summaries by theirs. */
  predicate Precedes(k: Key, m: Key) {
    if k.contentIndex >= 0 then m.contentIndex < 0 || k.contentIndex < m.contentIndex
    else m.contentIndex < k.contentIndex
  }

  predicate InJoinOrder(ks: seq<Key>) {
    forall i, j :: 0 <= i < j < |ks| ==> Precedes(ks[i], ks[j])
  }

  /** All the parts of a group that have something to report, in their order. */
  ghost predicate Lists(ks: seq<Key>, states: map<Key, State>, g: Group) {
    InJoinOrder(ks) && forall k :: k in ks <==> k in states && GroupOf(k) == g && Speaking(states[k])
  }

  lemma ListedSpeak(ks: seq<Key>, a: Acc, g: Group)
    requires Lists(ks, a.states, g)
    ensures forall k :: k in ks <==> Bears(a, k) && GroupOf(k) == g
  {
    forall k | k in a.states ensures HasData(a.states[k]) <==> Speaking(a.states[k]) {
      SpeakingMeans(a.states[k]);
    }
  }

  lemma {:induction false} StateAtIndex(a: Acc, ks: seq<Key>, i: nat)
    requires (forall k :: k in ks ==> k in a.states) && i < |ks|
    ensures |StatesAt(a, ks)| == |ks| && StatesAt(a, ks)[i] == a.states[ks[i]]
  {
    if i > 0 {
      StateAtIndex(a, ks[1..], i - 1);
    } else if |ks| > 1 {
      StateAtIndex(a, ks[1..], 0);
    }
  }

  lemma {:induction false} OutputsOfAll(a: Acc, ks: seq<Key>, at: int, v: Verdict)
    requires StatesOK(a) && Told(v) && (forall k :: k in ks ==> k in a.states) && forall k :: k in ks ==> Bears(a, k)
    ensures var outputs, parts := PartOutputs(a, ks, at, v), StatesAt(a, ks);
            ArePartsOf(outputs, ks, parts, EndingOf(a, at, v)) && AdmitCuts(outputs, parts, a.limit)
    decreases |ks|
  {
    if ks != [] {
      assert Bears(a, ks[0]);
      OutputsOfAll(a, ks[1..], at, v);
      PartIs(a, ks[0], at, v);
      OutputsStep(PartOutput(a, ks[0], at, v), PartOutputs(a, ks[1..], at, v), ks, a.states[ks[0]],
        StatesAt(a, ks[1..]), EndingOf(a, at, v));
      assert PartOutputs(a, ks, at, v) == [PartOutput(a, ks[0], at, v)] + PartOutputs(a, ks[1..], at, v);
    }
  }

  lemma OutputsStep(o: Output, outputs: seq<Output>, ks: seq<Key>, p: State, parts: seq<State>, e: Ending)
    requires ks != [] && IsPart(o, ks[0], p, e) && (o.truncated <==> CutShort(p, e.limit))
    requires ArePartsOf(outputs, ks[1..], parts, e) && AdmitCuts(outputs, parts, e.limit)
    ensures ArePartsOf([o] + outputs, ks, [p] + parts, e) && AdmitCuts([o] + outputs, [p] + parts, e.limit)
  {
    var all, those := [o] + outputs, [p] + parts;
    forall i | 0 <= i < |ks| ensures IsPart(all[i], ks[i], those[i], e) {
      if i > 0 {
        LaterPart(outputs, ks, parts, e, i - 1);
      }
    }
  }

  lemma LaterPart(outputs: seq<Output>, ks: seq<Key>, parts: seq<State>, e: Ending, i: nat)
    requires ks != [] && ArePartsOf(outputs, ks[1..], parts, e) && i < |parts|
    ensures IsPart(outputs[i], ks[i + 1], parts[i], e)
  {
    assert ks[1..][i] == ks[i + 1];
  }

  function Bearing(a: Acc, keys: seq<Key>): seq<Key>
    requires forall k :: k in keys ==> k in a.states
  {
    if keys == [] then [] else (if HasData(a.states[keys[0]]) then [keys[0]] else []) + Bearing(a, keys[1..])
  }

  lemma {:induction false} BearingOutputs(a: Acc, keys: seq<Key>, at: int, v: Verdict)
    requires forall k :: k in keys ==> k in a.states
    ensures forall k :: k in Bearing(a, keys) <==> k in keys && Bears(a, k)
    ensures PartOutputs(a, keys, at, v) == PartOutputs(a, Bearing(a, keys), at, v)
    decreases |keys|
  {
    if keys != [] {
      BearingOutputs(a, keys[1..], at, v);
      var rest := Bearing(a, keys[1..]);
      if HasData(a.states[keys[0]]) {
        assert ([keys[0]] + rest)[1..] == rest;
      } else {
        assert [] + rest == rest;
        assert [] + PartOutputs(a, keys[1..], at, v) == PartOutputs(a, keys[1..], at, v);
      }
    }
  }

  lemma {:induction false} BearingSorted(a: Acc, keys: seq<Key>)
    requires (forall k :: k in keys ==> k in a.states) && Sorted(keys, PartRank)
    ensures Sorted(Bearing(a, keys), PartRank)
    decreases |keys|
  {
    if keys != [] {
      var rest := keys[1..];
      assert Sorted(rest, PartRank);
      BearingSorted(a, rest);
      if HasData(a.states[keys[0]]) {
        BearingOutputs(a, rest, 0, Verdict(true, false, ""));
        SortedFirst(keys, Bearing(a, rest));
      } else {
        assert [] + Bearing(a, rest) == Bearing(a, rest);
      }
    }
  }

  lemma SortedFirst(keys: seq<Key>, some: seq<Key>)
    requires keys != [] && Sorted(keys, PartRank) && Sorted(some, PartRank) && forall k :: k in some ==> k in keys[1..]
    ensures Sorted([keys[0]] + some, PartRank)
  {
    forall j | 0 <= j < |some| ensures Less(PartRank(keys[0]), PartRank(some[j])) {
      assert some[j] in some;
      var i :| 0 <= i < |keys[1..]| && keys[1..][i] == some[j];
      assert keys[i + 1] == some[j];
    }
  }

  lemma PrecedesIsLess(k: Key, m: Key)
    requires Precedes(k, m)
    ensures Less(PartRank(k), PartRank(m))
  {
    var x, y := PartRank(k), PartRank(m);
    assert x[1..] == [x[1]] && y[1..] == [y[1]];
  }

  /** There is one way to list the parts of an output: the way in which they are joined. */
  lemma ListedAsSorted(a: Acc, outputIndex: int, kind: Kind, ks: seq<Key>)
    requires Core(a) && Lists(ks, a.states, Group(Responses, kind, -1, outputIndex, -1))
    ensures Bearing(a, SortedParts(a, outputIndex, kind)) == ks
  {
    var keys, sorted := PartKeys(a, outputIndex, kind), SortedParts(a, outputIndex, kind);
    var data := DataKeys(a, keys);
    PartRankTotal(a, outputIndex, kind);
    BearingSorted(a, sorted);
    BearingOutputs(a, sorted, 0, Verdict(true, false, ""));
    ListedSpeak(ks, a, Group(Responses, kind, -1, outputIndex, -1));
    PartKeysGroup(a, outputIndex, kind);
    forall i, j | 0 <= i < j < |ks| ensures Less(PartRank(ks[i]), PartRank(ks[j])) {
      PrecedesIsLess(ks[i], ks[j]);
    }
    assert IsSortOf(ks, data, PartRank);
    SortUnique(ks, Bearing(a, sorted), data, PartRank);
  }

  lemma ListedOne(a: Acc, outputIndex: int, kind: Kind, ks: seq<Key>)
    requires Core(a) && ks != [] && Lists(ks, a.states, Group(Responses, kind, -1, outputIndex, -1))
    ensures OfOneOutput(ks) && AllContentOK(StatesAt(a, ks), a.limit)
  {
    assert forall k :: k in ks ==> StateOK(k, a.states[k], a.limit);
    forall p | p in StatesAt(a, ks) ensures ContentOK(p, a.limit) {
      var i :| 0 <= i < |StatesAt(a, ks)| && StatesAt(a, ks)[i] == p;
      StatesAtLength(a, ks);
      StateAtIndex(a, ks, i);
      assert ks[i] in ks;
    }
    assert ks[0] in ks;
  }

  lemma {:induction false} StatesAtLength(a: Acc, ks: seq<Key>)
    requires forall k :: k in ks ==> k in a.states
    ensures |StatesAt(a, ks)| == |ks|
  {
    if ks != [] {
      StatesAtLength(a, ks[1..]);
    }
  }

  /** The place that an output reports is its group. */
  lemma PlaceIsGroup(o: Output, ks: seq<Key>)
    requires ks != [] && ReportsPlace(o, ks) && KeyOK(ks[0])
    ensures OutputGroup(o) == GroupOf(ks[0])
  {
  }

  // ---------- Finishing ----------

  /** Some output, and by its group only one, is what the listed parts come to. */
  ghost predicate Reported(outputs: seq<Output>, g: Group, ks: seq<Key>, parts: seq<State>, e: Ending)
    requires ks != []
  {
    exists o :: o in outputs && OutputGroup(o) == g && Reports(o, ks, parts, e)
  }

  lemma OutputKindReports(a: Acc, outputIndex: int, kind: Kind, ks: seq<Key>, at: int, v: Verdict)
    requires Core(a) && Told(v) && ks != [] && Lists(ks, a.states, Group(Responses, kind, -1, outputIndex, -1))
    ensures Reported(FinishOutputKind(a, outputIndex, kind, at, v).1, Group(Responses, kind, -1, outputIndex, -1), ks,
              StatesAt(a, ks), EndingOf(a, at, v))
  {
    var sorted, e := SortedParts(a, outputIndex, kind), EndingOf(a, at, v);
    FinishOutputKindClosed(a, outputIndex, kind, at, v);
    ListedAsSorted(a, outputIndex, kind, ks);
    BearingOutputs(a, sorted, at, v);
    ListedSpeak(ks, a, Group(Responses, kind, -1, outputIndex, -1));
    OutputsOfAll(a, ks, at, v);
    ListedOne(a, outputIndex, kind, ks);
    var outputs := PartOutputs(a, ks, at, v);
    MergedReports(outputs, ks, StatesAt(a, ks), e);
    var o := MergeOutputs(outputs, at, a.limit, a.limited);
    assert ks[0] in ks;
    PlaceIsGroup(o, ks);
    assert Merged(a, sorted, at, v) == [o] && o in [o];
  }

  lemma {:induction false} PartIsGiven(a: Acc, keys: seq<Key>, k: Key, at: int, v: Verdict)
    requires (forall m :: m in keys ==> m in a.states) && k in keys && HasData(a.states[k])
    ensures PartOutput(a, k, at, v) in PartOutputs(a, keys, at, v)
    decreases |keys|
  {
    if keys[0] != k {
      PartIsGiven(a, keys[1..], k, at, v);
    }
  }

  lemma NoneTwice(ks: seq<Key>)
    requires ks != [] && InJoinOrder(ks) && forall k :: k in ks ==> k == ks[0]
    ensures |ks| == 1
  {
    assert |ks| > 1 ==> ks[1] in ks && Precedes(ks[0], ks[1]);
  }

  /** A group of a choice is one part. */
  lemma OtherGroupIsOne(a: Acc, g: Group, ks: seq<Key>)
    requires Core(a) && g.source != Responses && ks != [] && Lists(ks, a.states, g)
    ensures ks == [ks[0]] && StatesAt(a, ks) == [a.states[ks[0]]]
  {
    assert ks[0] in ks && KeyOK(ks[0]);
    forall k | k in ks ensures k == ks[0] {
      assert KeyOK(k);
    }
    NoneTwice(ks);
    assert ks[1..] == [];
  }

  lemma MatchingReports(a: Acc, keys: set<Key>, g: Group, ks: seq<Key>, at: int, v: Verdict)
    requires Core(a) && Told(v) && keys <= a.states.Keys && g.source != Responses
    requires ks != [] && Lists(ks, a.states, g) && ks[0] in keys
    ensures Reported(FinishMatching(a, keys, at, v).1, g, ks, StatesAt(a, ks), EndingOf(a, at, v))
  {
    var sorted, k := SortOf(keys, KeyRank), ks[0];
    OtherGroupIsOne(a, g, ks);
    FinishMatchingClosed(a, keys, at, v);
    ListedSpeak(ks, a, g);
    assert k in ks && k in Elements(sorted);
    PartReports(a, k, at, v);
    assert forall m :: m in sorted ==> m in Elements(sorted);
    PartIsGiven(a, sorted, k, at, v);
    PlaceIsGroup(PartOutput(a, k, at, v), ks);
  }

  /** Another group's parts are as they were, and so is what marks outputs. */
  ghost predicate StillThere(a: Acc, b: Acc, ks: seq<Key>, g: Group) {
    && (forall k :: k in ks ==> k in a.states && k in b.states && b.states[k] == a.states[k])
    && (forall k :: k in b.states && GroupOf(k) == g ==> k in a.states && b.states[k] == a.states[k])
    && b.limit == a.limit && b.limited == a.limited && b.decodeFailed == a.decodeFailed
    && b.terminalIncomplete == a.terminalIncomplete
  }

  lemma StillListed(a: Acc, b: Acc, ks: seq<Key>, g: Group, at: int, v: Verdict)
    requires StillThere(a, b, ks, g) && Lists(ks, a.states, g)
    ensures Lists(ks, b.states, g) && StatesAt(b, ks) == StatesAt(a, ks) && EndingOf(b, at, v) == EndingOf(a, at, v)
  {
    SameStatesAt(a, b, ks);
  }

  lemma {:induction false} SameStatesAt(a: Acc, b: Acc, ks: seq<Key>)
    requires forall k :: k in ks ==> k in a.states && k in b.states && b.states[k] == a.states[k]
    ensures StatesAt(b, ks) == StatesAt(a, ks)
  {
    if ks != [] {
      SameStatesAt(a, b, ks[1..]);
    }
  }

  /** Finishing other parts leaves these. */
  lemma OthersLeave(a: Acc, keys: set<Key>, ks: seq<Key>, g: Group)
    requires Lists(ks, a.states, g) && forall k :: k in keys ==> GroupOf(k) != g
    ensures StillThere(a, AllFinished(a, keys), ks, g)
  {
  }

  lemma ReportedLater(o: seq<Output>, p: seq<Output>, g: Group, ks: seq<Key>, parts: seq<State>, e: Ending)
    requires ks != [] && (Reported(o, g, ks, parts, e) || Reported(p, g, ks, parts, e))
    ensures Reported(o + p, g, ks, parts, e)
  {
    var q :| (q in o || q in p) && OutputGroup(q) == g && Reports(q, ks, parts, e);
    assert q in o + p;
  }

  lemma {:induction false} KindsReport(a: Acc, outputs: seq<(int, Kind)>, outputIndex: int, kind: Kind, ks: seq<Key>,
          at: int, v: Verdict)
    requires Core(a) && Told(v) && ks != [] && Lists(ks, a.states, Group(Responses, kind, -1, outputIndex, -1))
    requires (outputIndex, kind) in outputs
    ensures Reported(FinishOutputKinds(a, outputs, at, v).1, Group(Responses, kind, -1, outputIndex, -1), ks,
              StatesAt(a, ks), EndingOf(a, at, v))
    decreases |outputs|
  {
    var g, first := Group(Responses, kind, -1, outputIndex, -1), outputs[0];
    var (b, o) := FinishOutputKind(a, first.0, first.1, at, v);
    FinishOutputKindSafe(a, first.0, first.1, at, v);
    if first == (outputIndex, kind) {
      OutputKindReports(a, outputIndex, kind, ks, at, v);
    } else {
      PartKeysGroup(a, first.0, first.1);
      OthersLeave(a, PartKeys(a, first.0, first.1), ks, g);
      StillListed(a, b, ks, g, at, v);
      KindsReport(b, outputs[1..], outputIndex, kind, ks, at, v);
    }
    ReportedLater(o, FinishOutputKinds(b, outputs[1..], at, v).1, g, ks, StatesAt(a, ks), EndingOf(a, at, v));
  }

  lemma {:induction false} KindsLeave(a: Acc, outputs: seq<(int, Kind)>, ks: seq<Key>, g: Group, at: int, v: Verdict)
    requires Core(a) && Told(v) && Lists(ks, a.states, g)
    requires forall x :: x in outputs ==> Group(Responses, x.1, -1, x.0, -1) != g
    ensures StillThere(a, FinishOutputKinds(a, outputs, at, v).0, ks, g)
    decreases |outputs|
  {
    if outputs != [] {
      var first := outputs[0];
      assert first in outputs;
      var b := FinishOutputKind(a, first.0, first.1, at, v).0;
      FinishOutputKindSafe(a, first.0, first.1, at, v);
      PartKeysGroup(a, first.0, first.1);
      OthersLeave(a, PartKeys(a, first.0, first.1), ks, g);
      StillListed(a, b, ks, g, at, v);
      KindsLeave(b, outputs[1..], ks, g, at, v);
    }
  }

  /** At the end of a stream every group that has something to report is reported. */
  lemma AllReport(a: Acc, g: Group, ks: seq<Key>, at: int, v: Verdict)
    requires Core(a) && Told(v) && ks != [] && Lists(ks, a.states, g)
    ensures Reported(FinishAll(a, at, v).1, g, ks, StatesAt(a, ks), EndingOf(a, at, v))
  {
    var outputs, k := SortOf(LiveOutputs(a), OutputRank), ks[0];
    assert k in ks && KeyOK(k);
    OutputRankTotal(LiveOutputs(a));
    FinishOutputKindsSafe(a, outputs, at, v);
    var (b, os) := FinishOutputKinds(a, outputs, at, v);
    var ps := FinishMatching(b, OtherKeys(b), at, v).1;
    if g.source == Responses {
      assert (k.outputIndex, k.kind) in LiveOutputs(a);
      KindsReport(a, outputs, k.outputIndex, k.kind, ks, at, v);
    } else {
      KindsLeave(a, outputs, ks, g, at, v);
      StillListed(a, b, ks, g, at, v);
      MatchingReports(b, OtherKeys(b), g, ks, at, v);
    }
    ReportedLater(os, ps, g, ks, StatesAt(a, ks), EndingOf(a, at, v));
  }

  /** Some of these parts belongs to the group and has something to report. */
  ghost predicate GroupSpeaks(states: map<Key, State>, among: set<Key>, g: Group) {
    exists k :: k in among && k in states && GroupOf(k) == g && Speaking(states[k])
  }

  ghost predicate AllSpeak(states: map<Key, State>, among: set<Key>, outputs: seq<Output>) {
    forall o :: o in outputs ==> GroupSpeaks(states, among, OutputGroup(o))
  }

  lemma PartsSpeak(a: Acc, keys: seq<Key>, at: int, v: Verdict)
    requires StatesOK(a) && VerdictOK(v) && forall k :: k in keys ==> k in a.states
    ensures AllSpeak(a.states, Elements(keys), PartOutputs(a, keys, at, v))
  {
    var bearing, outputs := Bearing(a, keys), PartOutputs(a, keys, at, v);
    BearingOutputs(a, keys, at, v);
    PartOutputsOK(a, bearing, at, v);
    forall o | o in outputs ensures GroupSpeaks(a.states, Elements(keys), OutputGroup(o)) {
      var i :| 0 <= i < |outputs| && outputs[i] == o;
      var k :| k in bearing && OutputGroup(outputs[i]) == GroupOf(k);
      SpeakingMeans(a.states[k]);
    }
  }

  lemma KindSpeaks(a: Acc, outputIndex: int, kind: Kind, at: int, v: Verdict)
    requires Core(a) && VerdictOK(v)
    ensures AllSpeak(a.states, PartKeys(a, outputIndex, kind), FinishOutputKind(a, outputIndex, kind, at, v).1)
  {
    FinishOutputKindClosed(a, outputIndex, kind, at, v);
    MergedSpeaks(a, SortedParts(a, outputIndex, kind), outputIndex, kind, at, v);
  }

  lemma MergedSpeaks(a: Acc, keys: seq<Key>, outputIndex: int, kind: Kind, at: int, v: Verdict)
    requires Core(a) && VerdictOK(v) && forall k :: k in keys ==> k in a.states
    requires forall k :: k in keys ==> k in PartKeys(a, outputIndex, kind)
    ensures AllSpeak(a.states, PartKeys(a, outputIndex, kind), Merged(a, keys, at, v))
  {
    var parts, g := PartOutputs(a, keys, at, v), Group(Responses, kind, -1, outputIndex, -1);
    if parts != [] {
      PartsSpeak(a, keys, at, v);
      assert parts[0] in parts;
      assert GroupSpeaks(a.states, Elements(keys), OutputGroup(parts[0]));
      PartKeysGroup(a, outputIndex, kind);
      PartOutputsOK(a, keys, at, v);
      assert forall i :: 0 <= i < |parts| ==> OutputGroup(parts[i]) == g;
      MergeOutputsOK(parts, g, at, a.limit, a.limited);
    }
  }

  ghost predicate Shrinks(a: Acc, b: Acc) {
    forall k :: k in b.states ==> k in a.states && b.states[k] == a.states[k]
  }

  lemma SpokeBefore(a: Acc, b: Acc, some: set<Key>, more: set<Key>, outputs: seq<Output>)
    requires Shrinks(a, b) && some <= more && AllSpeak(b.states, some, outputs)
    ensures AllSpeak(a.states, more, outputs)
  {
    forall o | o in outputs ensures GroupSpeaks(a.states, more, OutputGroup(o)) {
      var k :| k in some && k in b.states && GroupOf(k) == OutputGroup(o) && Speaking(b.states[k]);
      assert k in a.states;
    }
  }

  ghost function KeysOf(a: Acc, outputs: seq<(int, Kind)>): set<Key> {
    set k | k in a.states && k.source == Responses && (k.outputIndex, k.kind) in outputs
  }

  lemma {:induction false} KindsSpeak(a: Acc, outputs: seq<(int, Kind)>, at: int, v: Verdict)
    requires Core(a) && VerdictOK(v)
    ensures var (b, o) := FinishOutputKinds(a, outputs, at, v);
            Shrinks(a, b) && AllSpeak(a.states, KeysOf(a, outputs), o)
    decreases |outputs|
  {
    if outputs != [] {
      var (b, o) := FinishOutputKind(a, outputs[0].0, outputs[0].1, at, v);
      FinishOutputKindSafe(a, outputs[0].0, outputs[0].1, at, v);
      KindSpeaks(a, outputs[0].0, outputs[0].1, at, v);
      KindsSpeak(b, outputs[1..], at, v);
      SpokeBefore(a, a, PartKeys(a, outputs[0].0, outputs[0].1), KeysOf(a, outputs), o);
      SpokeBefore(a, b, KeysOf(b, outputs[1..]), KeysOf(a, outputs), FinishOutputKinds(b, outputs[1..], at, v).1);
    }
  }

  lemma MatchingSpeaks(a: Acc, keys: set<Key>, at: int, v: Verdict)
    requires Core(a) && VerdictOK(v) && keys <= a.states.Keys
    ensures AllSpeak(a.states, keys, FinishMatching(a, keys, at, v).1)
  {
    var sorted := SortOf(keys, KeyRank);
    FinishMatchingClosed(a, keys, at, v);
    assert forall m :: m in sorted ==> m in Elements(sorted);
    PartsSpeak(a, sorted, at, v);
  }

  /** And nothing else is given out. */
  lemma OnlySpeakers(a: Acc, at: int, v: Verdict)
    requires Core(a) && VerdictOK(v)
    ensures AllSpeak(a.states, a.states.Keys, FinishAll(a, at, v).1)
  {
    var outputs := SortOf(LiveOutputs(a), OutputRank);
    FinishOutputKindsSafe(a, outputs, at, v);
    KindsSpeak(a, outputs, at, v);
    var (b, o) := FinishOutputKinds(a, outputs, at, v);
    SpokeBefore(a, a, KeysOf(a, outputs), a.states.Keys, o);
    MatchingSpeaks(b, OtherKeys(b), at, v);
    SpokeBefore(a, b, OtherKeys(b), a.states.Keys, FinishMatching(b, OtherKeys(b), at, v).1);
  }
}

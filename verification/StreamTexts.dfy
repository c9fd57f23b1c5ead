/**
 * The texts of a part: what edits append to them, and how the texts of the parts of one output
 * are joined.
 */
module StreamTexts {
  import opened Bytes
  import opened LimitedText
  import opened Ordering
  import opened StreamParts
  import opened StreamAssembly
  import opened StreamFinishing

  // ---------- Appending ----------

  /** The texts that parts are joined by. */
  predicate Joins(f: Field) {
    f.ReasoningText? || f.ContentText? || f.RefusalText? || f.ArgumentsText?
  }

  predicate AppendsField(e: Edit, f: Field) {
    e.AppendTo? && e.field == f
  }

  /** No edit sets the text: it is only added to. */
  predicate AppendsTo(edits: seq<Edit>, f: Field) {
    forall i :: 0 <= i < |edits| ==> !(edits[i].Replace? && edits[i].field == f)
  }

  /** The fragments that edits append to one text. */
  function Appends(edits: seq<Edit>, f: Field): seq<Bytes> {
    if edits == [] then []
    else (if AppendsField(edits[0], f) then [edits[0].value] else []) + Appends(edits[1..], f)
  }

  lemma {:induction false} AppendsAppend(x: seq<Edit>, y: seq<Edit>, f: Field)
    ensures Appends(x + y, f) == Appends(x, f) + Appends(y, f)
    decreases |x|
  {
    if x == [] {
      assert x + y == y;
    } else {
      assert (x + y)[0] == x[0] && (x + y)[1..] == x[1..] + y;
      AppendsAppend(x[1..], y, f);
      Associative(if AppendsField(x[0], f) then [x[0].value] else [], Appends(x[1..], f), Appends(y, f));
    }
  }

  lemma {:induction false} NoneAppends(edits: seq<Edit>, f: Field)
    requires forall i :: 0 <= i < |edits| ==> !AppendsField(edits[i], f)
    ensures Appends(edits, f) == []
  {
    if edits != [] {
      NoneAppends(edits[1..], f);
    }
  }

  /** At most one of the edits, the k-th, appends to the text. */
  lemma {:induction false} OneAppends(edits: seq<Edit>, k: nat, f: Field)
    requires k < |edits| && forall i :: 0 <= i < |edits| && i != k ==> !AppendsField(edits[i], f)
    ensures Appends(edits, f) == if AppendsField(edits[k], f) then [edits[k].value] else []
    decreases |edits|
  {
    if k == 0 {
      NoneAppends(edits[1..], f);
    } else {
      OneAppends(edits[1..], k - 1, f);
      assert [] + Appends(edits[1..], f) == Appends(edits[1..], f);
    }
  }

  lemma NothingAppended(t: Text, limit: nat)
    requires WellFormed(t, limit)
    ensures Appended(t, "", limit) == t
  {
    assert Sanitised("") == "";
    assert t.value + "" == t.value;
  }

  /** A text that edits can be seen to append to; an empty name is ignored, which makes no difference. */
  predicate Grows(s: State, f: Field, limit: nat) {
    Joins(f) || (f.NameText? && WellFormed(TextAt(s.texts, f), FieldLimit(f, limit)))
  }

  lemma EditText(s: State, e: Edit, f: Field, limit: nat)
    requires Grows(s, f, limit) && !(e.Replace? && e.field == f)
    ensures TextAt(ApplyEdit(s, e, limit).texts, f)
         == if AppendsField(e, f) then Appended(TextAt(s.texts, f), e.value, FieldLimit(f, limit))
           else TextAt(s.texts, f)
    ensures Grows(ApplyEdit(s, e, limit), f, limit)
  {
    if f.NameText? && AppendsField(e, f) {
      NothingAppended(TextAt(s.texts, f), FieldLimit(f, limit));
      AppendWellFormed(TextAt(s.texts, f), e.value, FieldLimit(f, limit));
    }
  }

  lemma {:induction false} EditsText(s: State, edits: seq<Edit>, f: Field, limit: nat)
    requires Grows(s, f, limit) && AppendsTo(edits, f)
    ensures TextAt(ApplyEdits(s, edits, limit).texts, f)
         == AppendAll(TextAt(s.texts, f), Appends(edits, f), FieldLimit(f, limit))
    decreases |edits|
  {
    if edits != [] {
      var e, own := edits[0], Appends(edits[1..], f);
      EditText(s, e, f, limit);
      EditsText(ApplyEdit(s, e, limit), edits[1..], f, limit);
      if AppendsField(e, f) {
        assert ([e.value] + own)[1..] == own;
      } else {
        assert [] + own == own;
      }
    }
  }

  lemma EditIgnoresShell(s: State, e: Edit, shell: map<int, Text>, limit: nat)
    ensures ApplyEdit(s.(shell := shell), e, limit) == ApplyEdit(s, e, limit).(shell := shell)
    ensures ApplyEdit(s, e, limit).shell == s.shell
  {
    match e
    case ApplyStatus(status, error) => StatusIgnoresShell(s, status, error, shell);
    case ApplyOutputStatus(status, error) => StatusIgnoresShell(s, status, error, shell);
    case AppendTo(f, value) =>
    case Replace(f, value) =>
    case _ =>
  }

  lemma StatusIgnoresShell(s: State, status: Bytes, error: Option<Bytes>, shell: map<int, Text>)
    ensures StatusApplied(s.(shell := shell), status, error) == StatusApplied(s, status, error).(shell := shell)
    ensures StatusApplied(s, status, error).shell == s.shell
  {
  }

  /** Edits and changes of shell commands do not see each other. */
  lemma {:induction false} EditsIgnoreShell(s: State, edits: seq<Edit>, shell: map<int, Text>, limit: nat)
    ensures ApplyEdits(s.(shell := shell), edits, limit) == ApplyEdits(s, edits, limit).(shell := shell)
    ensures ApplyEdits(s, edits, limit).shell == s.shell
    decreases |edits|
  {
    if edits != [] {
      EditIgnoresShell(s, edits[0], shell, limit);
      EditsIgnoreShell(ApplyEdit(s, edits[0], limit), edits[1..], shell, limit);
    }
  }

  // ---------- Joining parts ----------

  function PartTexts(parts: seq<Output>, f: Field): seq<Bytes> {
    if parts == [] then [] else [OutputText(parts[0], f)] + PartTexts(parts[1..], f)
  }

  lemma MergeEditsText(s: State, part: Output, f: Field, limit: nat)
    requires Joins(f)
    ensures TextAt(ApplyEdits(s, MergeEdits(part), limit).texts, f)
         == Appended(TextAt(s.texts, f), OutputText(part, f), limit)
  {
    var k := match f case ReasoningText => 0 case ContentText => 1 case RefusalText => 2 case _ => 3;
    MergeEditsAppend(part, f, k);
    OneAppendText(s, MergeEdits(part), f, k, limit);
  }

  lemma OneAppendText(s: State, edits: seq<Edit>, f: Field, k: nat, limit: nat)
    requires Joins(f) && AppendsTo(edits, f) && k < |edits| && AppendsField(edits[k], f)
    requires forall i :: 0 <= i < |edits| && i != k ==> !AppendsField(edits[i], f)
    ensures TextAt(ApplyEdits(s, edits, limit).texts, f) == Appended(TextAt(s.texts, f), edits[k].value, limit)
  {
    OneAppends(edits, k, f);
    EditsText(s, edits, f, limit);
    assert [edits[k].value][1..] == [];
  }

  lemma MergeEditsAppend(part: Output, f: Field, k: nat)
    requires Joins(f) && k == match f case ReasoningText => 0 case ContentText => 1 case RefusalText => 2 case _ => 3
    ensures var e := MergeEdits(part);
            && AppendsTo(e, f) && k < |e| && e[k] == AppendTo(f, OutputText(part, f))
            && forall i :: 0 <= i < |e| && i != k ==> !AppendsField(e[i], f)
  {
  }

  /** The text of a merged output is that of its parts joined in their order, within the limit. */
  lemma {:induction false} MergedText(s: State, parts: seq<Output>, f: Field, limit: nat)
    requires Joins(f)
    ensures TextAt(MergeState(s, parts, limit).texts, f) == AppendAll(TextAt(s.texts, f), PartTexts(parts, f), limit)
    ensures MergeState(s, parts, limit).shell == s.shell
    decreases |parts|
  {
    if parts != [] {
      var t := if parts[0].start < s.start then s.(start := parts[0].start) else s;
      MergeEditsText(t, parts[0], f, limit);
      EditsIgnoreShell(t, MergeEdits(parts[0]), t.shell, limit);
      MergedText(ApplyEdits(t, MergeEdits(parts[0]), limit), parts[1..], f, limit);
      assert PartTexts(parts, f)[1..] == PartTexts(parts[1..], f);
    }
  }

  /**
   * An output of several parts is those that hold data, joined by content index and then by
   * summary index, whatever the order in which they arrived.
   */
  lemma JoinedInOrder(a: Acc, outputIndex: int, kind: Kind, at: int, v: Verdict, f: Field)
    requires KeysOK(a) && Joins(f)
    ensures var o := FinishOutputKind(a, outputIndex, kind, at, v).1;
            var parts := PartOutputs(a, SortedParts(a, outputIndex, kind), at, v);
            o != [] ==> |o| == 1 && OutputText(o[0], f) == AppendAll(EMPTY, PartTexts(parts, f), a.limit).value
    ensures forall i, j :: 0 <= i < j < |SortedParts(a, outputIndex, kind)| ==>
              Less(PartRank(SortedParts(a, outputIndex, kind)[i]), PartRank(SortedParts(a, outputIndex, kind)[j]))
  {
    FinishOutputKindClosed(a, outputIndex, kind, at, v);
    PartRankTotal(a, outputIndex, kind);
    var parts := PartOutputs(a, SortedParts(a, outputIndex, kind), at, v);
    if parts != [] {
      MergedOutputText(parts, at, a.limit, a.limited, f);
    }
  }

  lemma MergedOutputText(parts: seq<Output>, at: int, limit: nat, limited: bool, f: Field)
    requires parts != [] && Joins(f)
    ensures var o, t := MergeOutputs(parts, at, limit, limited), AppendAll(EMPTY, PartTexts(parts, f), limit);
            && OutputText(o, f) == t.value && (t.truncated ==> o.truncated)
            && forall p :: p in parts && p.truncated ==> o.truncated
  {
    var labels := if |parts| > 1 then parts[0].labels.(content := None) else parts[0].labels;
    var s := NewState(parts[0].kind, labels).(started := true, start := parts[0].start);
    MergedText(s, parts, f, limit);
    var m := MergeState(s, parts, limit);
    assert TextAt(m.texts, f).truncated ==> f in m.texts;
  }
}

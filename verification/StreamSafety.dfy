/**
 * Safety of whole runs of the accumulator: every input keeps the invariant, gives at most one
 * output for each group, and gives only outputs whose status and text are sound.
 */
module StreamSafety {
  import opened Bytes
  import opened LimitedText
  import opened Ordering
  import opened StreamParts
  import opened StreamAssembly
  import opened StreamFinishing
  import opened StreamInvariants

  // ---------- Outputs ----------

  predicate VerdictOK(v: Verdict) {
    !(v.complete && v.failed)
  }

  /** Never both complete and failed, never complete and incomplete, and text within bounds. */
  predicate OutputOK(o: Output, limit: nat) {
    && !(o.complete && o.failed)
    && (o.complete ==> !o.protocolIncomplete)
    && forall f :: f in o.texts ==> ValidUTF8(o.texts[f]) && |o.texts[f]| <= FieldLimit(f, limit)
  }

  predicate OutputsOK(outputs: seq<Output>, limit: nat) {
    forall i :: 0 <= i < |outputs| ==> OutputOK(outputs[i], limit)
  }

  /**
   * Everything given out once a cap was hit is marked; so is every Chat or native output that
   * claims to be complete once a payload failed to decode.
   */
  predicate OutputsMarked(outputs: seq<Output>, limited: bool, decodeFailed: bool) {
    forall i :: 0 <= i < |outputs| ==> Marked(outputs[i], limited, decodeFailed)
  }

  predicate Marked(o: Output, limited: bool, decodeFailed: bool) {
    && (limited ==> o.observationLimited)
    && (decodeFailed && o.complete && OutputGroup(o).source != Responses ==> o.observationLimited)
  }

  lemma AssembledOK(shell: map<int, Text>, limit: nat)
    ensures var text := AssembledShellCommands(shell, limit).0;
            ValidUTF8(text) && |text| <= limit
  {
    var indexes := SortedIndexes(shell.Keys);
    var commands := seq(|indexes|, i requires 0 <= i < |indexes| => shell[indexes[i]].value);
    AppendWellFormed(EMPTY, MarshalCommands(commands), limit);
  }

  lemma FinishStateOK(s: State, at: int, v: Verdict, limit: nat)
    requires ContentOK(s, limit) && VerdictOK(v)
    ensures OutputOK(FinishState(s, at, v, limit), limit)
  {
    AssembledOK(s.shell, limit);
  }

  lemma PartOutputOK(a: Acc, k: Key, at: int, v: Verdict)
    requires k in a.states && StateOK(k, a.states[k], a.limit) && VerdictOK(v)
    ensures OutputOK(PartOutput(a, k, at, v), a.limit)
    ensures OutputGroup(PartOutput(a, k, at, v)) == GroupOf(k)
    ensures Marked(PartOutput(a, k, at, v), a.limited, a.decodeFailed)
  {
    FinishStateOK(a.states[k], at, v, a.limit);
    LabelsNameGroup(k);
  }

  lemma {:induction false} PartOutputsOK(a: Acc, keys: seq<Key>, at: int, v: Verdict)
    requires StatesOK(a) && VerdictOK(v) && forall k :: k in keys ==> k in a.states
    ensures var os := PartOutputs(a, keys, at, v);
            && OutputsOK(os, a.limit) && OutputsMarked(os, a.limited, a.decodeFailed)
            && forall i :: 0 <= i < |os| ==> exists k :: k in keys && OutputGroup(os[i]) == GroupOf(k)
  {
    if keys != [] {
      PartOutputOK(a, keys[0], at, v);
      PartOutputsOK(a, keys[1..], at, v);
    }
  }

  // ---------- Merging parts ----------

  /** A merged output is complete exactly when all its parts are, and failed exactly when one is. */
  lemma {:induction false} MergeVerdictMeaning(v: Verdict, parts: seq<Output>)
    requires VerdictOK(v) && forall p :: p in parts ==> !(p.complete && p.failed)
    ensures var r := MergeVerdict(v, parts);
            && VerdictOK(r)
            && (r.complete <==> v.complete && forall p :: p in parts ==> p.complete)
            && (r.failed <==> v.failed || exists p :: p in parts && p.failed)
    decreases |parts|
  {
    if parts != [] {
      var p := parts[0];
      assert parts == [p] + parts[1..];
      var w := if p.failed then Verdict(false, true, if p.errorMessage != "" then p.errorMessage else v.message)
               else if !p.complete then v.(complete := false)
               else v;
      MergeVerdictMeaning(w, parts[1..]);
    }
  }

  lemma {:induction false} MergeStateOK(s: State, parts: seq<Output>, limit: nat)
    requires ContentOK(s, limit)
    ensures ContentOK(MergeState(s, parts, limit), limit)
    ensures SameFrame(s, MergeState(s, parts, limit), true)
    decreases |parts|
  {
    if parts != [] {
      var t := if parts[0].start < s.start then s.(start := parts[0].start) else s;
      EditsKeep(t, MergeEdits(parts[0]), limit);
      assert PlainEdits(MergeEdits(parts[0]));
      MergeStateOK(ApplyEdits(t, MergeEdits(parts[0]), limit), parts[1..], limit);
    }
  }

  lemma MergeOutputsOK(parts: seq<Output>, g: Group, at: int, limit: nat, limited: bool)
    requires parts != [] && OutputsOK(parts, limit)
    requires forall i :: 0 <= i < |parts| ==> OutputGroup(parts[i]) == g
    ensures var m := MergeOutputs(parts, at, limit, limited);
            && OutputOK(m, limit) && OutputGroup(m) == g
            && (m.complete <==> forall p :: p in parts ==> p.complete)
            && (m.failed <==> exists p :: p in parts && p.failed)
  {
    var labels := if |parts| > 1 then parts[0].labels.(content := None) else parts[0].labels;
    var s := NewState(parts[0].kind, labels).(started := true, start := parts[0].start);
    assert OutputGroup(parts[0]) == g;
    MergeStateOK(s, parts, limit);
    var v := MergeVerdict(Verdict(true, false, ""), parts);
    assert forall p :: p in parts ==> OutputOK(p, limit);
    MergeVerdictMeaning(Verdict(true, false, ""), parts);
    FinishStateOK(MergeState(s, parts, limit), at, v, limit);
  }

  // ---------- Finishing keeps the invariant ----------

  /** Parts that share a group with a finished part are finished with it. */
  ghost predicate WholeGroups(a: Acc, keys: set<Key>) {
    forall k, m :: k in keys && m in a.states && GroupOf(k) == GroupOf(m) ==> m in keys
  }

  lemma FinishedValid(a: Acc, keys: set<Key>)
    requires Core(a) && keys <= a.states.Keys && WholeGroups(a, keys)
    ensures Core(AllFinished(a, keys))
  {
    var data, b := DataKeys(a, keys), AllFinished(a, keys);
    assert BudgetOK(b) by {
      WeightRemove(a.states, keys, data);
    }
    FinishedGroupsOK(a, keys);
  }

  lemma FinishedGroupsOK(a: Acc, keys: set<Key>)
    requires GroupsOK(a) && keys <= a.states.Keys && WholeGroups(a, keys)
    ensures GroupsOK(AllFinished(a, keys))
  {
    var data := DataKeys(a, keys);
    assert forall k :: k in data ==> GroupOf(k) in Groups(data);
  }

  lemma OtherKeysWhole(a: Acc, keys: set<Key>)
    requires StatesOK(a) && keys <= a.states.Keys && forall k :: k in keys ==> k.source != Responses
    ensures WholeGroups(a, keys)
  {
    forall k, m | k in keys && m in a.states && GroupOf(k) == GroupOf(m) ensures m in keys {
      assert KeyOK(k) && KeyOK(m);
      assert k == m;
    }
  }

  lemma PartKeysWhole(a: Acc, outputIndex: int, kind: Kind)
    requires StatesOK(a)
    ensures WholeGroups(a, PartKeys(a, outputIndex, kind))
  {
  }

  /** Parts whose groups are told apart by their keys give one output for each. */
  lemma {:induction false} EmitsParts(a: Acc, keys: seq<Key>, at: int, v: Verdict, before: set<Group>)
    requires StatesOK(a) && VerdictOK(v)
    requires forall k :: k in keys ==> k in a.states && k.source != Responses && GroupOf(k) !in before
    requires Distinct(keys)
    ensures Emits(before, PartOutputs(a, keys, at, v), before + Groups(DataKeys(a, Elements(keys))))
    decreases |keys|
  {
    if keys == [] {
      assert DataKeys(a, Elements(keys)) == {};
      assert before + Groups({}) == before;
      EmitsNothing(before);
    } else {
      var k, rest := keys[0], keys[1..];
      ElementsStep(keys);
      DataKeysSplit(a, k, Elements(rest));
      if HasData(a.states[k]) {
        PartOutputOK(a, k, at, v);
        var mid, more := before + {GroupOf(k)}, Groups(DataKeys(a, Elements(rest)));
        EmitsOne(before, PartOutput(a, k, at, v));
        OtherGroups(a, keys);
        EmitsParts(a, rest, at, v, mid);
        EmitsThen(before, [PartOutput(a, k, at, v)], mid, PartOutputs(a, rest, at, v), mid + more);
        assert mid + more == before + ({GroupOf(k)} + more);
      } else {
        EmitsParts(a, rest, at, v, before);
        assert [] + PartOutputs(a, rest, at, v) == PartOutputs(a, rest, at, v);
      }
    }
  }

  /** Parts of Chat and native outputs are told apart by their groups. */
  lemma OtherGroups(a: Acc, keys: seq<Key>)
    requires StatesOK(a) && Distinct(keys) && keys != []
    requires forall k :: k in keys ==> k in a.states && k.source != Responses
    ensures forall m :: m in keys[1..] ==> GroupOf(m) != GroupOf(keys[0])
  {
    forall m | m in keys[1..] ensures GroupOf(m) != GroupOf(keys[0]) {
      var i :| 0 <= i < |keys[1..]| && keys[1..][i] == m;
      assert m == keys[i + 1] && m != keys[0];
      assert KeyOK(keys[0]) && KeyOK(m);
    }
  }

  lemma DataKeysSplit(a: Acc, k: Key, rest: set<Key>)
    requires k in a.states
    ensures Groups(DataKeys(a, {k} + rest))
         == (if HasData(a.states[k]) then {GroupOf(k)} else {}) + Groups(DataKeys(a, rest))
  {
    if HasData(a.states[k]) {
      assert DataKeys(a, {k} + rest) == {k} + DataKeys(a, rest);
    } else {
      assert DataKeys(a, {k} + rest) == DataKeys(a, rest);
    }
  }

  /** What a step of the accumulator keeps, and what it may give. */
  ghost predicate Safe(a: Acc, b: Acc, outputs: seq<Output>) {
    && Core(b)
    && b.limit == a.limit && b.closed == a.closed && b.decodeFailed == a.decodeFailed
    && b.terminalIncomplete == a.terminalIncomplete && b.terminalObserved == a.terminalObserved
    && (a.limited ==> b.limited)
    && Emits(a.finishedGroups, outputs, b.finishedGroups)
    && OutputsOK(outputs, a.limit)
    && OutputsMarked(outputs, a.limited, a.decodeFailed)
  }

  lemma FinishedSafe(a: Acc, keys: set<Key>, outputs: seq<Output>)
    requires Core(a) && keys <= a.states.Keys && WholeGroups(a, keys)
    requires Emits(a.finishedGroups, outputs, a.finishedGroups + Groups(DataKeys(a, keys)))
    requires OutputsOK(outputs, a.limit) && OutputsMarked(outputs, a.limited, a.decodeFailed)
    ensures Safe(a, AllFinished(a, keys), outputs)
  {
    FinishedValid(a, keys);
  }

  lemma SafeThen(a: Acc, b: Acc, o: seq<Output>, c: Acc, p: seq<Output>)
    requires Safe(a, b, o) && Safe(b, c, p)
    ensures Safe(a, c, o + p)
  {
    EmitsThen(a.finishedGroups, o, b.finishedGroups, p, c.finishedGroups);
  }

  lemma SafeSilently(a: Acc)
    requires Core(a)
    ensures Safe(a, a, [])
  {
    EmitsNothing(a.finishedGroups);
  }

  lemma FinishMatchingSafe(a: Acc, keys: set<Key>, at: int, v: Verdict)
    requires Core(a) && VerdictOK(v) && keys <= a.states.Keys && forall k :: k in keys ==> k.source != Responses
    ensures var (b, o) := FinishMatching(a, keys, at, v);
            b == AllFinished(a, keys) && Safe(a, b, o)
  {
    var sorted := SortOf(keys, KeyRank);
    FinishMatchingClosed(a, keys, at, v);
    assert forall k :: k in sorted ==> k in Elements(sorted);
    OtherKeysWhole(a, keys);
    EmitsParts(a, sorted, at, v, a.finishedGroups);
    PartOutputsOK(a, sorted, at, v);
    FinishedSafe(a, keys, PartOutputs(a, sorted, at, v));
  }

  lemma FinishOutputKindSafe(a: Acc, outputIndex: int, kind: Kind, at: int, v: Verdict)
    requires Core(a) && VerdictOK(v)
    ensures var (b, o) := FinishOutputKind(a, outputIndex, kind, at, v);
            b == AllFinished(a, PartKeys(a, outputIndex, kind)) && Safe(a, b, o)
  {
    var keys, sorted := PartKeys(a, outputIndex, kind), SortedParts(a, outputIndex, kind);
    FinishOutputKindClosed(a, outputIndex, kind, at, v);
    PartKeysWhole(a, outputIndex, kind);
    assert Elements(sorted) == keys;
    PartKeysGroup(a, outputIndex, kind);
    MergedEmits(a, sorted, Group(Responses, kind, -1, outputIndex, -1), at, v, a.finishedGroups);
    FinishedSafe(a, keys, Merged(a, sorted, at, v));
  }

  lemma MergedEmits(a: Acc, keys: seq<Key>, g: Group, at: int, v: Verdict, before: set<Group>)
    requires StatesOK(a) && VerdictOK(v) && g.source == Responses
    requires forall k :: k in keys ==> k in a.states && GroupOf(k) == g
    requires keys != [] ==> g !in before
    requires Groups(DataKeys(a, Elements(keys))) == if DataKeys(a, Elements(keys)) == {} then {} else {g}
    ensures Emits(before, Merged(a, keys, at, v), before + Groups(DataKeys(a, Elements(keys))))
    ensures OutputsOK(Merged(a, keys, at, v), a.limit)
    ensures OutputsMarked(Merged(a, keys, at, v), a.limited, a.decodeFailed)
  {
    PartOutputsEmpty(a, keys, at, v);
    if PartOutputs(a, keys, at, v) == [] {
      EmitsNothing(before);
      assert before + {} == before;
    } else {
      MergedOK(a, keys, g, at, v);
      EmitsOne(before, MergeOutputs(PartOutputs(a, keys, at, v), at, a.limit, a.limited));
    }
  }

  lemma MergedOK(a: Acc, keys: seq<Key>, g: Group, at: int, v: Verdict)
    requires StatesOK(a) && VerdictOK(v) && g.source == Responses
    requires forall k :: k in keys ==> k in a.states && GroupOf(k) == g
    requires PartOutputs(a, keys, at, v) != []
    ensures var o := MergeOutputs(PartOutputs(a, keys, at, v), at, a.limit, a.limited);
            OutputGroup(o) == g && OutputOK(o, a.limit) && Marked(o, a.limited, a.decodeFailed)
  {
    PartOutputsOK(a, keys, at, v);
    MergeOutputsOK(PartOutputs(a, keys, at, v), g, at, a.limit, a.limited);
  }

  /** The live parts of one output and kind are one group, not yet finished. */
  lemma PartKeysGroup(a: Acc, outputIndex: int, kind: Kind)
    requires Core(a)
    ensures var g := Group(Responses, kind, -1, outputIndex, -1);
            var keys := PartKeys(a, outputIndex, kind);
            && (forall k :: k in keys ==> GroupOf(k) == g)
            && (keys != {} ==> g !in a.finishedGroups)
            && Groups(DataKeys(a, keys)) == if DataKeys(a, keys) == {} then {} else {g}
  {
    var keys := PartKeys(a, outputIndex, kind);
    assert forall k :: k in keys ==> KeyOK(k);
    if k :| k in keys {
      assert GroupOf(k) !in a.finishedGroups;
    }
    if k :| k in DataKeys(a, keys) {
      assert GroupOf(k) in Groups(DataKeys(a, keys));
    }
  }

  lemma {:induction false} FinishOutputKindsSafe(a: Acc, outputs: seq<(int, Kind)>, at: int, v: Verdict)
    requires Core(a) && VerdictOK(v)
    ensures var (b, o) := FinishOutputKinds(a, outputs, at, v);
            && Safe(a, b, o)
            && b.states.Keys == Surviving(a, outputs)
            && b.limited == a.limited && b.finishedChoices == a.finishedChoices
    decreases |outputs|
  {
    if outputs == [] {
      SafeSilently(a);
    } else {
      var (b, o) := FinishOutputKind(a, outputs[0].0, outputs[0].1, at, v);
      FinishOutputKindSafe(a, outputs[0].0, outputs[0].1, at, v);
      FinishOutputKindsSafe(b, outputs[1..], at, v);
      var (c, os) := FinishOutputKinds(b, outputs[1..], at, v);
      SafeThen(a, b, o, c, os);
      SurvivingStep(a, b, outputs);
    }
  }

  /** The live keys that are not of the given outputs. */
  ghost function Surviving(a: Acc, outputs: seq<(int, Kind)>): set<Key> {
    set k | k in a.states && !(k.source == Responses && (k.outputIndex, k.kind) in outputs)
  }

  lemma SurvivingStep(a: Acc, b: Acc, outputs: seq<(int, Kind)>)
    requires outputs != [] && b.states == a.states - PartKeys(a, outputs[0].0, outputs[0].1)
    ensures Surviving(b, outputs[1..]) == Surviving(a, outputs)
  {
    assert outputs == [outputs[0]] + outputs[1..];
  }

  /** The end of a stream leaves nothing live. */
  lemma FinishAllSafe(a: Acc, at: int, v: Verdict)
    requires Core(a) && VerdictOK(v)
    ensures var (b, o) := FinishAll(a, at, v); Safe(a, b, o) && b.states == map[] && b.limited == a.limited
  {
    var outputs := SortOf(LiveOutputs(a), OutputRank);
    OutputRankTotal(LiveOutputs(a));
    FinishOutputKindsSafe(a, outputs, at, v);
    var (b, os) := FinishOutputKinds(a, outputs, at, v);
    forall k | k in b.states ensures k in OtherKeys(b) {
      assert k in Surviving(a, outputs);
      assert k.source == Responses ==> (k.outputIndex, k.kind) in LiveOutputs(a);
    }
    FinishMatchingSafe(b, OtherKeys(b), at, v);
    var (c, ps) := FinishMatching(b, OtherKeys(b), at, v);
    SafeThen(a, b, os, c, ps);
    assert c.states == map[];
  }
}

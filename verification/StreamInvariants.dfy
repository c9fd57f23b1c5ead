/**
 * What every run of the accumulator keeps: at most one output for each group, the caps, nothing
 * live in a finished group or after the end, and bounded, valid text.
 */
module StreamInvariants {
  import opened Bytes
  import opened LimitedText
  import opened StreamParts
  import opened StreamActions
  import opened StreamAssembly
  import opened StreamFinishing

  // ---------- The invariant ----------

  predicate TextsOK(texts: map<Field, Text>, limit: nat) {
    forall f :: f in texts ==> WellFormed(texts[f], FieldLimit(f, limit))
  }

  predicate ShellOK(shell: map<int, Text>, limit: nat) {
    forall i :: i in shell ==> WellFormed(shell[i], limit)
  }

  predicate ContentOK(s: State, limit: nat) {
    TextsOK(s.texts, limit) && ShellOK(s.shell, limit)
  }

  predicate StateOK(k: Key, s: State, limit: nat) {
    && KeyOK(k)
    && s.kind == k.kind
    && s.labels == LabelsOf(k)
    && (k.source != Responses ==> s.flags == NO_FLAGS && s.shell == map[])
    && ContentOK(s, limit)
  }

  ghost predicate StatesOK(a: Acc) {
    forall k :: k in a.states ==> StateOK(k, a.states[k], a.limit)
  }

  /** Live parts belong to known groups, and none to a finished one. */
  ghost predicate GroupsOK(a: Acc) {
    && (forall k :: k in a.states ==> GroupOf(k) in a.groups && GroupOf(k) !in a.finishedGroups)
    && (forall k :: k in a.finished ==> GroupOf(k) in a.finishedGroups)
    && a.finishedGroups <= a.groups
  }

  /** One for each live part and one for each of its shell commands. */
  ghost function Weight(states: map<Key, State>): nat
    decreases |states|
  {
    if states == map[] then 0
    else
      var k :| k in states;
      1 + |states[k].shell| + Weight(states - {k})
  }

  ghost predicate BudgetOK(a: Acc) {
    && Weight(a.states) + |a.finished| <= a.createdParts <= MAX_STREAM_OUTPUT_PARTS
    && |a.groups| <= MAX_STREAM_OUTPUT_STATES
    && |a.finishedChoices| <= MAX_STREAM_OUTPUT_STATES
  }

  /** What also holds while the end of a stream finishes its parts. */
  ghost predicate Core(a: Acc) {
    a.limit > 0 && StatesOK(a) && GroupsOK(a) && BudgetOK(a)
  }

  ghost predicate EndOK(a: Acc) {
    && (a.closed ==> a.states == map[])
    && (a.terminalObserved || a.terminalIncomplete ==> a.closed)
    && (a.terminalObserved && a.decodeFailed ==> a.limited)
  }

  ghost predicate Valid(a: Acc) {
    Core(a) && EndOK(a)
  }

  // ---------- Weights ----------

  lemma {:induction false} WeightPick(states: map<Key, State>, k: Key)
    requires k in states
    ensures Weight(states) == 1 + |states[k].shell| + Weight(states - {k})
    decreases |states|
  {
    var m :| m in states && Weight(states) == 1 + |states[m].shell| + Weight(states - {m});
    if m != k {
      var without := states - {m, k};
      assert states - {m} - {k} == without && states - {k} - {m} == without;
      WeightPick(states - {m}, k);
      WeightPick(states - {k}, m);
    }
  }

  lemma WeightSet(states: map<Key, State>, k: Key, s: State)
    ensures Weight(states[k := s]) + (if k in states then 1 + |states[k].shell| else 0)
         == Weight(states) + 1 + |s.shell|
  {
    WeightPick(states[k := s], k);
    SetThenRemove(states, k, s);
    if k in states {
      WeightPick(states, k);
    }
  }

  lemma SetThenRemove(states: map<Key, State>, k: Key, s: State)
    ensures states[k := s] - {k} == states - {k}
    ensures k !in states ==> states - {k} == states
  {
  }

  /** Removed parts free at least one unit each. */
  lemma {:induction false} WeightRemove(states: map<Key, State>, keys: set<Key>, data: set<Key>)
    requires data <= keys && data <= states.Keys
    ensures Weight(states - keys) + |data| <= Weight(states)
    decreases |keys|
  {
    if keys == {} {
      assert states - keys == states;
    } else {
      var k :| k in keys;
      WeightRemove(states - {k}, keys - {k}, data - {k});
      assert states - {k} - (keys - {k}) == states - keys;
      if k in states {
        WeightPick(states, k);
      } else {
        assert states - {k} == states && data - {k} == data;
      }
    }
  }

  /** The weight depends on the keys and the number of shell commands. */
  lemma {:induction false} WeightSame(states: map<Key, State>, states': map<Key, State>)
    requires states.Keys == states'.Keys && forall k :: k in states ==> |states[k].shell| == |states'[k].shell|
    ensures Weight(states) == Weight(states')
    decreases |states|
  {
    if states != map[] {
      var k :| k in states;
      WeightPick(states, k);
      WeightPick(states', k);
      WeightSame(states - {k}, states' - {k});
    }
  }

  /** The labels of an output name the group it belongs to. */
  lemma LabelsNameGroup(k: Key)
    requires KeyOK(k)
    ensures LabelledGroup(k.kind, LabelsOf(k)) == GroupOf(k)
  {
  }

  // ---------- Edits ----------

  predicate PlainEdit(e: Edit) {
    e.Touch? || e.AppendTo? || e.Replace?
  }

  lemma TextSetOK(texts: map<Field, Text>, f: Field, t: Text, limit: nat)
    requires TextsOK(texts, limit) && WellFormed(t, FieldLimit(f, limit))
    ensures TextsOK(texts[f := t], limit)
  {
  }

  lemma EditKeepsTexts(s: State, e: Edit, limit: nat)
    requires TextsOK(s.texts, limit)
    ensures TextsOK(ApplyEdit(s, e, limit).texts, limit)
  {
    match e
    case AppendTo(f, value) =>
      assert WellFormed(TextAt(s.texts, f), FieldLimit(f, limit));
      AppendWellFormed(TextAt(s.texts, f), value, FieldLimit(f, limit));
      TextSetOK(s.texts, f, Appended(TextAt(s.texts, f), value, FieldLimit(f, limit)), limit);
    case Replace(f, value) =>
      AppendWellFormed(EMPTY, value, FieldLimit(f, limit));
      TextSetOK(s.texts, f, SetTo(value, FieldLimit(f, limit)), limit);
    case DefaultToolID(value) =>
      AppendWellFormed(EMPTY, value, MetadataLimit(limit));
      TextSetOK(s.texts, ToolIDText, SetTo(value, MetadataLimit(limit)), limit);
    case _ =>
  }

  lemma EditKeepsFrame(s: State, e: Edit, limit: nat)
    ensures SameFrame(s, ApplyEdit(s, e, limit), PlainEdit(e))
  {
  }

  lemma EditKeeps(s: State, e: Edit, limit: nat)
    requires ContentOK(s, limit)
    ensures ContentOK(ApplyEdit(s, e, limit), limit)
    ensures SameFrame(s, ApplyEdit(s, e, limit), PlainEdit(e))
  {
    EditKeepsTexts(s, e, limit);
    EditKeepsFrame(s, e, limit);
  }

  /** What no edit changes; plain edits keep the flags too. */
  predicate SameFrame(s: State, t: State, plain: bool) {
    t.kind == s.kind && t.labels == s.labels && t.shell == s.shell && (plain ==> t.flags == s.flags)
  }

  predicate PlainEdits(edits: seq<Edit>) {
    forall i :: 0 <= i < |edits| ==> PlainEdit(edits[i])
  }

  lemma {:induction false} EditsKeep(s: State, edits: seq<Edit>, limit: nat)
    requires ContentOK(s, limit)
    ensures ContentOK(ApplyEdits(s, edits, limit), limit)
    ensures SameFrame(s, ApplyEdits(s, edits, limit), PlainEdits(edits))
    decreases |edits|
  {
    if edits != [] {
      EditKeeps(s, edits[0], limit);
      EditsKeep(ApplyEdit(s, edits[0], limit), edits[1..], limit);
    }
  }

  // ---------- What outputs a step may give ----------

  /** Outputs of distinct groups, which are exactly the groups that become finished. */
  ghost predicate Emits(before: set<Group>, outputs: seq<Output>, after: set<Group>) {
    && (forall i :: 0 <= i < |outputs| ==> OutputGroup(outputs[i]) !in before)
    && (forall i, j :: 0 <= i < j < |outputs| ==> OutputGroup(outputs[i]) != OutputGroup(outputs[j]))
    && after == before + EmittedGroups(outputs)
  }

  ghost function EmittedGroups(outputs: seq<Output>): set<Group> {
    set i | 0 <= i < |outputs| :: OutputGroup(outputs[i])
  }

  lemma EmittedAppend(o: seq<Output>, p: seq<Output>)
    ensures EmittedGroups(o + p) == EmittedGroups(o) + EmittedGroups(p)
  {
    forall g ensures g in EmittedGroups(o + p) <==> g in EmittedGroups(o) + EmittedGroups(p) {
      if g in EmittedGroups(o) {
        var i :| 0 <= i < |o| && OutputGroup(o[i]) == g;
        assert (o + p)[i] == o[i];
      }
      if g in EmittedGroups(p) {
        var i :| 0 <= i < |p| && OutputGroup(p[i]) == g;
        assert (o + p)[|o| + i] == p[i];
      }
    }
  }

  lemma EmitsNothing(g: set<Group>)
    ensures Emits(g, [], g)
  {
    assert EmittedGroups([]) == {};
  }

  lemma EmitsOne(g: set<Group>, o: Output)
    requires OutputGroup(o) !in g
    ensures Emits(g, [o], g + {OutputGroup(o)})
  {
    var all := [o];
    assert EmittedGroups(all) == {OutputGroup(o)} by {
      assert all[0] == o;
    }
  }

  lemma EmitsThen(a: set<Group>, o: seq<Output>, b: set<Group>, p: seq<Output>, c: set<Group>)
    requires Emits(a, o, b) && Emits(b, p, c)
    ensures Emits(a, o + p, c)
  {
    EmittedAppend(o, p);
    var all := o + p;
    forall i, j | 0 <= i < j < |all| ensures OutputGroup(all[i]) != OutputGroup(all[j]) {
      if i < |o| <= j {
        assert OutputGroup(all[i]) in EmittedGroups(o);
      }
    }
  }

  lemma EmitsCount(a: set<Group>, o: seq<Output>, b: set<Group>)
    requires Emits(a, o, b)
    ensures |b| == |a| + |o|
  {
    var groups := seq(|o|, i requires 0 <= i < |o| => OutputGroup(o[i]));
    forall g ensures g in EmittedGroups(o) <==> g in groups {
      if g in EmittedGroups(o) {
        var i :| 0 <= i < |o| && OutputGroup(o[i]) == g;
        assert groups[i] == g;
      }
    }
    DistinctCount(groups, EmittedGroups(o));
    assert a !! EmittedGroups(o);
  }
}

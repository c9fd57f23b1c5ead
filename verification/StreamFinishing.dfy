/**
 * Finishing in closed form. The order in which live parts are finished is that of a comparator
 * that is a strict total order on them, and finishing a list of parts one after the other is
 * removing them all at once.
 */
module StreamFinishing {
  import opened Ordering
  import opened StreamParts
  import opened StreamAssembly

  /** The keys that the accumulator ever makes. */
  predicate KeyOK(k: Key) {
    match k.source
    case Chat => k.outputIndex == -1 && k.contentIndex == -1 && (k.kind != ToolCall ==> k.toolIndex == -1)
    case Native => k.choiceIndex == 0 && k.outputIndex == -1 && k.contentIndex == -1 && k.toolIndex == -1
    case Responses => k.choiceIndex == -1 && k.toolIndex == -1 && (k.kind == ToolCall ==> k.contentIndex == -1)
  }

  ghost predicate KeysOK(a: Acc) {
    forall k :: k in a.states ==> KeyOK(k)
  }

  // ---------- The comparators ----------

  lemma KeyRankTotal(keys: set<Key>)
    ensures Comparable(keys, KeyRank)
  {
    forall x, y | x in keys && y in keys && KeyRank(x) == KeyRank(y) ensures x == y {
      var r, q := KeyRank(x), KeyRank(y);
      assert r[0] == q[0] && r[1] == q[1] && r[2] == q[2] && r[3] == q[3] && r[4] == q[4] && r[5] == q[5];
    }
  }

  /** Live parts of one output differ in contentIndex only, so comparing that is enough. */
  lemma PartRankTotal(a: Acc, outputIndex: int, kind: Kind)
    requires KeysOK(a)
    ensures Comparable(PartKeys(a, outputIndex, kind), PartRank)
  {
    var keys := PartKeys(a, outputIndex, kind);
    forall x, y | x in keys && y in keys && PartRank(x) == PartRank(y) ensures x == y {
      var r, q := PartRank(x), PartRank(y);
      assert r[0] == q[0] && r[1] == q[1];
    }
  }

  lemma OutputRankTotal(outputs: set<(int, Kind)>)
    ensures Comparable(outputs, OutputRank)
  {
    forall x, y | x in outputs && y in outputs && OutputRank(x) == OutputRank(y) ensures x == y {
      var r, q := OutputRank(x), OutputRank(y);
      assert r[0] == q[0] && r[1] == q[1];
    }
  }

  // ---------- Finishing a list of parts ----------

  function PartOutput(a: Acc, k: Key, at: int, v: Verdict): Output
    requires k in a.states
  {
    Stamp(a, FinishState(a.states[k], at, v, a.limit), v)
  }

  /** The outputs of the parts that hold data, in the order of the keys. */
  function PartOutputs(a: Acc, keys: seq<Key>, at: int, v: Verdict): seq<Output>
    requires forall k :: k in keys ==> k in a.states
  {
    if keys == [] then []
    else (if HasData(a.states[keys[0]]) then [PartOutput(a, keys[0], at, v)] else []) + PartOutputs(a, keys[1..], at, v)
  }

  ghost predicate Bears(a: Acc, k: Key) {
    k in a.states && HasData(a.states[k])
  }

  ghost function DataKeys(a: Acc, keys: set<Key>): set<Key> {
    set k | k in keys && Bears(a, k)
  }

  ghost function Groups(keys: set<Key>): set<Group> {
    set k | k in keys :: GroupOf(k)
  }

  /** The keys removed, those in `data` recorded. */
  ghost function Removed(a: Acc, keys: set<Key>, data: set<Key>): Acc {
    a.(states := a.states - keys, finished := a.finished + data, finishedGroups := a.finishedGroups + Groups(data))
  }

  /** All of the keys finished at once: their parts are gone, those with data are recorded. */
  ghost function AllFinished(a: Acc, keys: set<Key>): Acc {
    Removed(a, keys, DataKeys(a, keys))
  }

  lemma KeyFinishedRemoved(a: Acc, key: Key)
    requires key in a.states
    ensures KeyFinished(a, key) == Removed(a, {key}, DataKeys(a, {key}))
  {
    if HasData(a.states[key]) {
      assert DataKeys(a, {key}) == {key};
      assert Groups({key}) == {GroupOf(key)};
    } else {
      assert DataKeys(a, {key}) == {};
      assert Groups({}) == {};
    }
  }

  lemma RemovedTwice(a: Acc, keys: set<Key>, data: set<Key>, keys': set<Key>, data': set<Key>)
    ensures Removed(Removed(a, keys, data), keys', data') == Removed(a, keys + keys', data + data')
  {
    assert a.states - keys - keys' == a.states - (keys + keys');
    assert a.finished + data + data' == a.finished + (data + data');
    assert Groups(data + data') == Groups(data) + Groups(data');
    assert a.finishedGroups + Groups(data) + Groups(data') == a.finishedGroups + (Groups(data) + Groups(data'));
  }

  lemma DataKeysUnion(a: Acc, keys: set<Key>, keys': set<Key>, b: Acc)
    requires keys !! keys' && b.states == a.states - keys
    ensures DataKeys(a, keys + keys') == DataKeys(a, keys) + DataKeys(b, keys')
  {
    assert forall k :: k in keys' ==> (Bears(b, k) <==> Bears(a, k));
  }

  /** Finishing one set of parts after another is finishing their union. */
  lemma AllFinishedTwice(a: Acc, keys: set<Key>, keys': set<Key>)
    requires keys !! keys'
    ensures AllFinished(AllFinished(a, keys), keys') == AllFinished(a, keys + keys')
  {
    var b := AllFinished(a, keys);
    DataKeysUnion(a, keys, keys', b);
    RemovedTwice(a, keys, DataKeys(a, keys), keys', DataKeys(b, keys'));
  }

  lemma {:induction false} PartOutputsSame(a: Acc, b: Acc, keys: seq<Key>, at: int, v: Verdict)
    requires forall k :: k in keys ==> k in a.states && k in b.states && a.states[k] == b.states[k]
    requires a.limit == b.limit && a.limited == b.limited && a.decodeFailed == b.decodeFailed
    requires a.terminalIncomplete == b.terminalIncomplete
    ensures PartOutputs(a, keys, at, v) == PartOutputs(b, keys, at, v)
  {
    if keys != [] {
      PartOutputsSame(a, b, keys[1..], at, v);
    }
  }

  /** Finishing keys one by one is finishing them all at once, with the outputs in their order. */
  lemma {:induction false} FinishKeysClosed(a: Acc, keys: seq<Key>, at: int, v: Verdict)
    requires Distinct(keys) && forall k :: k in keys ==> k in a.states
    ensures FinishKeys(a, keys, at, v) == (AllFinished(a, Elements(keys)), PartOutputs(a, keys, at, v))
    decreases |keys|
  {
    if keys == [] {
      NothingFinished(a);
    } else {
      var key, rest := keys[0], keys[1..];
      var (b, o) := FinishKey(a, key, at, v);
      FinishKeysClosed(b, rest, at, v);
      ElementsStep(keys);
      KeyFinishedRemoved(a, key);
      AllFinishedTwice(a, {key}, Elements(rest));
      PartOutputsSame(a, b, rest, at, v);
    }
  }

  lemma ElementsStep(keys: seq<Key>)
    requires keys != []
    ensures Elements(keys) == {keys[0]} + Elements(keys[1..])
  {
    assert keys == [keys[0]] + keys[1..];
  }

  lemma NothingFinished(a: Acc)
    ensures AllFinished(a, Elements([])) == a
  {
    assert Elements<Key>([]) == {};
    assert DataKeys(a, {}) == {} && Groups({}) == {};
    assert a.states - {} == a.states;
  }

  lemma FinishMatchingClosed(a: Acc, keys: set<Key>, at: int, v: Verdict)
    requires keys <= a.states.Keys
    ensures FinishMatching(a, keys, at, v) == (AllFinished(a, keys), PartOutputs(a, SortOf(keys, KeyRank), at, v))
    ensures Elements(SortOf(keys, KeyRank)) == keys && Distinct(SortOf(keys, KeyRank))
  {
    var sorted := SortOf(keys, KeyRank);
    KeyRankTotal(keys);
    SortedDistinct(sorted, KeyRank);
    assert Elements(sorted) == keys;
    FinishKeysClosed(a, sorted, at, v);
  }

  /** The parts of one output in the order in which they are joined. */
  ghost function SortedParts(a: Acc, outputIndex: int, kind: Kind): (r: seq<Key>)
    requires KeysOK(a)
    ensures forall k :: k in r <==> k in PartKeys(a, outputIndex, kind)
    ensures Distinct(r)
  {
    var r := SortOf(PartKeys(a, outputIndex, kind), PartRank);
    PartRankTotal(a, outputIndex, kind);
    SortedDistinct(r, PartRank);
    r
  }

  ghost function Merged(a: Acc, keys: seq<Key>, at: int, v: Verdict): seq<Output>
    requires forall k :: k in keys ==> k in a.states
  {
    var parts := PartOutputs(a, keys, at, v);
    if parts == [] then [] else [MergeOutputs(parts, at, a.limit, a.limited)]
  }

  lemma FinishOutputKindClosed(a: Acc, outputIndex: int, kind: Kind, at: int, v: Verdict)
    requires KeysOK(a)
    ensures FinishOutputKind(a, outputIndex, kind, at, v)
         == (AllFinished(a, PartKeys(a, outputIndex, kind)), Merged(a, SortedParts(a, outputIndex, kind), at, v))
  {
    var sorted := SortedParts(a, outputIndex, kind);
    assert Elements(sorted) == PartKeys(a, outputIndex, kind);
    FinishKeysClosed(a, sorted, at, v);
  }

  /** There are outputs exactly when some part holds data. */
  lemma {:induction false} PartOutputsEmpty(a: Acc, keys: seq<Key>, at: int, v: Verdict)
    requires forall k :: k in keys ==> k in a.states
    ensures PartOutputs(a, keys, at, v) == [] <==> DataKeys(a, Elements(keys)) == {}
  {
    if keys != [] {
      PartOutputsEmpty(a, keys[1..], at, v);
      ElementsStep(keys);
      if HasData(a.states[keys[0]]) {
        assert keys[0] in DataKeys(a, Elements(keys));
      } else {
        assert DataKeys(a, Elements(keys)) == DataKeys(a, Elements(keys[1..]));
      }
    }
  }
}

/**
 * What the body splitter computes: the entries of the traversal grouped by path, within the
 * caps; and, when it reports no limit, every scalar leaf of the body.
 */
module BodyGrouping {
  import opened Bytes
  import opened BodySplitting

  // ---------- Grouping ----------

  /** Entries grouped by path with no caps: the paths in the order in which they first occur. */
  datatype Tally = Tally(paths: seq<Bytes>, values: map<Bytes, seq<Bytes>>, raw: bool)

  const NO_TALLY := Tally([], map[], false)

  function ValuesOf(t: Tally, path: Bytes): seq<Bytes> {
    if path in t.values then t.values[path] else []
  }

  function Tallied(t: Tally, e: Entry): Tally {
    Tally(if e.path in t.values then t.paths else t.paths + [e.path],
      t.values[e.path := ValuesOf(t, e.path) + [e.value]], t.raw || e.isRaw)
  }

  function AllTallied(t: Tally, entries: seq<Entry>): Tally
    decreases |entries|
  {
    if entries == [] then t else AllTallied(Tallied(t, entries[0]), entries[1..])
  }

  ghost predicate TallyOK(t: Tally) {
    && (forall i, j :: 0 <= i < j < |t.paths| ==> t.paths[i] != t.paths[j])
    && (forall p :: p in t.values <==> p in t.paths)
    && (forall p :: p in t.values ==> t.values[p] != [])
  }

  function Kept<T>(s: seq<T>, n: nat): seq<T> {
    if |s| <= n then s else s[..n]
  }

  function KeptPaths(t: Tally): seq<Bytes> {
    Kept(t.paths, MAX_SPLIT_BODY_ATTRIBUTES)
  }

  function KeptValues(t: Tally): map<Bytes, seq<Bytes>> {
    map p | p in KeptPaths(t) :: Kept(ValuesOf(t, p), MAX_SPLIT_BODY_VALUES)
  }

  predicate TooManyValues(t: Tally) {
    exists p :: p in KeptPaths(t) && |ValuesOf(t, p)| > MAX_SPLIT_BODY_VALUES
  }

  predicate CutShort(t: Tally) {
    t.raw || |t.paths| > MAX_SPLIT_BODY_ATTRIBUTES || TooManyValues(t)
  }

  /** The first 256 paths, the first 256 values of each, and whether anything was left out or emitted raw. */
  function Capped(t: Tally): Split {
    Split(KeptPaths(t), KeptValues(t), CutShort(t))
  }

  lemma KeptCount(t: Tally)
    requires TallyOK(t)
    ensures |KeptValues(t)| == |KeptPaths(t)|
  {
    DistinctCount(KeptPaths(t), KeptValues(t).Keys);
    assert |KeptValues(t).Keys| == |KeptValues(t)|;
  }

  lemma KeptMore<T>(s: seq<T>, x: T, n: nat)
    ensures Kept(s + [x], n) == if |Kept(s, n)| >= n then Kept(s, n) else Kept(s, n) + [x]
  {
    if |s| == n {
      assert (s + [x])[..n] == s;
    } else if |s| > n {
      assert (s + [x])[..n] == s[..n];
    }
  }

  lemma TalliedOK(t: Tally, e: Entry)
    requires TallyOK(t)
    ensures TallyOK(Tallied(t, e))
  {
  }

  /** An entry for a path that is kept already. */
  lemma KnownPathStep(t: Tally, e: Entry)
    requires TallyOK(t) && e.path in KeptPaths(t)
    ensures EntryEmitted(Capped(t), e) == Capped(Tallied(t, e))
  {
    KnownPathKept(t, e);
    KnownPathValues(t, Tallied(t, e), e);
    ManyValuesStep(t, e);
  }

  lemma KnownPathKept(t: Tally, e: Entry)
    requires TallyOK(t) && e.path in KeptPaths(t)
    ensures e.path in t.paths && Tallied(t, e).paths == t.paths
  {
  }

  lemma KnownPathValues(t: Tally, u: Tally, e: Entry)
    requires e.path in KeptPaths(t) && u.paths == t.paths
    requires u.values == t.values[e.path := ValuesOf(t, e.path) + [e.value]]
    ensures var was := Kept(ValuesOf(t, e.path), MAX_SPLIT_BODY_VALUES);
            KeptValues(u) ==
            if |was| >= MAX_SPLIT_BODY_VALUES then KeptValues(t) else KeptValues(t)[e.path := was + [e.value]]
  {
    KeptMore(ValuesOf(t, e.path), e.value, MAX_SPLIT_BODY_VALUES);
    var was := Kept(ValuesOf(t, e.path), MAX_SPLIT_BODY_VALUES);
    var x := KeptValues(u);
    var y := if |was| >= MAX_SPLIT_BODY_VALUES then KeptValues(t) else KeptValues(t)[e.path := was + [e.value]];
    assert x.Keys == y.Keys;
    forall p | p in x.Keys ensures x[p] == y[p] {
      assert p != e.path ==> ValuesOf(u, p) == ValuesOf(t, p);
    }
  }

  lemma ManyValuesStep(t: Tally, e: Entry)
    requires TallyOK(t) && e.path in KeptPaths(t)
    ensures TooManyValues(Tallied(t, e)) <==> TooManyValues(t) || |ValuesOf(t, e.path)| >= MAX_SPLIT_BODY_VALUES
  {
    var u := Tallied(t, e);
    assert e.path in t.paths && KeptPaths(u) == KeptPaths(t);
    if TooManyValues(t) {
      var p :| p in KeptPaths(t) && |ValuesOf(t, p)| > MAX_SPLIT_BODY_VALUES;
      assert |ValuesOf(u, p)| > MAX_SPLIT_BODY_VALUES;
    }
    if |ValuesOf(t, e.path)| >= MAX_SPLIT_BODY_VALUES {
      assert |ValuesOf(u, e.path)| > MAX_SPLIT_BODY_VALUES;
    }
  }

  /** An entry for a path that was left out, or is left out now. */
  lemma LeftOutStep(t: Tally, e: Entry)
    requires TallyOK(t) && e.path !in KeptPaths(t) && |t.paths| >= MAX_SPLIT_BODY_ATTRIBUTES
    ensures EntryEmitted(Capped(t), e) == Capped(Tallied(t, e))
  {
    KeptCount(t);
    LeftOutPaths(t, e);
    LeftOutValues(t, Tallied(t, e), e);
  }

  lemma LeftOutPaths(t: Tally, e: Entry)
    requires TallyOK(t) && e.path !in KeptPaths(t) && |t.paths| >= MAX_SPLIT_BODY_ATTRIBUTES
    ensures var u := Tallied(t, e);
            && KeptPaths(u) == KeptPaths(t) && |KeptPaths(t)| == MAX_SPLIT_BODY_ATTRIBUTES
            && |u.paths| > MAX_SPLIT_BODY_ATTRIBUTES
  {
    KeptMore(t.paths, e.path, MAX_SPLIT_BODY_ATTRIBUTES);
    assert |t.paths| == MAX_SPLIT_BODY_ATTRIBUTES ==> KeptPaths(t) == t.paths;
  }

  lemma LeftOutValues(t: Tally, u: Tally, e: Entry)
    requires KeptPaths(u) == KeptPaths(t) && e.path !in KeptPaths(t)
    requires u.values == t.values[e.path := ValuesOf(t, e.path) + [e.value]]
    ensures KeptValues(u) == KeptValues(t)
  {
    forall p | p in KeptPaths(t) ensures ValuesOf(u, p) == ValuesOf(t, p) {
    }
  }

  lemma NewPathStep(t: Tally, e: Entry)
    requires TallyOK(t) && e.path !in t.paths && |t.paths| < MAX_SPLIT_BODY_ATTRIBUTES
    ensures EntryEmitted(Capped(t), e) == Capped(Tallied(t, e))
  {
    KeptCount(t);
    NewPathKept(t, e);
    assert [] + [e.value] == [e.value];
    NewManyValues(t, e);
  }

  lemma NewPathKept(t: Tally, e: Entry)
    requires TallyOK(t) && e.path !in t.paths && |t.paths| < MAX_SPLIT_BODY_ATTRIBUTES
    ensures KeptPaths(Tallied(t, e)) == KeptPaths(t) + [e.path]
    ensures KeptValues(Tallied(t, e)) == KeptValues(t)[e.path := [e.value]]
  {
    var u := Tallied(t, e);
    assert KeptPaths(u) == KeptPaths(t) + [e.path];
    assert [] + [e.value] == [e.value];
    NewValuesKept(t, u, e);
  }

  lemma NewValuesKept(t: Tally, u: Tally, e: Entry)
    requires e.path !in KeptPaths(t) && KeptPaths(u) == KeptPaths(t) + [e.path]
    requires u.values == t.values[e.path := [e.value]]
    ensures KeptValues(u) == KeptValues(t)[e.path := [e.value]]
  {
    var x, y := KeptValues(u), KeptValues(t)[e.path := [e.value]];
    assert x.Keys == y.Keys;
    forall p | p in x.Keys ensures x[p] == y[p] {
      assert p != e.path ==> ValuesOf(u, p) == ValuesOf(t, p);
    }
  }

  lemma NewManyValues(t: Tally, e: Entry)
    requires TallyOK(t) && e.path !in t.paths && |t.paths| < MAX_SPLIT_BODY_ATTRIBUTES
    ensures TooManyValues(Tallied(t, e)) <==> TooManyValues(t)
  {
    var u := Tallied(t, e);
    if TooManyValues(t) {
      var p :| p in KeptPaths(t) && |ValuesOf(t, p)| > MAX_SPLIT_BODY_VALUES;
      assert p in KeptPaths(u) && |ValuesOf(u, p)| > MAX_SPLIT_BODY_VALUES;
    }
  }

  lemma CappedStep(t: Tally, e: Entry)
    requires TallyOK(t)
    ensures EntryEmitted(Capped(t), e) == Capped(Tallied(t, e))
  {
    if e.path in KeptPaths(t) {
      KnownPathStep(t, e);
    } else if |t.paths| >= MAX_SPLIT_BODY_ATTRIBUTES {
      LeftOutStep(t, e);
    } else {
      NewPathStep(t, e);
    }
  }

  lemma {:induction false} EmittedIsCapped(t: Tally, entries: seq<Entry>)
    requires TallyOK(t)
    ensures AllEmitted(Capped(t), entries) == Capped(AllTallied(t, entries))
    ensures TallyOK(AllTallied(t, entries))
    decreases |entries|
  {
    if entries != [] {
      CappedStep(t, entries[0]);
      TalliedOK(t, entries[0]);
      EmittedIsCapped(Tallied(t, entries[0]), entries[1..]);
    }
  }

  /** Emitting the entries one by one is grouping them by path and then cutting the groups at the caps. */
  lemma SplitterGroups(entries: seq<Entry>)
    ensures AllEmitted(NOTHING, entries) == Capped(AllTallied(NO_TALLY, entries))
    ensures TallyOK(AllTallied(NO_TALLY, entries))
  {
    assert Capped(NO_TALLY) == NOTHING by {
      assert KeptValues(NO_TALLY) == map[];
    }
    EmittedIsCapped(NO_TALLY, entries);
  }

  /** The values of one path, in order. */
  function ValuesAt(entries: seq<Entry>, path: Bytes): seq<Bytes> {
    if entries == [] then []
    else (if entries[0].path == path then [entries[0].value] else []) + ValuesAt(entries[1..], path)
  }

  /** A group holds the values of its path in order, and paths keep the order in which they came. */
  lemma {:induction false} TallyMeaning(t: Tally, entries: seq<Entry>, path: Bytes)
    ensures ValuesOf(AllTallied(t, entries), path) == ValuesOf(t, path) + ValuesAt(entries, path)
    ensures t.paths <= AllTallied(t, entries).paths
    decreases |entries|
  {
    if entries == [] {
      assert ValuesOf(t, path) + [] == ValuesOf(t, path);
    } else {
      var e, rest := entries[0], ValuesAt(entries[1..], path);
      TallyMeaning(Tallied(t, e), entries[1..], path);
      Associative(ValuesOf(t, path), [e.value], rest);
      assert [] + rest == rest;
    }
  }

  lemma TallyOfAll(entries: seq<Entry>, path: Bytes)
    ensures ValuesOf(AllTallied(NO_TALLY, entries), path) == ValuesAt(entries, path)
  {
    TallyMeaning(NO_TALLY, entries, path);
    assert [] + ValuesAt(entries, path) == ValuesAt(entries, path);
  }

  // ---------- Leaves ----------

  /** The scalar leaves of a tree with their paths, in source order and at any depth. */
  function Leaves(path: Bytes, j: JSON): seq<(Bytes, Bytes)>
    decreases j
  {
    match j
    case Leaf(_, _) => [(path, LeafString(j))]
    case Array(_, elements) => LeavesOfElements(path, elements)
    case Object(_, fields) => LeavesOfFields(path, fields)
  }

  function LeavesOfElements(path: Bytes, elements: seq<JSON>): seq<(Bytes, Bytes)>
    decreases elements
  {
    if elements == [] then [] else Leaves(path, elements[0]) + LeavesOfElements(path, elements[1..])
  }

  function LeavesOfFields(path: Bytes, fields: seq<Field>): seq<(Bytes, Bytes)>
    decreases fields
  {
    if fields == [] then []
    else Leaves(path + "." + fields[0].name, fields[0].value) + LeavesOfFields(path, fields[1..])
  }

  function Pairs(entries: seq<Entry>): seq<(Bytes, Bytes)> {
    if entries == [] then [] else [(entries[0].path, entries[0].value)] + Pairs(entries[1..])
  }

  lemma {:induction false} PairsAppend(x: seq<Entry>, y: seq<Entry>)
    ensures Pairs(x + y) == Pairs(x) + Pairs(y)
    decreases |x|
  {
    if x == [] {
      assert x + y == y;
    } else {
      assert (x + y)[0] == x[0] && (x + y)[1..] == x[1..] + y;
      PairsAppend(x[1..], y);
    }
  }

  // ---------- The order of the fields ----------

  predicate InOrder(fields: seq<Field>) {
    forall i, j :: 0 <= i < j < |fields| ==> NameLess(fields[i].name, fields[j].name)
  }

  lemma {:induction false} InsertInOrder(f: Field, sorted: seq<Field>)
    requires InOrder(sorted) && forall i :: 0 <= i < |sorted| ==> sorted[i].name != f.name
    ensures InOrder(InsertField(f, sorted))
    ensures forall x :: x in InsertField(f, sorted) <==> x == f || x in sorted
    decreases |sorted|
  {
    if sorted == [] {
    } else if NameLess(f.name, sorted[0].name) {
      forall i | 0 <= i < |sorted| ensures NameLess(f.name, sorted[i].name) {
        if i > 0 {
          NameLessTransitive(f.name, sorted[0].name, sorted[i].name);
        }
      }
    } else {
      NameLessTotal(f.name, sorted[0].name);
      var rest := InsertField(f, sorted[1..]);
      InsertInOrder(f, sorted[1..]);
      forall i | 0 <= i < |rest| ensures NameLess(sorted[0].name, rest[i].name) {
        assert rest[i] in rest;
      }
      assert sorted == [sorted[0]] + sorted[1..];
    }
  }

  /** The fields of an object are visited in the order of their names, each of them. */
  lemma {:induction false} FieldsInOrder(fields: seq<Field>)
    requires SplittableFields(fields)
    ensures InOrder(SortFields(fields))
    ensures forall f :: f in SortFields(fields) <==> f in fields
  {
    if fields != [] {
      FieldsInOrder(fields[1..]);
      var sorted := SortFields(fields[1..]);
      forall i | 0 <= i < |sorted| ensures sorted[i].name != fields[0].name {
        assert sorted[i] in sorted && sorted[i] in fields[1..];
      }
      InsertInOrder(fields[0], sorted);
      assert fields == [fields[0]] + fields[1..];
    }
  }

  lemma {:induction false} InsertKeepsLeaves(path: Bytes, f: Field, sorted: seq<Field>)
    ensures multiset(LeavesOfFields(path, InsertField(f, sorted)))
         == multiset(Leaves(path + "." + f.name, f.value)) + multiset(LeavesOfFields(path, sorted))
    decreases |sorted|
  {
    var own := Leaves(path + "." + f.name, f.value);
    if sorted == [] || NameLess(f.name, sorted[0].name) {
      assert ([f] + sorted)[0] == f && ([f] + sorted)[1..] == sorted;
    } else {
      var rest := InsertField(f, sorted[1..]);
      InsertKeepsLeaves(path, f, sorted[1..]);
      assert ([sorted[0]] + rest)[0] == sorted[0] && ([sorted[0]] + rest)[1..] == rest;
    }
  }

  /** Sorting the fields changes the order of the leaves only. */
  lemma {:induction false} SortKeepsLeaves(path: Bytes, fields: seq<Field>)
    ensures multiset(LeavesOfFields(path, SortFields(fields))) == multiset(LeavesOfFields(path, fields))
  {
    if fields != [] {
      SortKeepsLeaves(path, fields[1..]);
      InsertKeepsLeaves(path, fields[0], SortFields(fields[1..]));
    }
  }

  predicate AnyRaw(entries: seq<Entry>) {
    exists i :: 0 <= i < |entries| && entries[i].isRaw
  }

  lemma AnyRawAppend(x: seq<Entry>, y: seq<Entry>)
    requires !AnyRaw(x + y)
    ensures !AnyRaw(x) && !AnyRaw(y)
  {
    assert forall i :: 0 <= i < |x| ==> (x + y)[i] == x[i];
    assert forall i :: 0 <= i < |y| ==> (x + y)[|x| + i] == y[i];
  }

  /** A traversal that emits nothing raw emits every leaf, and nothing else. */
  lemma {:induction false} VisitLeaves(path: Bytes, j: JSON, depth: nat)
    requires !AnyRaw(Visit(path, j, depth))
    ensures multiset(Pairs(Visit(path, j, depth))) == multiset(Leaves(path, j))
    decreases MAX_SPLIT_BODY_DEPTH + 1 - depth, 0, 0
  {
    match j
    case Leaf(_, _) =>
      assert Pairs(Visit(path, j, depth)) == [(path, LeafString(j))] by {
        assert Visit(path, j, depth)[1..] == [];
      }
    case Array(raw, elements) =>
      assert depth <= MAX_SPLIT_BODY_DEPTH by {
        assert [Entry(path, raw, true)][0].isRaw;
      }
      VisitElementsLeaves(path, elements, depth + 1);
    case Object(raw, fields) =>
      assert depth <= MAX_SPLIT_BODY_DEPTH && SplittableFields(fields) by {
        assert [Entry(path, raw, true)][0].isRaw;
      }
      VisitFieldsLeaves(path, SortFields(fields), depth + 1);
      SortKeepsLeaves(path, fields);
  }

  lemma {:induction false} VisitElementsLeaves(path: Bytes, elements: seq<JSON>, depth: nat)
    requires !AnyRaw(VisitElements(path, elements, depth))
    ensures multiset(Pairs(VisitElements(path, elements, depth))) == multiset(LeavesOfElements(path, elements))
    decreases MAX_SPLIT_BODY_DEPTH + 1 - depth, 1, |elements|
  {
    if elements != [] {
      var x, y := Visit(path, elements[0], depth), VisitElements(path, elements[1..], depth);
      AnyRawAppend(x, y);
      PairsAppend(x, y);
      VisitLeaves(path, elements[0], depth);
      VisitElementsLeaves(path, elements[1..], depth);
    }
  }

  lemma {:induction false} VisitFieldsLeaves(path: Bytes, fields: seq<Field>, depth: nat)
    requires !AnyRaw(VisitFields(path, fields, depth))
    ensures multiset(Pairs(VisitFields(path, fields, depth))) == multiset(LeavesOfFields(path, fields))
    decreases MAX_SPLIT_BODY_DEPTH + 1 - depth, 1, |fields|
  {
    if fields != [] {
      var x := Visit(path + "." + fields[0].name, fields[0].value, depth);
      var y := VisitFields(path, fields[1..], depth);
      AnyRawAppend(x, y);
      PairsAppend(x, y);
      VisitLeaves(path + "." + fields[0].name, fields[0].value, depth);
      VisitFieldsLeaves(path, fields[1..], depth);
    }
  }

  // ---------- Messages ----------

  /** The leaves of a message: all but its own role, under the role that it names. */
  function MessageLeaves(base: Bytes, message: JSON): seq<(Bytes, Bytes)> {
    if message.Object? then LeavesOfFields(base + "." + RoleOf(message.fields), WithoutRole(message.fields))
    else Leaves(base + "." + DEFAULT_MESSAGE_ROLE, message)
  }

  function MessagesLeaves(base: Bytes, messages: seq<JSON>): seq<(Bytes, Bytes)> {
    if messages == [] then [] else MessageLeaves(base, messages[0]) + MessagesLeaves(base, messages[1..])
  }

  lemma {:induction false} InsertWithoutRole(path: Bytes, f: Field, sorted: seq<Field>)
    ensures multiset(LeavesOfFields(path, WithoutRole(InsertField(f, sorted))))
         == multiset(LeavesOfFields(path, WithoutRole([f]))) + multiset(LeavesOfFields(path, WithoutRole(sorted)))
    decreases |sorted|
  {
    assert WithoutRole([f]) == (if f.name == MESSAGE_ROLE_FIELD then [] else [f]) by { assert [f][1..] == []; }
    if sorted == [] || NameLess(f.name, sorted[0].name) {
      assert ([f] + sorted)[0] == f && ([f] + sorted)[1..] == sorted;
      FirstWithoutRole(path, f, sorted);
    } else {
      var rest := InsertField(f, sorted[1..]);
      InsertWithoutRole(path, f, sorted[1..]);
      assert ([sorted[0]] + rest)[0] == sorted[0] && ([sorted[0]] + rest)[1..] == rest;
      FirstWithoutRole(path, sorted[0], rest);
      FirstWithoutRole(path, sorted[0], sorted[1..]);
    }
  }

  lemma FirstWithoutRole(path: Bytes, f: Field, rest: seq<Field>)
    ensures LeavesOfFields(path, WithoutRole([f] + rest))
         == LeavesOfFields(path, WithoutRole([f])) + LeavesOfFields(path, WithoutRole(rest))
  {
    assert ([f] + rest)[1..] == rest && [f][1..] == [];
    var own, more := WithoutRole([f]), WithoutRole(rest);
    if f.name == MESSAGE_ROLE_FIELD {
      assert own == [] && [] + more == more;
    } else {
      assert own == [f] && ([f] + more)[1..] == more;
    }
  }

  lemma {:induction false} SortWithoutRole(path: Bytes, fields: seq<Field>)
    ensures multiset(LeavesOfFields(path, WithoutRole(SortFields(fields))))
         == multiset(LeavesOfFields(path, WithoutRole(fields)))
  {
    if fields != [] {
      SortWithoutRole(path, fields[1..]);
      InsertWithoutRole(path, fields[0], SortFields(fields[1..]));
      FirstWithoutRole(path, fields[0], fields[1..]);
      assert fields == [fields[0]] + fields[1..];
    }
  }

  lemma VisitMessageLeaves(base: Bytes, message: JSON)
    requires !AnyRaw(VisitMessage(base, message))
    ensures multiset(Pairs(VisitMessage(base, message))) == multiset(MessageLeaves(base, message))
  {
    if !message.Object? {
      VisitLeaves(base + "." + DEFAULT_MESSAGE_ROLE, message, 2);
    } else {
      assert SplittableFields(message.fields) by {
        assert [Entry(base + "." + DEFAULT_MESSAGE_ROLE, message.raw, true)][0].isRaw;
      }
      var path := base + "." + RoleOf(message.fields);
      VisitFieldsLeaves(path, WithoutRole(SortFields(message.fields)), 2);
      SortWithoutRole(path, message.fields);
    }
  }

  lemma {:induction false} VisitMessagesLeaves(base: Bytes, messages: seq<JSON>)
    requires !AnyRaw(VisitMessages(base, messages))
    ensures multiset(Pairs(VisitMessages(base, messages))) == multiset(MessagesLeaves(base, messages))
  {
    if messages != [] {
      AnyRawAppend(VisitMessage(base, messages[0]), VisitMessages(base, messages[1..]));
      PairsAppend(VisitMessage(base, messages[0]), VisitMessages(base, messages[1..]));
      VisitMessageLeaves(base, messages[0]);
      VisitMessagesLeaves(base, messages[1..]);
    }
  }

  // ---------- Whole bodies ----------

  function FieldLeaves(key: Bytes, f: Field): seq<(Bytes, Bytes)> {
    if f.name == MESSAGES_BODY_FIELD && f.value.Array? then
      MessagesLeaves(key + "." + MESSAGE_BODY_PREFIX, f.value.elements)
    else if f.value.Leaf? then []
    else Leaves(key + "." + f.name, f.value)
  }

  /** The leaves of a body that are not fields of its own. */
  function BodyLeaves(key: Bytes, fields: seq<Field>): seq<(Bytes, Bytes)> {
    if fields == [] then [] else FieldLeaves(key, fields[0]) + BodyLeaves(key, fields[1..])
  }

  lemma FieldEntriesLeaves(key: Bytes, f: Field)
    requires !AnyRaw(FieldEntries(key, f))
    ensures multiset(Pairs(FieldEntries(key, f))) == multiset(FieldLeaves(key, f))
  {
    if f.name == MESSAGES_BODY_FIELD && f.value.Array? {
      VisitMessagesLeaves(key + "." + MESSAGE_BODY_PREFIX, f.value.elements);
    } else if !f.value.Leaf? {
      VisitLeaves(key + "." + f.name, f.value, 1);
    }
  }

  lemma {:induction false} BodyEntriesLeaves(key: Bytes, fields: seq<Field>)
    requires !AnyRaw(BodyEntries(key, fields))
    ensures multiset(Pairs(BodyEntries(key, fields))) == multiset(BodyLeaves(key, fields))
  {
    if fields != [] {
      AnyRawAppend(FieldEntries(key, fields[0]), BodyEntries(key, fields[1..]));
      PairsAppend(FieldEntries(key, fields[0]), BodyEntries(key, fields[1..]));
      FieldEntriesLeaves(key, fields[0]);
      BodyEntriesLeaves(key, fields[1..]);
    }
  }

  lemma {:induction false} CountAt(entries: seq<Entry>, path: Bytes, value: Bytes)
    ensures multiset(ValuesAt(entries, path))[value] == multiset(Pairs(entries))[(path, value)]
    decreases |entries|
  {
    if entries != [] {
      CountAt(entries[1..], path, value);
    }
  }

  /** How often a value is recorded under a path. */
  function Recorded(s: Split, path: Bytes, value: Bytes): nat {
    if path in s.values then multiset(s.values[path])[value] else 0
  }

  lemma UnlimitedRecords(entries: seq<Entry>, path: Bytes, value: Bytes)
    requires !AllEmitted(NOTHING, entries).limited
    ensures Recorded(AllEmitted(NOTHING, entries), path, value) == multiset(Pairs(entries))[(path, value)]
  {
    var t := AllTallied(NO_TALLY, entries);
    SplitterGroups(entries);
    TallyOfAll(entries, path);
    CountAt(entries, path, value);
    UncutRecords(t, path, value);
  }

  lemma UncutRecords(t: Tally, path: Bytes, value: Bytes)
    requires TallyOK(t) && !CutShort(t)
    ensures Recorded(Capped(t), path, value) == multiset(ValuesOf(t, path))[value]
  {
  }

  lemma {:induction false} RawTallied(t: Tally, entries: seq<Entry>)
    ensures AllTallied(t, entries).raw <==> t.raw || AnyRaw(entries)
    decreases |entries|
  {
    if entries != [] {
      RawTallied(Tallied(t, entries[0]), entries[1..]);
      assert entries == [entries[0]] + entries[1..];
      if AnyRaw(entries[1..]) {
        var i :| 0 <= i < |entries[1..]| && entries[1..][i].isRaw;
        assert entries[i + 1].isRaw;
      }
    }
  }

  /**
   * A body that is split without reporting a limit has every scalar leaf of it recorded under its
   * path as often as it occurs, a message's own role excepted, and records nothing else.
   */
  lemma NothingLost(key: Bytes, root: JSON, path: Bytes, value: Bytes)
    requires BodySplit(key, root).Some? && !BodySplit(key, root).value.split.limited
    ensures Recorded(BodySplit(key, root).value.split, path, value)
         == multiset(BodyLeaves(key, root.fields))[(path, value)]
  {
    UnlimitedLeaves(key, root.fields, path, value);
  }

  lemma UnlimitedLeaves(key: Bytes, fields: seq<Field>, path: Bytes, value: Bytes)
    requires !AllEmitted(NOTHING, BodyEntries(key, fields)).limited
    ensures Recorded(AllEmitted(NOTHING, BodyEntries(key, fields)), path, value)
         == multiset(BodyLeaves(key, fields))[(path, value)]
  {
    var entries := BodyEntries(key, fields);
    SplitterGroups(entries);
    RawTallied(NO_TALLY, entries);
    BodyEntriesLeaves(key, fields);
    UnlimitedRecords(entries, path, value);
  }

  /** The limit is reported exactly when something was emitted raw, or a path or a value was left out. */
  lemma LimitedExactly(entries: seq<Entry>)
    ensures var t := AllTallied(NO_TALLY, entries);
            AllEmitted(NOTHING, entries).limited <==>
              AnyRaw(entries) || |t.paths| > MAX_SPLIT_BODY_ATTRIBUTES
              || exists p :: p in KeptPaths(t) && |ValuesAt(entries, p)| > MAX_SPLIT_BODY_VALUES
  {
    var t := AllTallied(NO_TALLY, entries);
    SplitterGroups(entries);
    RawTallied(NO_TALLY, entries);
    forall p ensures ValuesOf(t, p) == ValuesAt(entries, p) {
      TallyOfAll(entries, p);
    }
  }
}

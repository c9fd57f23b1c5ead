/**
 * What a body is split into, told without the traversal: which values are shown under which path
 * and in which order, and where a container is shown whole.
 */
module BodyMeaning {
  import opened Bytes
  import opened BodySplitting
  import opened BodyGrouping

  // ---------- Names ----------

  /** An ASCII letter or digit, a full stop, an underscore or a hyphen, by their codes. */
  predicate NameLetter(c: char) {
    var n := c as int;
    97 <= n <= 122 || 65 <= n <= 90 || 48 <= n <= 57 || n == 46 || n == 95 || n == 45
  }

  predicate GoodName(name: Bytes) {
    1 <= |name| <= 128 && forall i :: 0 <= i < |name| ==> NameLetter(name[i])
  }

  /** Every field has a good name and no two have the same. */
  predicate WellNamed(fields: seq<Field>) {
    && (forall f :: f in fields ==> GoodName(f.name))
    && forall i, j :: 0 <= i < |fields| && 0 <= j < |fields| && fields[i].name == fields[j].name ==> i == j
  }

  lemma NameMeans(name: Bytes)
    ensures ValidBodyFieldName(name) <==> GoodName(name)
  {
    assert forall c :: FieldNameChar(c) <==> NameLetter(c);
  }

  lemma NamesMean(fields: seq<Field>)
    ensures SplittableFields(fields) <==> WellNamed(fields)
  {
    forall f: Field ensures ValidBodyFieldName(f.name) <==> GoodName(f.name) {
      NameMeans(f.name);
    }
    if WellNamed(fields) {
      assert forall i :: 0 <= i < |fields| ==> fields[i] in fields;
    }
  }

  // ---------- The order of fields ----------

  /** The fields in the order of their names, without one. */
  ghost predicate ByName(sorted: seq<Field>, fields: seq<Field>, but: Bytes) {
    BodyGrouping.InOrder(sorted) && forall f :: f in sorted <==> f in fields && f.name != but
  }

  lemma {:induction false} NameLessIrreflexive(a: Bytes)
    ensures !NameLess(a, a)
  {
    if a != "" {
      NameLessIrreflexive(a[1..]);
    }
  }

  lemma SameFirstField(a: seq<Field>, b: seq<Field>)
    requires BodyGrouping.InOrder(a) && BodyGrouping.InOrder(b) && a != [] && b != []
    requires forall f :: f in a <==> f in b
    ensures a[0] == b[0]
  {
    if a[0] != b[0] {
      assert a[0] in b && b[0] in a;
      var i :| 0 <= i < |b| && b[i] == a[0];
      var j :| 0 <= j < |a| && a[j] == b[0];
      NameLessTransitive(a[0].name, b[0].name, a[0].name);
      NameLessIrreflexive(a[0].name);
    }
  }

  lemma OtherFields(a: seq<Field>)
    requires BodyGrouping.InOrder(a) && a != []
    ensures BodyGrouping.InOrder(a[1..]) && forall f :: f in a[1..] <==> f in a && f != a[0]
  {
    NameLessIrreflexive(a[0].name);
    assert a == [a[0]] + a[1..];
    forall f | f in a[1..] ensures f != a[0] {
      var i :| 0 <= i < |a[1..]| && a[1..][i] == f;
      assert a[i + 1] == f;
    }
  }

  /** There is one such order. */
  lemma {:induction false} ByNameUnique(a: seq<Field>, b: seq<Field>)
    requires BodyGrouping.InOrder(a) && BodyGrouping.InOrder(b) && forall f :: f in a <==> f in b
    ensures a == b
    decreases |a|
  {
    assert (a != [] ==> a[0] in b) && (b != [] ==> b[0] in a);
    if a != [] && b != [] {
      SameFirstField(a, b);
      OtherFields(a);
      OtherFields(b);
      ByNameUnique(a[1..], b[1..]);
      assert a == [a[0]] + a[1..] && b == [b[0]] + b[1..];
    }
  }

  lemma {:induction false} WithoutRoleKeeps(sorted: seq<Field>)
    requires BodyGrouping.InOrder(sorted)
    ensures ByName(WithoutRole(sorted), sorted, "role")
  {
    if sorted != [] {
      var rest := sorted[1..];
      OtherFields(sorted);
      WithoutRoleKeeps(rest);
      assert forall f :: f in rest ==> NameLess(sorted[0].name, f.name) by {
        forall f | f in rest ensures NameLess(sorted[0].name, f.name) {
          var i :| 0 <= i < |rest| && rest[i] == f;
          assert sorted[i + 1] == f;
        }
      }
      FirstByName(sorted[0], WithoutRole(rest));
      assert [] + WithoutRole(rest) == WithoutRole(rest);
    }
  }

  lemma FirstByName(f: Field, rest: seq<Field>)
    requires BodyGrouping.InOrder(rest) && forall g :: g in rest ==> NameLess(f.name, g.name)
    ensures BodyGrouping.InOrder([f] + rest)
  {
  }

  /** The fields, sorted by name, without one; no good name is empty. */
  ghost function Ordered(fields: seq<Field>, but: Bytes): (sorted: seq<Field>)
    requires WellNamed(fields) && (but == "" || but == "role")
    ensures ByName(sorted, fields, but)
  {
    assert exists s :: ByName(s, fields, but) by { SomeOrder(fields, but); }
    var s :| ByName(s, fields, but);
    s
  }

  lemma SomeOrder(fields: seq<Field>, but: Bytes)
    requires WellNamed(fields) && (but == "" || but == "role")
    ensures ByName(if but == "" then SortFields(fields) else WithoutRole(SortFields(fields)), fields, but)
  {
    NamesMean(fields);
    FieldsInOrder(fields);
    WithoutRoleKeeps(SortFields(fields));
    assert forall f :: f in fields ==> GoodName(f.name);
  }

  lemma SortedIsOrdered(fields: seq<Field>)
    requires WellNamed(fields)
    ensures SortFields(fields) == Ordered(fields, "") && WithoutRole(SortFields(fields)) == Ordered(fields, "role")
  {
    SomeOrder(fields, "");
    SomeOrder(fields, "role");
    ByNameUnique(SortFields(fields), Ordered(fields, ""));
    ByNameUnique(WithoutRole(SortFields(fields)), Ordered(fields, "role"));
  }

  // ---------- Values ----------

  /**
   * What is shown of a value that may be opened for so many levels: its scalar leaves in order,
   * the fields of an object by their names; a container too deep, or with a name that is not
   * good or not the only one of its kind, is shown whole.
   */
  ghost function Shown(path: Bytes, j: JSON, levels: nat): seq<Entry>
    decreases levels, 0, 0
  {
    match j
    case Leaf(_, _) => [Entry(path, LeafString(j), false)]
    case Array(raw, elements) =>
      if levels == 0 then [Entry(path, raw, true)] else ElementsShown(path, elements, levels - 1)
    case Object(raw, fields) =>
      if levels == 0 || !WellNamed(fields) then [Entry(path, raw, true)]
      else FieldsShown(path, Ordered(fields, ""), levels - 1)
  }

  ghost function ElementsShown(path: Bytes, elements: seq<JSON>, levels: nat): seq<Entry>
    decreases levels, 1, |elements|
  {
    if elements == [] then [] else Shown(path, elements[0], levels) + ElementsShown(path, elements[1..], levels)
  }

  ghost function FieldsShown(path: Bytes, fields: seq<Field>, levels: nat): seq<Entry>
    decreases levels, 1, |fields|
  {
    if fields == [] then []
    else Shown(path + "." + fields[0].name, fields[0].value, levels) + FieldsShown(path, fields[1..], levels)
  }

  /** Eight levels of containers are opened. */
  lemma {:induction false} VisitShows(path: Bytes, j: JSON, depth: nat)
    requires depth <= 9
    ensures Visit(path, j, depth) == Shown(path, j, 9 - depth)
    decreases 9 - depth, 0, 0
  {
    match j
    case Leaf(_, _) =>
    case Array(raw, elements) =>
      if depth < 9 {
        ElementsShow(path, elements, depth + 1);
      }
    case Object(raw, fields) =>
      NamesMean(fields);
      if depth < 9 && WellNamed(fields) {
        SortedIsOrdered(fields);
        FieldsShow(path, SortFields(fields), depth + 1);
      }
  }

  lemma {:induction false} ElementsShow(path: Bytes, elements: seq<JSON>, depth: nat)
    requires depth <= 9
    ensures VisitElements(path, elements, depth) == ElementsShown(path, elements, 9 - depth)
    decreases 9 - depth, 1, |elements|
  {
    if elements != [] {
      VisitShows(path, elements[0], depth);
      ElementsShow(path, elements[1..], depth);
    }
  }

  lemma {:induction false} FieldsShow(path: Bytes, fields: seq<Field>, depth: nat)
    requires depth <= 9
    ensures VisitFields(path, fields, depth) == FieldsShown(path, fields, 9 - depth)
    decreases 9 - depth, 1, |fields|
  {
    if fields != [] {
      VisitShows(path + "." + fields[0].name, fields[0].value, depth);
      FieldsShow(path, fields[1..], depth);
    }
  }

  // ---------- Messages ----------

  /** The field is the role of its message: a string that could be the name of a field. */
  predicate NamesRole(f: Field) {
    f.name == "role" && f.value.Leaf? && f.value.isString && GoodName(f.value.text)
  }

  /** The role of a message is "default" unless it has one. */
  ghost predicate IsRole(role: Bytes, fields: seq<Field>) {
    if exists f :: f in fields && NamesRole(f) then exists f :: f in fields && NamesRole(f) && role == f.value.text
    else role == "default"
  }

  lemma {:induction false} NamedValue(fields: seq<Field>, name: Bytes)
    ensures match ValueNamed(fields, name)
            case None => forall f :: f in fields ==> f.name != name
            case Some(v) => Field(name, v) in fields
  {
    if fields != [] {
      NamedValue(fields[1..], name);
      assert fields == [fields[0]] + fields[1..];
    }
  }

  lemma RoleMeans(fields: seq<Field>)
    requires WellNamed(fields)
    ensures IsRole(RoleOf(fields), fields)
  {
    NamedValue(fields, "role");
    var role := ValueNamed(fields, "role");
    if role.Some? {
      NameMeans(if role.value.Leaf? then role.value.text else "");
      OnlyOneNamed(fields, Field("role", role.value));
    }
  }

  lemma OnlyOneNamed(fields: seq<Field>, f: Field)
    requires WellNamed(fields) && f in fields
    ensures forall g :: g in fields && g.name == f.name ==> g == f
  {
  }

  lemma RoleUnique(fields: seq<Field>, a: Bytes, b: Bytes)
    requires WellNamed(fields) && IsRole(a, fields) && IsRole(b, fields)
    ensures a == b
  {
    if f :| f in fields && NamesRole(f) {
      OnlyOneNamed(fields, f);
    }
  }

  ghost function RoleNamed(fields: seq<Field>): (role: Bytes)
    requires WellNamed(fields)
    ensures IsRole(role, fields)
  {
    assert exists role :: IsRole(role, fields) by { RoleMeans(fields); }
    var role :| IsRole(role, fields);
    role
  }

  /** A message is shown under its role, all but the role itself. */
  ghost function MessageShown(base: Bytes, message: JSON): seq<Entry> {
    if !message.Object? then Shown(base + ".default", message, 7)
    else if !WellNamed(message.fields) then [Entry(base + ".default", message.raw, true)]
    else FieldsShown(base + "." + RoleNamed(message.fields), Ordered(message.fields, "role"), 7)
  }

  ghost function MessagesShown(base: Bytes, messages: seq<JSON>): seq<Entry> {
    if messages == [] then [] else MessageShown(base, messages[0]) + MessagesShown(base, messages[1..])
  }

  lemma DefaultPath(base: Bytes)
    ensures base + "." + DEFAULT_MESSAGE_ROLE == base + ".default"
  {
  }

  lemma RoleIsNamed(fields: seq<Field>)
    requires WellNamed(fields)
    ensures RoleOf(fields) == RoleNamed(fields)
  {
    RoleMeans(fields);
    RoleUnique(fields, RoleOf(fields), RoleNamed(fields));
  }

  lemma FieldsOfMessageShow(base: Bytes, fields: seq<Field>)
    requires WellNamed(fields)
    ensures VisitFields(base + "." + RoleOf(fields), WithoutRole(SortFields(fields)), 2)
         == FieldsShown(base + "." + RoleNamed(fields), Ordered(fields, "role"), 7)
  {
    RoleIsNamed(fields);
    SortedIsOrdered(fields);
    FieldsShow(base + "." + RoleOf(fields), WithoutRole(SortFields(fields)), 2);
  }

  lemma MessageShows(base: Bytes, message: JSON)
    ensures VisitMessage(base, message) == MessageShown(base, message)
  {
    DefaultPath(base);
    if !message.Object? {
      VisitShows(base + ".default", message, 2);
    } else {
      NamesMean(message.fields);
      if WellNamed(message.fields) {
        FieldsOfMessageShow(base, message.fields);
      }
    }
  }

  lemma {:induction false} MessagesShow(base: Bytes, messages: seq<JSON>)
    ensures VisitMessages(base, messages) == MessagesShown(base, messages)
  {
    if messages != [] {
      MessageShows(base, messages[0]);
      MessagesShow(base, messages[1..]);
    }
  }

  // ---------- Whole bodies ----------

  ghost function FieldShown(key: Bytes, f: Field): seq<Entry> {
    if f.name == "messages" && f.value.Array? then MessagesShown(key + ".message", f.value.elements)
    else if f.value.Leaf? then []
    else Shown(key + "." + f.name, f.value, 8)
  }

  /** What is shown of the fields of a body that are no scalars, in the order of the fields. */
  ghost function BodyShown(key: Bytes, fields: seq<Field>): seq<Entry> {
    if fields == [] then [] else FieldShown(key, fields[0]) + BodyShown(key, fields[1..])
  }

  lemma FieldShows(key: Bytes, f: Field)
    ensures FieldEntries(key, f) == FieldShown(key, f)
  {
    assert key + "." + "message" == key + ".message";
    if f.name == "messages" && f.value.Array? {
      MessagesShow(key + ".message", f.value.elements);
    } else if !f.value.Leaf? {
      VisitShows(key + "." + f.name, f.value, 1);
    }
  }

  lemma {:induction false} BodyShows(key: Bytes, fields: seq<Field>)
    ensures BodyEntries(key, fields) == BodyShown(key, fields)
  {
    if fields != [] {
      FieldShows(key, fields[0]);
      BodyShows(key, fields[1..]);
    }
  }

  /** The scalar fields of a body are attributes of their own. */
  lemma {:induction false} ScalarsMean(key: Bytes, fields: seq<Field>, path: Bytes, leaf: JSON)
    ensures (path, leaf) in Scalars(key, fields)
       <==> exists f :: f in fields && f.value.Leaf? && path == key + "." + f.name && leaf == f.value
  {
    if fields != [] {
      ScalarsMean(key, fields[1..], path, leaf);
      assert fields == [fields[0]] + fields[1..];
    }
  }

  lemma SomethingRecorded(entries: seq<Entry>)
    requires entries != []
    ensures AllEmitted(NOTHING, entries).paths != []
  {
    SplitterGroups(entries);
    var first := Tallied(NO_TALLY, entries[0]);
    TallyMeaning(first, entries[1..], "");
    assert first.paths == [entries[0].path] && first.paths <= AllTallied(NO_TALLY, entries).paths;
  }

  lemma {:induction false} SomeScalar(key: Bytes, fields: seq<Field>)
    ensures Scalars(key, fields) != [] <==> exists f :: f in fields && f.value.Leaf?
  {
    if fields != [] {
      SomeScalar(key, fields[1..]);
      assert fields == [fields[0]] + fields[1..];
    }
  }

  /** What a body must be to be split, and what it then becomes. */
  lemma SplitsExactly(key: Bytes, root: JSON)
    ensures BodySplit(key, root).Some?
       <==> && root.Object? && WellNamed(root.fields) && 1 <= |root.fields| <= 64
            && ((exists f :: f in root.fields && f.value.Leaf?) || BodyShown(key, root.fields) != [])
    ensures BodySplit(key, root).Some? ==>
              && BodySplit(key, root).value.scalars == Scalars(key, root.fields)
              && BodySplit(key, root).value.split == AllEmitted(NOTHING, BodyShown(key, root.fields))
  {
    if root.Object? {
      NamesMean(root.fields);
      BodyShows(key, root.fields);
      SomeScalar(key, root.fields);
      if BodyShown(key, root.fields) != [] {
        SomethingRecorded(BodyShown(key, root.fields));
      }
    }
  }

  /** Unless a limit is reported, every path holds what is shown under it, in order. */
  lemma RecordedInOrder(key: Bytes, root: JSON, path: Bytes)
    requires BodySplit(key, root).Some? && !BodySplit(key, root).value.split.limited
    ensures var values := BodySplit(key, root).value.split.values;
            (if path in values then values[path] else []) == ValuesAt(BodyShown(key, root.fields), path)
  {
    var shown := BodyShown(key, root.fields);
    SplitsExactly(key, root);
    SplitterGroups(shown);
    TallyOfAll(shown, path);
    UncutValues(AllTallied(NO_TALLY, shown), path);
  }

  lemma UncutValues(t: Tally, path: Bytes)
    requires TallyOK(t) && !Capped(t).limited
    ensures (if path in Capped(t).values then Capped(t).values[path] else []) == ValuesOf(t, path)
  {
    assert path in KeptPaths(t) ==> |ValuesOf(t, path)| <= MAX_SPLIT_BODY_VALUES;
  }

  /** A limit is reported exactly when a container is shown whole, or a path or a value is left out. */
  lemma LimitReported(key: Bytes, root: JSON)
    requires BodySplit(key, root).Some?
    ensures var shown := BodyShown(key, root.fields);
            var t := AllTallied(NO_TALLY, shown);
            BodySplit(key, root).value.split.limited <==>
              || (exists i :: 0 <= i < |shown| && shown[i].isRaw)
              || |t.paths| > 256
              || exists p :: p in KeptPaths(t) && |ValuesAt(shown, p)| > 256
  {
    SplitsExactly(key, root);
    LimitedExactly(BodyShown(key, root.fields));
  }
}

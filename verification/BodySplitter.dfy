/**
 * The body splitter of internal/proxy/attrs.go: a traversal of a JSON tree that collects the
 * values of its scalar leaves by path, with caps on depth, paths and values per path.
 */
module BodySplitting {
  import opened Bytes
  import opened LimitedText

  const MAX_SPLIT_BODY_FIELDS := 64
  const MAX_SPLIT_BODY_FIELD_NAME_LENGTH := 128
  const MAX_SPLIT_BODY_DEPTH := 8
  const MAX_SPLIT_BODY_ATTRIBUTES := 256
  const MAX_SPLIT_BODY_VALUES := 256
  const MESSAGES_BODY_FIELD: Bytes := "messages"
  const MESSAGE_BODY_PREFIX: Bytes := "message"
  const MESSAGE_ROLE_FIELD: Bytes := "role"
  const DEFAULT_MESSAGE_ROLE: Bytes := "default"

  /** A JSON value; `raw` is the compact text of a container, as it would be traced. */
  datatype JSON =
    | Leaf(isString: bool, text: Bytes)
    | Array(raw: Bytes, elements: seq<JSON>)
    | Object(raw: Bytes, fields: seq<Field>)

  datatype Field = Field(name: Bytes, value: JSON)

  predicate FieldNameChar(c: char) {
    'a' <= c <= 'z' || 'A' <= c <= 'Z' || '0' <= c <= '9' || c == '.' || c == '_' || c == '-'
  }

  predicate ValidBodyFieldName(name: Bytes) {
    0 < |name| <= MAX_SPLIT_BODY_FIELD_NAME_LENGTH && forall i :: 0 <= i < |name| ==> FieldNameChar(name[i])
  }

  /** jsonObjectFields accepts the object. */
  predicate SplittableFields(fields: seq<Field>) {
    && (forall i :: 0 <= i < |fields| ==> ValidBodyFieldName(fields[i].name))
    && (forall i, j :: 0 <= i < j < |fields| ==> fields[i].name != fields[j].name)
  }

  function LeafString(leaf: JSON): Bytes
    requires leaf.Leaf?
  {
    if leaf.isString then Sanitised(leaf.text) else leaf.text
  }

  // ---------- sort.Strings ----------

  predicate NameLess(a: Bytes, b: Bytes) {
    b != "" && (a == "" || a[0] < b[0] || (a[0] == b[0] && NameLess(a[1..], b[1..])))
  }

  lemma {:induction false} NameLessTransitive(a: Bytes, b: Bytes, c: Bytes)
    requires NameLess(a, b) && NameLess(b, c)
    ensures NameLess(a, c)
  {
    if a != "" && a[0] == b[0] == c[0] {
      NameLessTransitive(a[1..], b[1..], c[1..]);
    }
  }

  lemma {:induction false} NameLessTotal(a: Bytes, b: Bytes)
    ensures a == b || NameLess(a, b) || NameLess(b, a)
  {
    if a != "" && b != "" && a[0] == b[0] {
      NameLessTotal(a[1..], b[1..]);
      assert a == [a[0]] + a[1..] && b == [b[0]] + b[1..];
    }
  }

  function InsertField(f: Field, sorted: seq<Field>): seq<Field> {
    if sorted == [] || NameLess(f.name, sorted[0].name) then [f] + sorted
    else [sorted[0]] + InsertField(f, sorted[1..])
  }

  function SortFields(fields: seq<Field>): seq<Field> {
    if fields == [] then [] else InsertField(fields[0], SortFields(fields[1..]))
  }

  // ---------- What the traversal says ----------

  /** One call of emit, or of emitRaw. */
  datatype Entry = Entry(path: Bytes, value: Bytes, isRaw: bool)

  function Visit(path: Bytes, j: JSON, depth: nat): seq<Entry>
    decreases MAX_SPLIT_BODY_DEPTH + 1 - depth, 0, 0
  {
    match j
    case Leaf(_, _) => [Entry(path, LeafString(j), false)]
    case Array(raw, elements) =>
      if depth > MAX_SPLIT_BODY_DEPTH then [Entry(path, raw, true)] else VisitElements(path, elements, depth + 1)
    case Object(raw, fields) =>
      if depth > MAX_SPLIT_BODY_DEPTH || !SplittableFields(fields) then [Entry(path, raw, true)]
      else VisitFields(path, SortFields(fields), depth + 1)
  }

  function VisitElements(path: Bytes, elements: seq<JSON>, depth: nat): seq<Entry>
    decreases MAX_SPLIT_BODY_DEPTH + 1 - depth, 1, |elements|
  {
    if elements == [] then [] else Visit(path, elements[0], depth) + VisitElements(path, elements[1..], depth)
  }

  function VisitFields(path: Bytes, fields: seq<Field>, depth: nat): seq<Entry>
    decreases MAX_SPLIT_BODY_DEPTH + 1 - depth, 1, |fields|
  {
    if fields == [] then []
    else Visit(path + "." + fields[0].name, fields[0].value, depth) + VisitFields(path, fields[1..], depth)
  }

  function ValueNamed(fields: seq<Field>, name: Bytes): Option<JSON> {
    if fields == [] then None
    else if fields[0].name == name then Some(fields[0].value)
    else ValueNamed(fields[1..], name)
  }

  function RoleOf(fields: seq<Field>): Bytes {
    var role := ValueNamed(fields, MESSAGE_ROLE_FIELD);
    if role.Some? && role.value.Leaf? && role.value.isString && ValidBodyFieldName(role.value.text)
    then role.value.text else DEFAULT_MESSAGE_ROLE
  }

  function WithoutRole(fields: seq<Field>): seq<Field> {
    if fields == [] then []
    else (if fields[0].name == MESSAGE_ROLE_FIELD then [] else [fields[0]]) + WithoutRole(fields[1..])
  }

  function VisitMessage(base: Bytes, message: JSON): seq<Entry> {
    if !message.Object? then Visit(base + "." + DEFAULT_MESSAGE_ROLE, message, 2)
    else if !SplittableFields(message.fields) then [Entry(base + "." + DEFAULT_MESSAGE_ROLE, message.raw, true)]
    else VisitFields(base + "." + RoleOf(message.fields), WithoutRole(SortFields(message.fields)), 2)
  }

  function VisitMessages(base: Bytes, messages: seq<JSON>): seq<Entry> {
    if messages == [] then [] else VisitMessage(base, messages[0]) + VisitMessages(base, messages[1..])
  }

  // ---------- The splitter ----------

  datatype Split = Split(paths: seq<Bytes>, values: map<Bytes, seq<Bytes>>, limited: bool)

  const NOTHING := Split([], map[], false)

  function Emitted(s: Split, path: Bytes, value: Bytes): Split {
    var values := if path in s.values then s.values[path] else [];
    if path !in s.values && |s.values| >= MAX_SPLIT_BODY_ATTRIBUTES then s.(limited := true)
    else
      var paths := if path in s.values then s.paths else s.paths + [path];
      if |values| >= MAX_SPLIT_BODY_VALUES then s.(paths := paths, limited := true)
      else s.(paths := paths, values := s.values[path := values + [value]])
  }

  function EntryEmitted(s: Split, e: Entry): Split {
    Emitted(if e.isRaw then s.(limited := true) else s, e.path, e.value)
  }

  function AllEmitted(s: Split, entries: seq<Entry>): Split
    decreases |entries|
  {
    if entries == [] then s else AllEmitted(EntryEmitted(s, entries[0]), entries[1..])
  }

  lemma {:induction false} EmittedAppend(s: Split, x: seq<Entry>, y: seq<Entry>)
    ensures AllEmitted(s, x + y) == AllEmitted(AllEmitted(s, x), y)
    decreases |x|
  {
    if x == [] {
      assert x + y == y;
    } else {
      assert (x + y)[0] == x[0] && (x + y)[1..] == x[1..] + y;
      EmittedAppend(EntryEmitted(s, x[0]), x[1..], y);
    }
  }

  class BodySplitter {
    var paths: seq<Bytes>
    var values: map<Bytes, seq<Bytes>>
    var limited: bool

    ghost function Value(): Split
      reads this
    {
      Split(paths, values, limited)
    }

    constructor ()
      ensures Value() == NOTHING
    {
      paths, values, limited := [], map[], false;
    }

    method WalkMessages(base: Bytes, messages: seq<JSON>)
      modifies this
      ensures Value() == AllEmitted(old(Value()), VisitMessages(base, messages))
    {
      var i := 0;
      assert messages[0..] == messages;
      while i < |messages|
        invariant 0 <= i <= |messages|
        invariant AllEmitted(Value(), VisitMessages(base, messages[i..]))
             == AllEmitted(old(Value()), VisitMessages(base, messages))
      {
        assert messages[i..][0] == messages[i] && messages[i..][1..] == messages[i + 1..];
        EmittedAppend(Value(), VisitMessage(base, messages[i]), VisitMessages(base, messages[i + 1..]));
        WalkMessage(base, messages[i]);
        i := i + 1;
      }
      assert messages[i..] == [];
    }

    /** One turn of the loop over the messages. */
    method WalkMessage(base: Bytes, message: JSON)
      modifies this
      ensures Value() == AllEmitted(old(Value()), VisitMessage(base, message))
    {
      if !message.Object? {
        Walk(base + "." + DEFAULT_MESSAGE_ROLE, message, 2);
        return;
      }
      if !SplittableFields(message.fields) {
        EmitRaw(base + "." + DEFAULT_MESSAGE_ROLE, message.raw);
        return;
      }
      var path := base + "." + RoleOf(message.fields);
      var fields, i := SortFields(message.fields), 0;
      assert fields[0..] == fields;
      while i < |fields|
        invariant 0 <= i <= |fields|
        invariant AllEmitted(Value(), VisitFields(path, WithoutRole(fields[i..]), 2))
               == AllEmitted(old(Value()), VisitFields(path, WithoutRole(fields), 2))
      {
        WithoutRoleStep(fields, i);
        if fields[i].name != MESSAGE_ROLE_FIELD {
          var rest := WithoutRole(fields[i + 1..]);
          assert ([fields[i]] + rest)[1..] == rest;
          EmittedAppend(Value(), Visit(path + "." + fields[i].name, fields[i].value, 2), VisitFields(path, rest, 2));
          Walk(path + "." + fields[i].name, fields[i].value, 2);
        }
        i := i + 1;
      }
      assert fields[i..] == [];
    }

    method Walk(path: Bytes, j: JSON, depth: nat)
      modifies this
      ensures Value() == AllEmitted(old(Value()), Visit(path, j, depth))
      decreases MAX_SPLIT_BODY_DEPTH + 1 - depth, 0
    {
      match j
      case Leaf(_, _) => Emit(path, LeafString(j));
      case Array(raw, elements) =>
        if depth > MAX_SPLIT_BODY_DEPTH {
          EmitRaw(path, raw);
          return;
        }
        WalkElements(path, elements, depth + 1);
      case Object(raw, fields) =>
        if depth > MAX_SPLIT_BODY_DEPTH || !SplittableFields(fields) {
          EmitRaw(path, raw);
          return;
        }
        WalkFields(path, SortFields(fields), depth + 1);
    }

    method WalkElements(path: Bytes, elements: seq<JSON>, depth: nat)
      modifies this
      ensures Value() == AllEmitted(old(Value()), VisitElements(path, elements, depth))
      decreases MAX_SPLIT_BODY_DEPTH + 1 - depth, 1
    {
      var i := 0;
      assert elements[0..] == elements;
      while i < |elements|
        invariant 0 <= i <= |elements|
        invariant AllEmitted(Value(), VisitElements(path, elements[i..], depth))
               == AllEmitted(old(Value()), VisitElements(path, elements, depth))
      {
        assert elements[i..][0] == elements[i] && elements[i..][1..] == elements[i + 1..];
        EmittedAppend(Value(), Visit(path, elements[i], depth), VisitElements(path, elements[i + 1..], depth));
        Walk(path, elements[i], depth);
        i := i + 1;
      }
      assert elements[i..] == [];
    }

    method WalkFields(path: Bytes, fields: seq<Field>, depth: nat)
      modifies this
      ensures Value() == AllEmitted(old(Value()), VisitFields(path, fields, depth))
      decreases MAX_SPLIT_BODY_DEPTH + 1 - depth, 1
    {
      var i := 0;
      assert fields[0..] == fields;
      while i < |fields|
        invariant 0 <= i <= |fields|
        invariant AllEmitted(Value(), VisitFields(path, fields[i..], depth))
               == AllEmitted(old(Value()), VisitFields(path, fields, depth))
      {
        var f := fields[i];
        assert fields[i..][0] == f && fields[i..][1..] == fields[i + 1..];
        EmittedAppend(Value(), Visit(path + "." + f.name, f.value, depth), VisitFields(path, fields[i + 1..], depth));
        Walk(path + "." + f.name, f.value, depth);
        i := i + 1;
      }
      assert fields[i..] == [];
    }

    /** A field of the body that is no scalar. */
    method WalkField(key: Bytes, f: Field)
      modifies this
      ensures Value() == AllEmitted(old(Value()), FieldEntries(key, f))
    {
      if f.name == MESSAGES_BODY_FIELD && f.value.Array? {
        WalkMessages(key + "." + MESSAGE_BODY_PREFIX, f.value.elements);
      } else if !f.value.Leaf? {
        Walk(key + "." + f.name, f.value, 1);
      }
    }

    method EmitRaw(path: Bytes, raw: Bytes)
      modifies this
      ensures Value() == EntryEmitted(old(Value()), Entry(path, raw, true))
    {
      limited := true;
      Emit(path, raw);
    }

    method Emit(path: Bytes, value: Bytes)
      modifies this
      ensures Value() == Emitted(old(Value()), path, value)
    {
      var known := if path in values then values[path] else [];
      if path !in values {
        if |values| >= MAX_SPLIT_BODY_ATTRIBUTES {
          limited := true;
          return;
        }
        paths := paths + [path];
      }
      if |known| >= MAX_SPLIT_BODY_VALUES {
        limited := true;
        return;
      }
      values := values[path := known + [value]];
    }
  }

  // ---------- A whole body ----------

  /** What becomes of a body: its scalar fields, each an attribute of its own, and the rest by path. */
  datatype Attributes = Attributes(scalars: seq<(Bytes, JSON)>, split: Split)

  function FieldEntries(key: Bytes, f: Field): seq<Entry> {
    if f.name == MESSAGES_BODY_FIELD && f.value.Array? then
      VisitMessages(key + "." + MESSAGE_BODY_PREFIX, f.value.elements)
    else if f.value.Leaf? then []
    else Visit(key + "." + f.name, f.value, 1)
  }

  function BodyEntries(key: Bytes, fields: seq<Field>): seq<Entry> {
    if fields == [] then [] else FieldEntries(key, fields[0]) + BodyEntries(key, fields[1..])
  }

  function Scalars(key: Bytes, fields: seq<Field>): seq<(Bytes, JSON)> {
    if fields == [] then []
    else (if fields[0].value.Leaf? then [(key + "." + fields[0].name, fields[0].value)] else [])
         + Scalars(key, fields[1..])
  }

  predicate Splittable(root: JSON) {
    root.Object? && SplittableFields(root.fields) && 0 < |root.fields| <= MAX_SPLIT_BODY_FIELDS
  }

  function BodySplit(key: Bytes, root: JSON): Option<Attributes> {
    if !Splittable(root) then None
    else
      var a := Attributes(Scalars(key, root.fields), AllEmitted(NOTHING, BodyEntries(key, root.fields)));
      if a.scalars == [] && a.split.paths == [] && !a.split.limited then None else Some(a)
  }

  // ---------- The attributes of a body ----------

  datatype AttributeValue = Scalar(leaf: JSON) | Strings(values: seq<Bytes>) | Flag

  datatype Attribute = Attribute(key: Bytes, value: AttributeValue)

  function ScalarAttributes(scalars: seq<(Bytes, JSON)>): seq<Attribute> {
    seq(|scalars|, i requires 0 <= i < |scalars| => Attribute(scalars[i].0, Scalar(scalars[i].1)))
  }

  /** One attribute for each path, with the values recorded under it. */
  function PathAttributes(s: Split): seq<Attribute> {
    seq(|s.paths|, i requires 0 <= i < |s.paths| =>
      Attribute(s.paths[i], Strings(if s.paths[i] in s.values then s.values[s.paths[i]] else [])))
  }

  function InsertAttribute(x: Attribute, sorted: seq<Attribute>): seq<Attribute> {
    if sorted == [] || !NameLess(sorted[0].key, x.key) then [x] + sorted
    else [sorted[0]] + InsertAttribute(x, sorted[1..])
  }

  predicate InKeyOrder(attributes: seq<Attribute>) {
    forall i, j :: 0 <= i < j < |attributes| ==> !NameLess(attributes[j].key, attributes[i].key)
  }

  lemma NotLessTransitive(a: Bytes, b: Bytes, c: Bytes)
    requires !NameLess(b, a) && !NameLess(c, b)
    ensures !NameLess(c, a)
  {
    if NameLess(c, a) {
      NameLessTotal(a, b);
      if a != b {
        NameLessTransitive(c, a, b);
      }
    }
  }

  lemma {:induction false} InsertAttributeOrders(x: Attribute, sorted: seq<Attribute>)
    requires InKeyOrder(sorted)
    ensures InKeyOrder(InsertAttribute(x, sorted))
    ensures multiset(InsertAttribute(x, sorted)) == multiset(sorted) + multiset{x}
    decreases |sorted|
  {
    if sorted == [] || !NameLess(sorted[0].key, x.key) {
      FirstInKeyOrder(x, sorted);
    } else {
      var rest := InsertAttribute(x, sorted[1..]);
      assert sorted == [sorted[0]] + sorted[1..];
      InsertAttributeOrders(x, sorted[1..]);
      NameLessAsymmetric(sorted[0].key, x.key);
      forall j | 0 <= j < |rest| ensures !NameLess(rest[j].key, sorted[0].key) {
        assert rest[j] in multiset(rest);
      }
      LeastInKeyOrder(sorted[0], rest);
    }
  }

  lemma LeastInKeyOrder(x: Attribute, sorted: seq<Attribute>)
    requires InKeyOrder(sorted) && forall j :: 0 <= j < |sorted| ==> !NameLess(sorted[j].key, x.key)
    ensures InKeyOrder([x] + sorted)
  {
  }

  lemma FirstInKeyOrder(x: Attribute, sorted: seq<Attribute>)
    requires InKeyOrder(sorted) && (sorted == [] || !NameLess(sorted[0].key, x.key))
    ensures InKeyOrder([x] + sorted)
  {
    forall j | 0 <= j < |sorted| ensures !NameLess(sorted[j].key, x.key) {
      if j > 0 {
        NotLessTransitive(x.key, sorted[0].key, sorted[j].key);
      }
    }
    LeastInKeyOrder(x, sorted);
  }

  lemma {:induction false} NameLessAsymmetric(a: Bytes, b: Bytes)
    requires NameLess(a, b)
    ensures !NameLess(b, a)
  {
    if a != "" && a[0] == b[0] {
      NameLessAsymmetric(a[1..], b[1..]);
    }
  }

  /** The attributes of a body in the order of their keys, then the mark of a limit. */
  ghost predicate AttributesOf(attributes: seq<Attribute>, a: Attributes, limitKey: Bytes) {
    exists sorted :: InKeyOrder(sorted)
      && multiset(sorted) == multiset(ScalarAttributes(a.scalars)) + multiset(PathAttributes(a.split))
      && attributes == if a.split.limited then sorted + [Attribute(limitKey, Flag)] else sorted
  }

  method SortAttributes(attributes: seq<Attribute>) returns (sorted: seq<Attribute>)
    ensures InKeyOrder(sorted) && multiset(sorted) == multiset(attributes)
  {
    sorted := [];
    var i := 0;
    while i < |attributes|
      invariant 0 <= i <= |attributes|
      invariant InKeyOrder(sorted) && multiset(sorted) == multiset(attributes[..i])
    {
      InsertAttributeOrders(attributes[i], sorted);
      assert attributes[..i + 1] == attributes[..i] + [attributes[i]];
      sorted := InsertAttribute(attributes[i], sorted);
      i := i + 1;
    }
    assert attributes[..i] == attributes;
  }

  method SplitJSONBodyAttributes(key: Bytes, limitKey: Bytes, root: JSON) returns (r: Option<seq<Attribute>>)
    ensures r.None? <==> BodySplit(key, root).None?
    ensures r.Some? ==> AttributesOf(r.value, BodySplit(key, root).value, limitKey)
  {
    if !root.Object? || !SplittableFields(root.fields) || |root.fields| == 0 || |root.fields| > MAX_SPLIT_BODY_FIELDS {
      return None;
    }
    var splitter := new BodySplitter();
    var scalars := SplitFields(key, root.fields, splitter);
    var split := Split(splitter.paths, splitter.values, splitter.limited);
    var sorted := SortAttributes(ScalarAttributes(scalars) + PathAttributes(split));
    SortedCount(scalars, split, sorted);
    var attributes := sorted;
    if splitter.limited {
      attributes := sorted + [Attribute(limitKey, Flag)];
    }
    if |attributes| == 0 {
      return None;
    }
    r := Some(attributes);
  }

  /** Sorting neither loses nor adds attributes. */
  lemma SortedCount(scalars: seq<(Bytes, JSON)>, split: Split, sorted: seq<Attribute>)
    requires multiset(sorted) == multiset(ScalarAttributes(scalars) + PathAttributes(split))
    ensures |sorted| == |scalars| + |split.paths|
    ensures multiset(sorted) == multiset(ScalarAttributes(scalars)) + multiset(PathAttributes(split))
  {
    assert |multiset(sorted)| == |sorted|;
  }

  /** The loop over the fields of the body. */
  method SplitFields(key: Bytes, fields: seq<Field>, splitter: BodySplitter) returns (scalars: seq<(Bytes, JSON)>)
    requires splitter.Value() == NOTHING
    modifies splitter
    ensures scalars == Scalars(key, fields)
    ensures splitter.Value() == AllEmitted(NOTHING, BodyEntries(key, fields))
  {
    scalars := [];
    var i := 0;
    assert fields[0..] == fields;
    assert [] + Scalars(key, fields) == Scalars(key, fields);
    while i < |fields|
      invariant 0 <= i <= |fields|
      invariant scalars + Scalars(key, fields[i..]) == Scalars(key, fields)
      invariant AllEmitted(splitter.Value(), BodyEntries(key, fields[i..]))
           == AllEmitted(NOTHING, BodyEntries(key, fields))
    {
      var f := fields[i];
      assert fields[i..][0] == f && fields[i..][1..] == fields[i + 1..];
      EmittedAppend(splitter.Value(), FieldEntries(key, f), BodyEntries(key, fields[i + 1..]));
      splitter.WalkField(key, f);
      ScalarsStep(key, fields, i, scalars);
      if f.value.Leaf? {
        scalars := scalars + [(key + "." + f.name, f.value)];
      }
      i := i + 1;
    }
    assert fields[i..] == [];
    assert scalars + [] == scalars;
  }

  lemma ScalarsStep(key: Bytes, fields: seq<Field>, i: nat, scalars: seq<(Bytes, JSON)>)
    requires i < |fields|
    ensures var own := if fields[i].value.Leaf? then [(key + "." + fields[i].name, fields[i].value)] else [];
            && scalars + Scalars(key, fields[i..]) == (scalars + own) + Scalars(key, fields[i + 1..])
            && (own == [] ==> scalars + own == scalars)
  {
    assert fields[i..][0] == fields[i] && fields[i..][1..] == fields[i + 1..];
  }

  lemma WithoutRoleStep(fields: seq<Field>, i: nat)
    requires i < |fields|
    ensures WithoutRole(fields[i..])
         == (if fields[i].name == MESSAGE_ROLE_FIELD then [] else [fields[i]]) + WithoutRole(fields[i + 1..])
    ensures [] + WithoutRole(fields[i + 1..]) == WithoutRole(fields[i + 1..])
  {
    assert fields[i..][0] == fields[i] && fields[i..][1..] == fields[i + 1..];
  }
}

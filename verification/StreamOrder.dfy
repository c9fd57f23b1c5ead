/**
 * Independence of interleaving: while the caps are not reached, what the accumulator holds for
 * a part depends only on the edits made to that part, in their order.
 */
module StreamOrder {
  import opened Bytes
  import opened LimitedText
  import opened StreamEvents
  import opened StreamParts
  import opened StreamActions
  import opened StreamAssembly
  import opened StreamFinishing
  import opened StreamTexts
  import opened StreamRuns

  // ---------- What updates do to one part ----------

  /** An action that only changes one part, creating it if need be. */
  predicate IsUpdate(action: Action) {
    action.Update? || action.UpdateShell?
  }

  predicate AllUpdates(actions: seq<Action>) {
    forall i :: 0 <= i < |actions| ==> IsUpdate(actions[i])
  }

  function KeyOf(action: Action): Key
    requires IsUpdate(action)
  {
    if action.Update? then action.key else ToolKey(action.outputIndex)
  }

  predicate IsFor(action: Action, k: Key) {
    IsUpdate(action) && KeyOf(action) == k
  }

  /** A change of one shell command of a part. */
  datatype Command = Command(index: int, text: Bytes, authoritative: bool)

  function CommandsOf(action: Action): seq<Command> {
    if action.UpdateShell? then [Command(action.commandIndex, action.command, action.authoritative)] else []
  }

  /** The edits that the actions make to one part. */
  function EditsFor(actions: seq<Action>, k: Key): seq<Edit> {
    if actions == [] then []
    else (if IsFor(actions[0], k) then actions[0].edits else []) + EditsFor(actions[1..], k)
  }

  /** The changes that the actions make to the shell commands of one part. */
  function CommandsFor(actions: seq<Action>, k: Key): seq<Command> {
    if actions == [] then []
    else (if IsFor(actions[0], k) then CommandsOf(actions[0]) else []) + CommandsFor(actions[1..], k)
  }

  function CommandAt(shell: map<int, Text>, index: int): Text {
    if index in shell then shell[index] else EMPTY
  }

  function ShellAfter(shell: map<int, Text>, commands: seq<Command>, limit: nat): map<int, Text>
    decreases |commands|
  {
    if commands == [] then shell
    else
      var c := commands[0];
      var text := if c.authoritative then SetTo(c.text, limit) else Appended(CommandAt(shell, c.index), c.text, limit);
      ShellAfter(shell[c.index := text], commands[1..], limit)
  }

  function PartOrNew(states: map<Key, State>, k: Key): State {
    if k in states then states[k] else NewState(k.kind, LabelsOf(k))
  }

  function Changed(s: State, edits: seq<Edit>, commands: seq<Command>, limit: nat): State {
    ApplyEdits(s, edits, limit).(shell := ShellAfter(s.shell, commands, limit))
  }

  function PartAfter(states: map<Key, State>, actions: seq<Action>, k: Key, limit: nat): State {
    Changed(PartOrNew(states, k), EditsFor(actions, k), CommandsFor(actions, k), limit)
  }

  lemma {:induction false} ShellAfterAppend(shell: map<int, Text>, c: seq<Command>, d: seq<Command>, limit: nat)
    ensures ShellAfter(shell, c + d, limit) == ShellAfter(ShellAfter(shell, c, limit), d, limit)
    decreases |c|
  {
    if c == [] {
      assert c + d == d;
    } else {
      assert (c + d)[0] == c[0] && (c + d)[1..] == c[1..] + d;
      ShellAfterAppend(ShellAfter(shell, c[..1], limit), c[1..], d, limit);
      OneCommand(shell, c[0], limit);
      assert c[..1] == [c[0]];
    }
  }

  lemma OneCommand(shell: map<int, Text>, c: Command, limit: nat)
    ensures ShellAfter(shell, [c], limit)
         == shell[c.index := if c.authoritative then SetTo(c.text, limit)
           else Appended(CommandAt(shell, c.index), c.text, limit)]
  {
    assert [c][1..] == [];
  }

  lemma ChangedAppend(s: State, e: seq<Edit>, c: seq<Command>, f: seq<Edit>, d: seq<Command>, limit: nat)
    ensures Changed(s, e + f, c + d, limit) == Changed(Changed(s, e, c, limit), f, d, limit)
  {
    var shell := ShellAfter(s.shell, c, limit);
    ApplyEditsAppend(s, e, f, limit);
    ShellAfterAppend(s.shell, c, d, limit);
    EditsIgnoreShell(ApplyEdits(s, e, limit), f, shell, limit);
  }

  // ---------- The budget ----------

  /** What takes a unit of the budget: a part, or one shell command of a part. */
  datatype Unit = PartUnit(key: Key) | CommandUnit(key: Key, index: int)

  function Claims(action: Action): set<Unit>
    requires IsUpdate(action)
  {
    if action.Update? then {PartUnit(action.key)}
    else {PartUnit(KeyOf(action)), CommandUnit(KeyOf(action), action.commandIndex)}
  }

  function Claimed(actions: seq<Action>): set<Unit> {
    if actions == [] then {}
    else (if IsUpdate(actions[0]) then Claims(actions[0]) else {}) + Claimed(actions[1..])
  }

  /** The units that are taken. */
  ghost function Units(states: map<Key, State>): set<Unit> {
    (set k | k in states :: PartUnit(k)) + (set k, i | k in states && i in states[k].shell :: CommandUnit(k, i))
  }

  ghost predicate Taken(states: map<Key, State>, u: Unit) {
    u.key in states && (u.CommandUnit? ==> u.index in states[u.key].shell)
  }

  lemma UnitsAreTaken(states: map<Key, State>, u: Unit)
    ensures u in Units(states) <==> Taken(states, u)
  {
    match u
    case PartUnit(k) =>
    case CommandUnit(k, i) =>
  }

  ghost function UnitKeys(units: set<Unit>): set<Key> {
    set u | u in units :: u.key
  }

  /** There is room for these units, and none of their outputs has finished. */
  ghost predicate Room(a: Acc, units: set<Unit>) {
    && (forall k :: k in UnitKeys(units) ==> k !in a.finished && GroupOf(k) !in a.finishedGroups)
    && |a.groups + Groups(UnitKeys(units))| <= MAX_STREAM_OUTPUT_STATES
    && a.createdParts + |units - Units(a.states)| <= MAX_STREAM_OUTPUT_PARTS
    && (forall k :: k in a.states ==> GroupOf(k) in a.groups)
  }

  /** One part changed, created if need be. */
  ghost function PartChanged(a: Acc, action: Action): Acc
    requires IsUpdate(action)
  {
    var k := KeyOf(action);
    a.(states := a.states[k := Changed(PartOrNew(a.states, k), action.edits, CommandsOf(action), a.limit)],
       groups := a.groups + {GroupOf(k)},
       createdParts := a.createdParts + |Claims(action) - Units(a.states)|)
  }

  /** Each action's part changed in turn. */
  ghost function Assembled(a: Acc, actions: seq<Action>): Acc
    requires AllUpdates(actions)
    decreases |actions|
  {
    if actions == [] then a else Assembled(PartChanged(a, actions[0]), actions[1..])
  }

  lemma UnitKeysOfClaims(action: Action)
    requires IsUpdate(action)
    ensures UnitKeys(Claims(action)) == {KeyOf(action)}
  {
    assert PartUnit(KeyOf(action)).key == KeyOf(action);
  }

  /** The units that an action takes beyond those that are taken. */
  lemma ClaimsCount(states: map<Key, State>, action: Action)
    requires IsUpdate(action)
    ensures var k := KeyOf(action);
            |Claims(action) - Units(states)|
            == (if k in states then 0 else 1)
               + (if action.UpdateShell? && !(k in states && action.commandIndex in states[k].shell) then 1 else 0)
  {
    var part, claims := PartUnit(KeyOf(action)), Claims(action);
    UnitsAreTaken(states, part);
    if action.Update? {
      assert claims - Units(states) == if Taken(states, part) then {} else {part};
    } else {
      var command := CommandUnit(KeyOf(action), action.commandIndex);
      UnitsAreTaken(states, command);
      PairCount(part, command, Units(states));
    }
  }

  lemma PairCount<T>(x: T, y: T, live: set<T>)
    requires x != y
    ensures |{x, y} - live| == (if x in live then 0 else 1) + (if y in live then 0 else 1)
  {
    assert {x, y} - live == (if x in live then {} else {x}) + (if y in live then {} else {y});
  }

  /** The part live or created, with what that takes. */
  ghost function Had(a: Acc, k: Key): Acc {
    a.(states := a.states[k := PartOrNew(a.states, k)], groups := a.groups + {GroupOf(k)},
       createdParts := a.createdParts + if k in a.states then 0 else 1)
  }

  lemma LiveHad(a: Acc, k: Key)
    requires k in a.states && GroupOf(k) in a.groups
    ensures Had(a, k) == a
  {
    assert a.groups + {GroupOf(k)} == a.groups;
    SameMap(a.states[k := PartOrNew(a.states, k)], a.states);
  }

  lemma NewHad(a: Acc, k: Key)
    requires k !in a.states && a.createdParts < MAX_STREAM_OUTPUT_PARTS
    requires |a.groups + {GroupOf(k)}| <= MAX_STREAM_OUTPUT_STATES
    requires k !in a.finished && GroupOf(k) !in a.finishedGroups
    ensures GetState(a, k) == (Had(a, k), true)
  {
    SmallerSet(a.groups, a.groups + {GroupOf(k)});
  }

  /** A part is had: it is live, or there is room for it. */
  lemma PartHad(a: Acc, action: Action)
    requires IsUpdate(action) && Room(a, Claims(action))
    ensures GetState(a, KeyOf(action)) == (Had(a, KeyOf(action)), true)
  {
    var k := KeyOf(action);
    UnitKeysOfClaims(action);
    if k in a.states {
      LiveHad(a, k);
    } else {
      ClaimsCount(a.states, action);
      OneGroup(k);
      NewHad(a, k);
    }
  }

  lemma OneGroup(k: Key)
    ensures Groups({k}) == {GroupOf(k)}
  {
  }

  lemma SetTwice(states: map<Key, State>, k: Key, s: State, t: State)
    ensures states[k := s][k := t] == states[k := t]
  {
  }

  lemma EditsWithRoom(a: Acc, action: Action)
    requires action.Update? && Room(a, Claims(action))
    ensures UpdatePartOf(a, action.key, action.edits) == PartChanged(a, action)
  {
    PartHad(a, action);
    HadEdited(a, action.key, action.edits);
    ClaimsCount(a.states, action);
  }

  lemma ShellWithRoom(a: Acc, action: Action)
    requires action.UpdateShell? && Room(a, Claims(action))
    ensures UpdateShellOf(a, action.outputIndex, action.edits, action.commandIndex, action.command,
         action.authoritative)
         == PartChanged(a, action)
  {
    PartHad(a, action);
    ClaimsCount(a.states, action);
    HadCommanded(a, KeyOf(action), action.edits, CommandsOf(action)[0]);
  }

  /** With room, an action changes its part and touches nothing else. */
  lemma UpdateWithRoom(a: Acc, action: Action, at: int)
    requires IsUpdate(action) && Room(a, Claims(action))
    ensures Perform(a, action, at) == (PartChanged(a, action), [])
  {
    match action
    case Update(_, _) => EditsWithRoom(a, action);
    case UpdateShell(_, _, _, _, _) => ShellWithRoom(a, action);
  }

  lemma HadCommanded(a: Acc, k: Key, edits: seq<Edit>, c: Command)
    requires a.createdParts + (if k in a.states then 0 else 1)
         + (if c.index in PartOrNew(a.states, k).shell then 0 else 1)
          <= MAX_STREAM_OUTPUT_PARTS
    ensures var s := PartOrNew(a.states, k);
            var b := EditShell(EditPart(Had(a, k), k, edits), k, c.index, c.text, c.authoritative);
            b == Had(a, k).(states := a.states[k := Changed(s, edits, [c], a.limit)],
                            createdParts := Had(a, k).createdParts + if c.index in s.shell then 0 else 1)
  {
    var t := ApplyEdits(PartOrNew(a.states, k), edits, a.limit);
    HadEdited(a, k, edits);
    CommandWithRoom(EditPart(Had(a, k), k, edits), k, c);
    SetTwice(a.states, k, t, Changed(PartOrNew(a.states, k), edits, [c], a.limit));
  }

  lemma HadEdited(a: Acc, k: Key, edits: seq<Edit>)
    ensures var s := PartOrNew(a.states, k);
            var t := ApplyEdits(s, edits, a.limit);
            t.shell == s.shell && EditPart(Had(a, k), k, edits) == Had(a, k).(states := a.states[k := t])
  {
    var s := PartOrNew(a.states, k);
    EditsIgnoreShell(s, edits, s.shell, a.limit);
    SetTwice(a.states, k, s, ApplyEdits(s, edits, a.limit));
  }

  lemma CommandWithRoom(a: Acc, k: Key, c: Command)
    requires k in a.states && (c.index in a.states[k].shell || a.createdParts < MAX_STREAM_OUTPUT_PARTS)
    ensures var s := a.states[k];
            EditShell(a, k, c.index, c.text, c.authoritative) ==
            a.(states := a.states[k := s.(shell := ShellAfter(s.shell, [c], a.limit))],
               createdParts := a.createdParts + if c.index in s.shell then 0 else 1)
  {
    OneCommand(a.states[k].shell, c, a.limit);
  }

  lemma RoomForLess(a: Acc, units: set<Unit>, more: set<Unit>)
    requires Room(a, more) && units <= more
    ensures Room(a, units)
  {
    assert UnitKeys(units) <= UnitKeys(more);
    SmallerSet(units - Units(a.states), more - Units(a.states));
    SmallerSet(a.groups + Groups(UnitKeys(units)), a.groups + Groups(UnitKeys(more)));
  }

  /** What is claimed first, then the rest. */
  lemma CountSplit<T>(live: set<T>, first: set<T>, rest: set<T>)
    ensures |(first + rest) - live| == |first - live| + |rest - (live + first)|
  {
    assert (first + rest) - live == (first - live) + (rest - (live + first));
  }

  lemma CommandKeys(shell: map<int, Text>, commands: seq<Command>, limit: nat)
    requires |commands| <= 1
    ensures ShellAfter(shell, commands, limit).Keys == shell.Keys + set c | c in commands :: c.index
  {
    if commands != [] {
      OneCommand(shell, commands[0], limit);
      assert commands == [commands[0]];
    }
  }

  lemma TakenAfter(states: map<Key, State>, k: Key, t: State, u: Unit)
    requires PartOrNew(states, k).shell.Keys <= t.shell.Keys
    ensures Taken(states[k := t], u) <==> Taken(states, u) || (u.key == k && (u.CommandUnit? ==> u.index in t.shell))
  {
  }

  lemma UnitsAfter(a: Acc, action: Action)
    requires IsUpdate(action)
    ensures Units(PartChanged(a, action).states) == Units(a.states) + Claims(action)
  {
    var k, s := KeyOf(action), PartOrNew(a.states, KeyOf(action));
    var t := Changed(s, action.edits, CommandsOf(action), a.limit);
    CommandKeys(s.shell, CommandsOf(action), a.limit);
    forall u ensures u in Units(a.states[k := t]) <==> u in Units(a.states) + Claims(action) {
      UnitsAreTaken(a.states[k := t], u);
      UnitsAreTaken(a.states, u);
      TakenAfter(a.states, k, t, u);
      ClaimsTaken(action, u);
    }
  }

  lemma ClaimsTaken(action: Action, u: Unit)
    requires IsUpdate(action)
    ensures u in Claims(action)
       <==> u.key == KeyOf(action) && (u.CommandUnit? ==> exists c :: c in CommandsOf(action) && c.index == u.index)
  {
    if action.UpdateShell? {
      assert CommandsOf(action)[0].index == action.commandIndex;
    }
  }

  lemma UnitKeysSplit(first: set<Unit>, rest: set<Unit>)
    ensures UnitKeys(first + rest) == UnitKeys(first) + UnitKeys(rest)
  {
  }

  lemma GroupsSplit(k: Key, rest: set<Key>)
    ensures Groups({k} + rest) == {GroupOf(k)} + Groups(rest)
  {
  }

  lemma UnionAssociative<T>(a: set<T>, b: set<T>, c: set<T>)
    ensures (a + b) + c == a + (b + c)
  {
  }

  /** The keys, groups and units after an action, together with what is claimed later. */
  lemma ClaimsAddUp(a: Acc, action: Action, rest: set<Unit>)
    requires IsUpdate(action)
    ensures var b, all := PartChanged(a, action), Claims(action) + rest;
            && b.states.Keys + UnitKeys(rest) == a.states.Keys + UnitKeys(all)
            && b.groups + Groups(UnitKeys(rest)) == a.groups + Groups(UnitKeys(all))
            && b.createdParts + |rest - Units(b.states)| == a.createdParts + |all - Units(a.states)|
  {
    var k := KeyOf(action);
    UnitsAfter(a, action);
    CountSplit(Units(a.states), Claims(action), rest);
    UnitKeysOfClaims(action);
    UnitKeysSplit(Claims(action), rest);
    GroupsSplit(k, UnitKeys(rest));
    UnionAssociative(a.groups, {GroupOf(k)}, Groups(UnitKeys(rest)));
    UnionAssociative(a.states.Keys, {k}, UnitKeys(rest));
  }

  lemma RoomAfter(a: Acc, action: Action, rest: set<Unit>)
    requires IsUpdate(action) && Room(a, Claims(action) + rest)
    ensures Room(PartChanged(a, action), rest)
  {
    ClaimsAddUp(a, action, rest);
    UnitKeysSplit(Claims(action), rest);
  }

  // ---------- Runs of updates ----------

  lemma PartAfterStep(a: Acc, actions: seq<Action>, m: Key)
    requires AllUpdates(actions) && actions != []
    ensures PartAfter(PartChanged(a, actions[0]).states, actions[1..], m, a.limit)
         == PartAfter(a.states, actions, m, a.limit)
  {
    var rest := actions[1..];
    if m == KeyOf(actions[0]) {
      ChangedAppend(PartOrNew(a.states, m), actions[0].edits, CommandsOf(actions[0]), EditsFor(rest, m),
        CommandsFor(rest, m), a.limit);
    } else {
      assert [] + EditsFor(rest, m) == EditsFor(rest, m) && [] + CommandsFor(rest, m) == CommandsFor(rest, m);
    }
  }

  /** With room, updates change their parts in turn. */
  lemma {:induction false} UpdatesAssemble(a: Acc, actions: seq<Action>, at: int)
    requires AllUpdates(actions) && Room(a, Claimed(actions))
    ensures PerformAll(a, actions, at) == (Assembled(a, actions), [])
    decreases |actions|
  {
    if actions != [] {
      RoomForLess(a, Claims(actions[0]), Claimed(actions));
      UpdateWithRoom(a, actions[0], at);
      RoomAfter(a, actions[0], Claimed(actions[1..]));
      var b := PartChanged(a, actions[0]);
      UpdatesAssemble(b, actions[1..], at);
      PerformQuietly(a, actions, at, b, Assembled(b, actions[1..]));
    }
  }

  lemma PerformQuietly(a: Acc, actions: seq<Action>, at: int, b: Acc, c: Acc)
    requires actions != [] && Perform(a, actions[0], at) == (b, []) && PerformAll(b, actions[1..], at) == (c, [])
    ensures PerformAll(a, actions, at) == (c, [])
  {
    var none: seq<Output> := [];
    assert none + none == none;
  }

  /** Every part named has its own changes, in their order; nothing else has changed. */
  ghost predicate HasOwnChanges(a: Acc, actions: seq<Action>, b: Acc) {
    && b.states.Keys == a.states.Keys + UnitKeys(Claimed(actions))
    && (forall k :: k in b.states ==> b.states[k] == PartAfter(a.states, actions, k, a.limit))
    && b.groups == a.groups + Groups(UnitKeys(Claimed(actions)))
    && b.createdParts == a.createdParts + |Claimed(actions) - Units(a.states)|
    && b == a.(states := b.states, groups := b.groups, createdParts := b.createdParts)
  }

  lemma {:induction false} AssembledOwnChanges(a: Acc, actions: seq<Action>)
    requires AllUpdates(actions)
    ensures HasOwnChanges(a, actions, Assembled(a, actions))
    decreases |actions|
  {
    if actions == [] {
      NoChanges(a);
    } else {
      AssembledOwnChanges(PartChanged(a, actions[0]), actions[1..]);
      OwnChangesStep(a, actions, Assembled(a, actions));
    }
  }

  lemma NoChanges(a: Acc)
    ensures HasOwnChanges(a, [], a)
  {
    assert UnitKeys({}) == {} && Groups({}) == {};
    assert Claimed([]) - Units(a.states) == {};
    forall k | k in a.states ensures a.states[k] == PartAfter(a.states, [], k, a.limit) {
      NothingChanged(a.states[k], a.limit);
    }
  }

  lemma NothingChanged(s: State, limit: nat)
    ensures Changed(s, [], [], limit) == s
  {
  }

  lemma OwnChangesStep(a: Acc, actions: seq<Action>, b: Acc)
    requires AllUpdates(actions) && actions != []
    requires HasOwnChanges(PartChanged(a, actions[0]), actions[1..], b)
    ensures HasOwnChanges(a, actions, b)
  {
    ClaimsAddUp(a, actions[0], Claimed(actions[1..]));
    forall m | m in b.states ensures b.states[m] == PartAfter(a.states, actions, m, a.limit) {
      PartAfterStep(a, actions, m);
    }
  }

  /** The same changes for every part. */
  ghost predicate SameChanges(a: seq<Action>, b: seq<Action>) {
    && Claimed(a) == Claimed(b)
    && forall k :: EditsFor(a, k) == EditsFor(b, k) && CommandsFor(a, k) == CommandsFor(b, k)
  }

  /** Only the order within a part matters. */
  lemma InterleavingIndependence(a: Acc, these: seq<Action>, those: seq<Action>, at: int)
    requires AllUpdates(these) && AllUpdates(those) && SameChanges(these, those) && Room(a, Claimed(these))
    ensures PerformAll(a, these, at) == PerformAll(a, those, at)
  {
    UpdatesAssemble(a, these, at);
    UpdatesAssemble(a, those, at);
    AssembledOwnChanges(a, these);
    AssembledOwnChanges(a, those);
    OwnChangesUnique(a, these, Assembled(a, these), those, Assembled(a, those));
  }

  lemma OwnChangesUnique(a: Acc, these: seq<Action>, b: Acc, those: seq<Action>, c: Acc)
    requires SameChanges(these, those) && HasOwnChanges(a, these, b) && HasOwnChanges(a, those, c)
    ensures b == c
  {
    forall k | k in b.states.Keys ensures b.states[k] == c.states[k] {
      PartAfterSame(a, these, those, k);
    }
    SameMap(b.states, c.states);
  }

  lemma PartAfterSame(a: Acc, these: seq<Action>, those: seq<Action>, k: Key)
    requires SameChanges(these, those)
    ensures PartAfter(a.states, these, k, a.limit) == PartAfter(a.states, those, k, a.limit)
  {
    assert EditsFor(these, k) == EditsFor(those, k);
  }

  lemma SameMap(a: map<Key, State>, b: map<Key, State>)
    requires a.Keys == b.Keys && forall k :: k in a.Keys ==> a[k] == b[k]
    ensures a == b
  {
  }

  // ---------- Events ----------

  /** All that an event asks for, given the choices that have finished. */
  function ChoicesActions(finished: set<(Source, int)>, choices: seq<Choice>, position: nat, at: int,
          finishes: bool): seq<Action>
    decreases |choices|
  {
    if choices == [] then []
    else
      FirstChoiceActions(finished, choices[0], position, at, finishes)
      + ChoicesActions(finished, choices[1..], position + 1, at, finishes)
  }

  function EventActions(finished: set<(Source, int)>, event: Event, at: int): seq<Action> {
    var finishes := !EventFailed(event.envelope);
    ChoicesActions(finished, event.choices, 0, at, finishes) + NativeActions(event, at, finishes)
      + ResponsesActions(event, at)
  }

  /** An event that only adds to parts: no finish reason, no status of a live part, no end. */
  predicate IsDelta(finished: set<(Source, int)>, event: Event, at: int) {
    EventEnd(event.envelope).NotTerminal? && AllUpdates(EventActions(finished, event, at))
  }

  /** What no update changes. */
  predicate SameCourse(a: Acc, b: Acc) {
    b.finishedChoices == a.finishedChoices && b.closed == a.closed
  }

  lemma UpdateKeepsCourse(a: Acc, action: Action, at: int)
    requires IsUpdate(action)
    ensures var (b, o) := Perform(a, action, at); SameCourse(a, b) && o == []
  {
    var k := KeyOf(action);
    var (b, ok) := GetState(a, k);
    assert SameCourse(a, b);
    assert SameCourse(b, EditPart(b, k, action.edits));
    if action.UpdateShell? {
      ShellKeepsCourse(EditPart(b, k, action.edits), k, action.commandIndex, action.command, action.authoritative);
    }
  }

  lemma ShellKeepsCourse(a: Acc, k: Key, index: int, command: Bytes, authoritative: bool)
    ensures SameCourse(a, EditShell(a, k, index, command, authoritative))
  {
  }

  lemma {:induction false} UpdatesKeepCourse(a: Acc, actions: seq<Action>, at: int)
    requires AllUpdates(actions)
    ensures var (b, o) := PerformAll(a, actions, at); SameCourse(a, b) && o == []
    decreases |actions|
  {
    if actions != [] {
      UpdateKeepsCourse(a, actions[0], at);
      UpdatesKeepCourse(Perform(a, actions[0], at).0, actions[1..], at);
    }
  }

  lemma UpdatesOfParts(x: seq<Action>, y: seq<Action>)
    requires AllUpdates(x + y)
    ensures AllUpdates(x) && AllUpdates(y)
  {
    assert forall i :: 0 <= i < |x| ==> (x + y)[i] == x[i];
    assert forall i :: 0 <= i < |y| ==> (x + y)[|x| + i] == y[i];
  }

  function FirstChoiceActions(finished: set<(Source, int)>, choice: Choice, position: nat, at: int,
          finishes: bool): seq<Action> {
    var index := Index(choice.index, position);
    if (Chat, index) in finished then [] else ChoiceActions(choice, index, at, finishes)
  }

  lemma {:induction false} ChoicesAsActions(a: Acc, choices: seq<Choice>, position: nat, at: int, finishes: bool)
    requires AllUpdates(ChoicesActions(a.finishedChoices, choices, position, at, finishes))
    ensures ObserveChoices(a, choices, position, at, finishes)
         == PerformAll(a, ChoicesActions(a.finishedChoices, choices, position, at, finishes), at)
    decreases |choices|
  {
    if choices != [] {
      var first := FirstChoiceActions(a.finishedChoices, choices[0], position, at, finishes);
      var rest := ChoicesActions(a.finishedChoices, choices[1..], position + 1, at, finishes);
      UpdatesOfParts(first, rest);
      PerformAppend(a, first, rest, at);
      UpdatesKeepCourse(a, first, at);
      ChoicesAsActions(PerformAll(a, first, at).0, choices[1..], position + 1, at, finishes);
    }
  }

  /** Observing a delta is performing its updates. */
  lemma DeltaAsActions(a: Acc, event: Event, at: int)
    requires IsDelta(a.finishedChoices, event, at)
    ensures ObserveEvent(a, event, at) == PerformAll(a, EventActions(a.finishedChoices, event, at), at)
  {
    var finishes := !EventFailed(event.envelope);
    var x := ChoicesActions(a.finishedChoices, event.choices, 0, at, finishes);
    var y, z := NativeActions(event, at, finishes), ResponsesActions(event, at);
    UpdatesOfParts(x + y, z);
    UpdatesOfParts(x, y);
    ChoicesAsActions(a, event.choices, 0, at, finishes);
    PerformAppend(a, x, y, at);
    PerformAppend(a, x + y, z, at);
  }

  /** A delta event and the time at which it arrived. */
  datatype Arrival = Arrival(event: Event, at: int)

  function Inputs(arrivals: seq<Arrival>): seq<Input> {
    if arrivals == [] then []
    else [Decoded(arrivals[0].event, arrivals[0].at)] + Inputs(arrivals[1..])
  }

  function AllActions(finished: set<(Source, int)>, arrivals: seq<Arrival>): seq<Action> {
    if arrivals == [] then []
    else EventActions(finished, arrivals[0].event, arrivals[0].at) + AllActions(finished, arrivals[1..])
  }

  predicate AllDeltas(finished: set<(Source, int)>, arrivals: seq<Arrival>) {
    forall i :: 0 <= i < |arrivals| ==> IsDelta(finished, arrivals[i].event, arrivals[i].at)
  }

  lemma {:induction false} AllActionsUpdate(finished: set<(Source, int)>, arrivals: seq<Arrival>)
    requires AllDeltas(finished, arrivals)
    ensures AllUpdates(AllActions(finished, arrivals))
  {
    if arrivals != [] {
      AllActionsUpdate(finished, arrivals[1..]);
    }
  }

  /** The time of a call is irrelevant to updates: their edits carry their own. */
  lemma {:induction false} UpdatesAnyTime(a: Acc, actions: seq<Action>, at: int, other: int)
    requires AllUpdates(actions)
    ensures PerformAll(a, actions, at) == PerformAll(a, actions, other)
    decreases |actions|
  {
    if actions != [] {
      UpdatesAnyTime(Perform(a, actions[0], at).0, actions[1..], at, other);
    }
  }

  lemma {:induction false} RunAsActions(a: Acc, arrivals: seq<Arrival>)
    requires !a.closed && AllDeltas(a.finishedChoices, arrivals)
    ensures Run(a, Inputs(arrivals)) == PerformAll(a, AllActions(a.finishedChoices, arrivals), 0)
    decreases |arrivals|
  {
    if arrivals != [] {
      var event, at, rest := arrivals[0].event, arrivals[0].at, arrivals[1..];
      var first := EventActions(a.finishedChoices, event, at);
      assert IsDelta(a.finishedChoices, event, at);
      DeltaAsActions(a, event, at);
      UpdatesAnyTime(a, first, at, 0);
      UpdatesKeepCourse(a, first, 0);
      RunAsActions(PerformAll(a, first, 0).0, rest);
      PerformAppend(a, first, AllActions(a.finishedChoices, rest), 0);
      assert Inputs(arrivals)[1..] == Inputs(rest);
    }
  }

  /**
   * Two arrivals of delta events that make the same changes to each part, each in its own order,
   * leave the same accumulator, however they are interleaved.
   */
  lemma ArrivalOrderIrrelevant(a: Acc, these: seq<Arrival>, those: seq<Arrival>)
    requires !a.closed && AllDeltas(a.finishedChoices, these) && AllDeltas(a.finishedChoices, those)
    requires SameChanges(AllActions(a.finishedChoices, these), AllActions(a.finishedChoices, those))
    requires Room(a, Claimed(AllActions(a.finishedChoices, these)))
    ensures Run(a, Inputs(these)) == Run(a, Inputs(those))
  {
    RunAsActions(a, these);
    RunAsActions(a, those);
    AllActionsUpdate(a.finishedChoices, these);
    AllActionsUpdate(a.finishedChoices, those);
    InterleavingIndependence(a, AllActions(a.finishedChoices, these), AllActions(a.finishedChoices, those), 0);
  }
}

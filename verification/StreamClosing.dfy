/**
 * The ends of a stream, by the types and fields of events alone: whatever is live is given out,
 * each group once, as what its parts come to, with the verdict and the marks that the end brings.
 */
module StreamClosing {
  import opened Bytes
  import opened LimitedText
  import opened StreamEvents
  import opened StreamParts
  import opened StreamActions
  import opened StreamAssembly
  import opened StreamFinishing
  import opened StreamInvariants
  import opened StreamSafety
  import opened StreamRuns
  import opened StreamOrder
  import opened StreamReports
  import opened StreamMeaning
  import opened StreamEndings
  import StreamStatus

  /** Everything is given out, nothing is left and nothing more is accepted. */
  ghost predicate StreamEnds(r: (Acc, seq<Output>), heard: Key -> State, e: Ending) {
    GivesOut(r.1, Everything(), heard, e) && r.0.states == map[] && r.0.closed
  }

  /** The end of a stream by its own protocol: what failed to decode makes it unreliable. */
  function ClosingOf(a: Acc, at: int, v: Verdict, incomplete: bool): Ending {
    Ending(at, v, a.limit, a.limited || a.decodeFailed, a.decodeFailed, a.terminalIncomplete || incomplete)
  }

  lemma Closed(b: Acc, t: Terminal, heard: Key -> State, at: int)
    requires Core(b) && Holds(b, heard) && t.Terminal? && Told(EndVerdict(t))
    ensures StreamEnds(FinishAll(CloseAt(b, t), at, EndVerdict(t)), heard,
              ClosingOf(b, at, EndVerdict(t), t.incomplete))
  {
    var c := CloseAt(b, t);
    AllGivenOut(c, heard, at, EndVerdict(t));
    FinishAllSafe(c, at, EndVerdict(t));
  }

  // ---------- The end marker and the end of the bytes ----------

  /** The end marker completes everything, as it is. */
  lemma MarkerGivesOut(a: Acc, payload: StreamEvents.Payload, at: int, heard: Key -> State)
    requires Valid(a) && !a.closed && forall k :: heard(k) == PartOrNew(a.states, k)
    ensures StreamEnds(Receive(a, Input.Payload(payload, true, at)), heard,
              ClosingOf(a, at, Verdict(true, false, ""), false))
  {
    AsTheyAre(a, heard);
    Closed(a, Terminal(false, false, ""), heard, at);
  }

  /** The end of the bytes leaves everything incomplete, as it is. */
  lemma EndGivesOut(a: Acc, at: int, heard: Key -> State)
    requires Valid(a) && !a.closed && forall k :: heard(k) == PartOrNew(a.states, k)
    ensures StreamEnds(Receive(a, End(at)), heard, EndingOf(a, at, Verdict(false, false, "")))
  {
    var c := a.(closed := true);
    AsTheyAre(a, heard);
    AllGivenOut(c, heard, at, Verdict(false, false, ""));
    FinishAllSafe(c, at, Verdict(false, false, ""));
  }

  // ---------- How events end a stream ----------

  /** What went wrong, by the first field that says so. */
  function Complaint(e: Envelope): Bytes {
    if e.message != "" then Truncate(e.message)
    else if e.error.Some? then e.error.value
    else if e.response.Some? && e.response.value.error.Some? then e.response.value.error.value
    else if e.code != "" then e.code
    else "upstream reported an error"
  }

  /** An event fails the stream by its type, or by an error if it has no type. */
  predicate FailsStream(e: Envelope) {
    e.eventType == "response.failed" || e.eventType == "error" || (e.eventType == "" && e.error.Some?)
  }

  function VerdictOf(e: Envelope): Verdict {
    if FailsStream(e) then Verdict(false, true, Complaint(e))
    else Verdict(e.eventType != "response.incomplete", false, "")
  }

  predicate CutsShort(e: Envelope) {
    !FailsStream(e) && e.eventType == "response.incomplete"
  }

  lemma EndsAsSaid(e: Envelope)
    requires EndsStream(e)
    ensures var t := EventEnd(e);
            t.Terminal? && EndVerdict(t) == VerdictOf(e) && t.incomplete == CutsShort(e) && Told(VerdictOf(e))
  {
  }

  /** What an event that ends a stream is heard as, then the end. */
  lemma HeardThenClosed(a: Acc, b: Acc, event: Event, heard: Key -> State, at: int)
    requires !a.closed && EndsStream(event.envelope) && ObserveDecoded(a, event, at) == (b, [])
    requires Core(b) && Holds(b, heard)
    ensures StreamEnds(Receive(a, Decoded(event, at)), heard,
              ClosingOf(b, at, VerdictOf(event.envelope), CutsShort(event.envelope)))
  {
    EndsAsSaid(event.envelope);
    Closed(b, EventEnd(event.envelope), heard, at);
    ClosedAfter(a, b, event, at);
  }

  lemma ClosedAfter(a: Acc, b: Acc, event: Event, at: int)
    requires !a.closed && EventEnd(event.envelope).Terminal? && ObserveDecoded(a, event, at) == (b, [])
    ensures var t := EventEnd(event.envelope);
            Receive(a, Decoded(event, at)) == FinishAll(CloseAt(b, t), at, EndVerdict(t))
  {
    EventThenEnds(a, b, event, at);
  }

  lemma EventThenEnds(a: Acc, b: Acc, event: Event, at: int)
    requires EventEnd(event.envelope).Terminal? && ObserveDecoded(a, event, at) == (b, [])
    ensures var t := EventEnd(event.envelope);
            ObserveEvent(a, event, at) == FinishAll(CloseAt(b, t), at, EndVerdict(t))
  {
    var t := EventEnd(event.envelope);
    var (c, o) := FinishAll(CloseAt(b, t), at, EndVerdict(t));
    assert [] + o == o;
  }

  // ---------- The items of a final response ----------

  /** Each item is heard as done by the parts of the output at its position. */
  function FinalHeard(s: State, key: Key, items: seq<Item>, position: nat, at: int, limit: nat): State {
    var i := key.outputIndex - position;
    if key.source == Responses && 0 <= i < |items| then DoneHeard(s, key, items[i], key.outputIndex, at, limit) else s
  }

  /** The parts that are new are of outputs from this position on. */
  ghost predicate NewFrom(a: Acc, b: Acc, position: int) {
    && a.states.Keys <= b.states.Keys
    && forall k :: k in b.states && k !in a.states ==> k.source == Responses && k.outputIndex >= position
  }

  /** Nothing but parts has changed. */
  predicate OnlyParts(a: Acc, b: Acc) {
    b == a.(states := b.states, groups := b.groups, createdParts := b.createdParts)
  }

  lemma {:induction false} ClaimedBoth(x: seq<Action>, y: seq<Action>)
    ensures Claimed(x + y) == Claimed(x) + Claimed(y)
    decreases |x|
  {
    if x == [] {
      assert x + y == y;
    } else {
      assert (x + y)[0] == x[0] && (x + y)[1..] == x[1..] + y;
      ClaimedBoth(x[1..], y);
    }
  }

  lemma ClaimsSplit(actions: seq<Action>, more: set<Unit>)
    requires actions != [] && IsUpdate(actions[0])
    ensures Claimed(actions) + more == Claims(actions[0]) + (Claimed(actions[1..]) + more)
  {
  }

  lemma AssembledStep(a: Acc, actions: seq<Action>)
    requires AllUpdates(actions) && actions != []
    ensures AllUpdates(actions[1..]) && Assembled(a, actions) == Assembled(PartChanged(a, actions[0]), actions[1..])
  {
  }

  lemma {:induction false} RoomAfterAll(a: Acc, actions: seq<Action>, more: set<Unit>)
    requires AllUpdates(actions) && Room(a, Claimed(actions) + more)
    ensures Room(Assembled(a, actions), more)
    decreases |actions|
  {
    if actions == [] {
      assert Claimed(actions) + more == more;
    } else {
      var claims, later := Claims(actions[0]), Claimed(actions[1..]) + more;
      ClaimsSplit(actions, more);
      AssembledStep(a, actions);
      RoomFirst(a, actions[0], later);
      RoomAfterAll(PartChanged(a, actions[0]), actions[1..], more);
    }
  }

  lemma RoomFirst(a: Acc, action: Action, later: set<Unit>)
    requires IsUpdate(action) && Room(a, Claims(action) + later)
    ensures Room(PartChanged(a, action), later)
  {
    RoomAfter(a, action, later);
  }

  lemma MarkKeepsUnits(b: Acc, output: int, status: Bytes, error: Option<Bytes>)
    ensures var c := OutputMarked(b, output, status, error);
            && c.states.Keys == b.states.Keys && Units(c.states) == Units(b.states)
            && c == b.(states := c.states)
  {
    var c := OutputMarked(b, output, status, error);
    forall k | k in b.states ensures c.states[k].shell == b.states[k].shell {
      OutputStatusMeans(b.states[k], status, error, b.limit);
    }
  }

  lemma MarkKeepsRoom(b: Acc, output: int, status: Bytes, error: Option<Bytes>, more: set<Unit>)
    requires Room(b, more)
    ensures Room(OutputMarked(b, output, status, error), more)
  {
    MarkKeepsUnits(b, output, status, error);
  }

  /** The new parts of an item are of its output. */
  lemma {:induction false} NewOfOutput(actions: seq<Action>, output: int, k: Key)
    requires StreamStatus.UpdatesOf(actions, output) && k in UnitKeys(Claimed(actions))
    ensures k.source == Responses && k.outputIndex == output
    decreases |actions|
  {
    assert UnitKeys({}) == {};
    if actions != [] {
      assert actions[0].Update? && InOutput(actions[0].key, output);
      UnitKeysSplit(Claims(actions[0]), Claimed(actions[1..]));
      UnitKeysOfClaims(actions[0]);
      if k != actions[0].key {
        NewOfOutput(actions[1..], output, k);
      }
    }
  }

  lemma FirstFinalAction(items: seq<Item>, position: nat, at: int)
    requires items != []
    ensures FinalItemsActions(items, position, at)
         == ItemActions(items[0], position, at, true) + [MarkOutput(position, items[0].status, items[0].error)]
            + FinalItemsActions(items[1..], position + 1, at)
    ensures Claimed(FinalItemsActions(items, position, at))
         == Claimed(ItemActions(items[0], position, at, true))
            + Claimed(FinalItemsActions(items[1..], position + 1, at))
  {
    var x, y := ItemActions(items[0], position, at, true), [MarkOutput(position, items[0].status, items[0].error)];
    ClaimedBoth(x, y);
    ClaimedBoth(x + y, FinalItemsActions(items[1..], position + 1, at));
    assert y[1..] == [];
  }

  /** One item heard and its status marked. */
  ghost function ItemMarked(a: Acc, item: Item, output: int, at: int): Acc {
    OutputMarked(PerformAll(a, ItemActions(item, output, at, true), at).0, output, item.status, item.error)
  }

  /** What an item of a final response leaves for the items after it. */
  ghost predicate ItemDoneTo(a: Acc, c: Acc, output: int, heard: Key -> State, more: set<Unit>) {
    && Core(c) && Holds(c, heard) && NewFrom(a, c, output) && OnlyParts(a, c) && Room(c, more)
    && forall k :: !OfTheOutput(output)(k) ==> PartOrNew(c.states, k) == PartOrNew(a.states, k)
  }

  /** The parts once one item of a final response has been heard. */
  lemma FinalItemTold(a: Acc, item: Item, output: int, at: int, heard: Key -> State, more: set<Unit>)
    requires Core(a) && Room(a, Claimed(ItemActions(item, output, at, true)) + more)
    requires forall k :: heard(k) == DoneHeard(PartOrNew(a.states, k), k, item, output, at, a.limit)
    ensures ItemDoneTo(a, ItemMarked(a, item, output, at), output, heard, more)
    ensures PerformAll(a, ItemActions(item, output, at, true), at).1 == []
  {
    var before := (k: Key) => ItemHeard(PartOrNew(a.states, k), k, item, true, output, at, a.limit);
    FinalItemHeard(a, item, output, at, before, more);
    FinalItemMarked(a, PerformAll(a, ItemActions(item, output, at, true), at).0, item, output, before, heard, more);
  }

  lemma FinalItemHeard(a: Acc, item: Item, output: int, at: int, before: Key -> State, more: set<Unit>)
    requires Core(a) && Room(a, Claimed(ItemActions(item, output, at, true)) + more)
    requires forall k :: before(k) == ItemHeard(PartOrNew(a.states, k), k, item, true, output, at, a.limit)
    ensures var (b, outputs) := PerformAll(a, ItemActions(item, output, at, true), at);
            && Core(b) && Holds(b, before) && NewFrom(a, b, output) && OnlyParts(a, b) && Room(b, more)
            && (forall k :: !OfTheOutput(output)(k) ==> PartOrNew(b.states, k) == PartOrNew(a.states, k))
            && outputs == []
  {
    var actions := ItemActions(item, output, at, true);
    RoomForLess(a, Claimed(actions), Claimed(actions) + more);
    ItemTold(a, item, output, at, before);
    ItemAssembles(a, item, output, at, more);
    forall k | !OfTheOutput(output)(k) ensures before(k) == PartOrNew(a.states, k) {
      NotOfTheItem(PartOrNew(a.states, k), k, item, output, at, a.limit);
    }
  }

  lemma NotOfTheItem(s: State, k: Key, item: Item, output: int, at: int, limit: nat)
    requires !OfTheOutput(output)(k)
    ensures ItemHeard(s, k, item, true, output, at, limit) == s
  {
  }

  lemma FinalItemMarked(a: Acc, b: Acc, item: Item, output: int, before: Key -> State, heard: Key -> State,
          more: set<Unit>)
    requires Core(b) && Holds(b, before) && NewFrom(a, b, output) && OnlyParts(a, b) && Room(b, more)
    requires forall k :: !OfTheOutput(output)(k) ==> PartOrNew(b.states, k) == PartOrNew(a.states, k)
    requires StatusReaches(output, item.status, item.error, before, heard)
    ensures ItemDoneTo(a, OutputMarked(b, output, item.status, item.error), output, heard, more)
  {
    MarkedHolds(b, output, item.status, item.error, before, heard);
    MarkedOthers(b, output, item.status, item.error);
    MarkKeepsRoom(b, output, item.status, item.error, more);
    MarkKeepsUnits(b, output, item.status, item.error);
  }

  lemma ItemAssembles(a: Acc, item: Item, output: int, at: int, more: set<Unit>)
    requires Room(a, Claimed(ItemActions(item, output, at, true)) + more)
    ensures var b := PerformAll(a, ItemActions(item, output, at, true), at).0;
            Room(b, more) && NewFrom(a, b, output)
  {
    var actions := ItemActions(item, output, at, true);
    ItemUpdates(item, output, at, true);
    RoomForLess(a, Claimed(actions), Claimed(actions) + more);
    UpdatesAssemble(a, actions, at);
    AssembledOwnChanges(a, actions);
    RoomAfterAll(a, actions, more);
    StreamStatus.ItemActionsOf(item, output, at, true);
    var b := Assembled(a, actions);
    forall k | k in b.states && k !in a.states ensures k.source == Responses && k.outputIndex >= output {
      NewOfOutput(actions, output, k);
    }
  }

  lemma PerformMarkedItem(a: Acc, items: seq<Item>, position: nat, at: int)
    requires items != [] && PerformAll(a, ItemActions(items[0], position, at, true), at).1 == []
    ensures PerformAll(a, FinalItemsActions(items, position, at), at)
         == PerformAll(ItemMarked(a, items[0], position, at), FinalItemsActions(items[1..], position + 1, at), at)
  {
    var x, mark := ItemActions(items[0], position, at, true), MarkOutput(position, items[0].status, items[0].error);
    var rest := FinalItemsActions(items[1..], position + 1, at);
    var b := PerformAll(a, x, at).0;
    FirstFinalAction(items, position, at);
    PerformOne(b, mark, at);
    PerformMark(b, position, items[0].status, items[0].error, at);
    QuietFirst(a, x, [mark], at);
    QuietFirst(a, x + [mark], rest, at);
  }

  ghost predicate HoldsAt(c: Acc, k: Key, s: State) {
    if k in c.states then c.states[k] == s else !Speaking(s)
  }

  /** The parts of the first item are no more changed. */
  lemma OwnItem(c: Acc, d: Acc, k: Key, position: int, first: State, rest: State)
    requires OfTheOutput(position)(k) && NewFrom(c, d, position + 1) && HoldsAt(c, k, first) && HoldsAt(d, k, rest)
    requires rest == PartOrNew(c.states, k)
    ensures HoldsAt(d, k, first)
  {
  }

  lemma OtherItem(s: State, k: Key, items: seq<Item>, position: nat, at: int, limit: nat)
    requires items != [] && !OfTheOutput(position)(k)
    ensures FinalHeard(s, k, items[1..], position + 1, at, limit) == FinalHeard(s, k, items, position, at, limit)
  {
    var i := k.outputIndex - position;
    assert 0 < i < |items| ==> items[1..][i - 1] == items[i];
  }

  lemma OwnHeard(s: State, k: Key, items: seq<Item>, position: nat, at: int, limit: nat)
    requires items != [] && OfTheOutput(position)(k)
    ensures FinalHeard(s, k, items, position, at, limit) == DoneHeard(s, k, items[0], position, at, limit)
  {
  }

  lemma NoLongerHeard(s: State, k: Key, items: seq<Item>, position: nat, at: int, limit: nat)
    requires items != [] && OfTheOutput(position)(k)
    ensures FinalHeard(s, k, items[1..], position + 1, at, limit) == s
  {
  }

  /** Of one part: what the first item leaves is what the others start from. */
  predicate InTurn(s: State, t: State, k: Key, position: int, first: State, rest: State, heard: State) {
    if OfTheOutput(position)(k) then rest == t && heard == first else t == s && heard == rest
  }

  lemma HeardInTurn(s: State, t: State, k: Key, items: seq<Item>, position: nat, at: int, limit: nat)
    requires items != [] && (!OfTheOutput(position)(k) ==> t == s)
    ensures InTurn(s, t, k, position, DoneHeard(s, k, items[0], position, at, limit),
              FinalHeard(t, k, items[1..], position + 1, at, limit), FinalHeard(s, k, items, position, at, limit))
  {
    if OfTheOutput(position)(k) {
      OwnHeard(s, k, items, position, at, limit);
      NoLongerHeard(t, k, items, position, at, limit);
    } else {
      OtherItem(s, k, items, position, at, limit);
    }
  }

  lemma HoldsInTurn(c: Acc, d: Acc, k: Key, position: int, s: State, first: State, rest: State, heard: State)
    requires HoldsAt(c, k, first) && HoldsAt(d, k, rest) && NewFrom(c, d, position + 1)
    requires InTurn(s, PartOrNew(c.states, k), k, position, first, rest, heard)
    ensures HoldsAt(d, k, heard)
  {
    if OfTheOutput(position)(k) {
      OwnItem(c, d, k, position, first, rest);
    }
  }

  lemma FirstThenRest(a: Acc, c: Acc, d: Acc, items: seq<Item>, position: nat, at: int, first: Key -> State,
          rest: Key -> State, heard: Key -> State)
    requires items != [] && Holds(c, first) && Holds(d, rest) && NewFrom(c, d, position + 1)
    requires forall k :: !OfTheOutput(position)(k) ==> PartOrNew(c.states, k) == PartOrNew(a.states, k)
    requires forall k :: first(k) == DoneHeard(PartOrNew(a.states, k), k, items[0], position, at, a.limit)
    requires forall k :: rest(k) == FinalHeard(PartOrNew(c.states, k), k, items[1..], position + 1, at, a.limit)
    requires forall k :: heard(k) == FinalHeard(PartOrNew(a.states, k), k, items, position, at, a.limit)
    ensures Holds(d, heard)
  {
    forall k ensures HoldsAt(d, k, heard(k)) {
      assert HoldsAt(c, k, first(k)) && HoldsAt(d, k, rest(k));
      HeardInTurn(PartOrNew(a.states, k), PartOrNew(c.states, k), k, items, position, at, a.limit);
      HoldsInTurn(c, d, k, position, PartOrNew(a.states, k), first(k), rest(k), heard(k));
    }
  }

  lemma {:induction false} FinalItemsTold(a: Acc, items: seq<Item>, position: nat, at: int, heard: Key -> State)
    requires Core(a) && Room(a, Claimed(FinalItemsActions(items, position, at)))
    requires forall k :: heard(k) == FinalHeard(PartOrNew(a.states, k), k, items, position, at, a.limit)
    ensures var (d, outputs) := PerformAll(a, FinalItemsActions(items, position, at), at);
            Core(d) && Holds(d, heard) && NewFrom(a, d, position) && OnlyParts(a, d) && outputs == []
    decreases |items|
  {
    if items == [] {
      AsTheyAre(a, heard);
    } else {
      var first := (k: Key) => DoneHeard(PartOrNew(a.states, k), k, items[0], position, at, a.limit);
      var later := FinalItemsActions(items[1..], position + 1, at);
      FirstFinalAction(items, position, at);
      FinalItemTold(a, items[0], position, at, first, Claimed(later));
      PerformMarkedItem(a, items, position, at);
      var c := ItemMarked(a, items[0], position, at);
      var rest := (k: Key) => FinalHeard(PartOrNew(c.states, k), k, items[1..], position + 1, at, a.limit);
      FinalItemsTold(c, items[1..], position + 1, at, rest);
      FirstThenRest(a, c, PerformAll(c, later, at).0, items, position, at, first, rest, heard);
    }
  }

  // ---------- A final response ----------

  predicate BringsResponse(t: Bytes) {
    t == "response.completed" || t == "response.failed" || t == "response.incomplete"
  }

  function ItemsOf(e: Envelope): seq<Item> {
    if e.response.Some? then e.response.value.output else []
  }

  lemma ResponseTypeTellsNothing(t: Bytes)
    requires BringsResponse(t)
    ensures EventKindOf(t).OtherEvent?
  {
    NoKind(t);
  }

  lemma ShortName(name: Bytes, status: Bytes)
    requires |name| <= |status|
    ensures LifecycleOf(name, status) == None
  {
  }

  lemma NoOtherStatus(name: Bytes, status: Bytes)
    requires |name| > 2 && |status| > 2
    requires name[|name| - 1] != status[|status| - 1] || name[|name| - 3] != status[|status| - 3]
    ensures LifecycleOf(name, status) == None
  {
    if HasSuffix(name, "." + status) {
      LastLetters(name, "." + status);
    }
  }

  /** Such a type is the status of a response, not of a tool call. */
  lemma ResponseTypeReportsNothing(t: Bytes)
    requires BringsResponse(t)
    ensures ToolLifecycle(t) == None
  {
    var name := t[9..];
    assert name == "completed" || name == "failed" || name == "incomplete";
    if name == "completed" {
      ShortName(name, "completed");
      NoOtherStatus(name, "failed");
      NoOtherStatus(name, "incomplete");
    } else if name == "failed" {
      ShortName(name, "completed");
      ShortName(name, "failed");
      ShortName(name, "incomplete");
    } else {
      NoOtherStatus(name, "completed");
      NoOtherStatus(name, "failed");
      ShortName(name, "incomplete");
    }
  }

  lemma ResponseAlone(a: Acc, event: Event, at: int)
    requires BringsResponse(event.envelope.eventType) && event.choices == []
    ensures ObserveDecoded(a, event, at) == PerformAll(a, FinalItemsActions(ItemsOf(event.envelope), 0, at), at)
  {
    var t, actions := event.envelope.eventType, FinalItemsActions(ItemsOf(event.envelope), 0, at);
    ResponseTypeTellsNothing(t);
    ResponseTypeReportsNothing(t);
    OtherTellsNothing(EventKindOf(t), event, at);
    assert [] + [] + actions == actions;
    assert ResponsesActions(event, at) == actions;
    TypedAlone(a, event, at);
  }

  /** An event of a type, with no choices. */
  lemma TypedAlone(a: Acc, event: Event, at: int)
    requires event.envelope.eventType != "" && event.choices == []
    ensures ObserveDecoded(a, event, at) == PerformAll(a, ResponsesActions(event, at), at)
  {
    var (d, o) := PerformAll(a, ResponsesActions(event, at), at);
    assert [] + [] + o == o;
  }

  lemma ResponseEnds(e: Envelope)
    requires BringsResponse(e.eventType) || e.eventType == "error"
    ensures EndsStream(e)
  {
  }

  /**
   * A final response gives out everything, once each of its items has been heard in full: as
   * complete, as failed or as incomplete, as its type says.
   */
  lemma FinalResponseGivesOut(a: Acc, event: Event, at: int, heard: Key -> State)
    requires Valid(a) && !a.closed && BringsResponse(event.envelope.eventType) && event.choices == []
    requires Room(a, Claimed(FinalItemsActions(ItemsOf(event.envelope), 0, at)))
    requires forall k :: heard(k) == FinalHeard(PartOrNew(a.states, k), k, ItemsOf(event.envelope), 0, at, a.limit)
    ensures StreamEnds(Receive(a, Decoded(event, at)), heard,
              ClosingOf(a, at, VerdictOf(event.envelope), CutsShort(event.envelope)))
  {
    FinalItemsTold(a, ItemsOf(event.envelope), 0, at, heard);
    ResponseAlone(a, event, at);
    ResponseEnds(event.envelope);
    HeardThenClosed(a, ObserveDecoded(a, event, at).0, event, heard, at);
  }

  lemma ErrorAlone(a: Acc, event: Event, at: int)
    requires event.envelope.eventType == "error" && event.choices == []
    ensures ObserveDecoded(a, event, at) == (a, [])
  {
    var t := event.envelope.eventType;
    NoKind(t);
    OtherTellsNothing(EventKindOf(t), event, at);
    assert ResponsesActions(event, at) == [];
    TypedAlone(a, event, at);
  }

  /** An error gives out everything as failed, as it is. */
  lemma ErrorGivesOut(a: Acc, event: Event, at: int, heard: Key -> State)
    requires Valid(a) && !a.closed && event.envelope.eventType == "error" && event.choices == []
    requires forall k :: heard(k) == PartOrNew(a.states, k)
    ensures StreamEnds(Receive(a, Decoded(event, at)), heard, ClosingOf(a, at, VerdictOf(event.envelope), false))
    ensures VerdictOf(event.envelope) == Verdict(false, true, Complaint(event.envelope))
  {
    AsTheyAre(a, heard);
    ErrorAlone(a, event, at);
    ResponseEnds(event.envelope);
    HeardThenClosed(a, a, event, heard, at);
  }

  // ---------- Native answers ----------

  function StopReason(event: Event): Bytes {
    if event.stopType == "" then "stop" else event.stopType
  }

  /** The actions of a native event but the last, which is that of its stop. */
  function NativeTold(event: Event, at: int): seq<Action> {
    NativeActions(event.(envelope := event.envelope.(stop := false)), at, true)
  }

  lemma NativeToldMeans(a: Acc, event: Event, at: int, before: Key -> State)
    requires Core(a) && event.envelope.eventType == "" && event.choices == [] && Room(a, Claimed(NativeTold(event, at)))
    requires forall k :: before(k) == NativeHeard(PartOrNew(a.states, k), k, event, at, a.limit)
    ensures var (b, outputs) := PerformAll(a, NativeTold(event, at), at);
            && Core(b) && Holds(b, before) && outputs == [] && OnlyParts(a, b)
            && forall k :: PartOrNew(b.states, k) == before(k)
  {
    var quiet := event.(envelope := event.envelope.(stop := false));
    NativeActionsOK(quiet, at, true);
    NativeUpdates(quiet, at);
    forall k ensures before(k) == On(PartOrNew(a.states, k), NativeTold(event, at), k, a.limit) {
      NativeMeans(PartOrNew(a.states, k), quiet, at, true, k, a.limit);
    }
    ToldBefore(a, NativeTold(event, at), at, before);
  }

  lemma NativeUpdates(event: Event, at: int)
    requires !event.envelope.stop
    ensures AllUpdates(NativeActions(event, at, true))
  {
  }

  /** A native event asks for what it tells, and then for what its stop does. */
  lemma NativeInTwo(event: Event, at: int, finishes: bool)
    requires event.envelope.eventType == "" && event.choices == []
    ensures NativeActions(event, at, finishes) == NativeTold(event, at) + NativeStopActions(event, finishes)
  {
    var x := Tell(NativeKey(Reasoning), ReasoningText, PreferredReasoning(event.reasoningContent, event.reasoning), at)
      + Tell(NativeKey(Kind.Response), ContentText, event.content, at);
    assert x + [] == x;
  }

  lemma NativeAlone(a: Acc, event: Event, at: int)
    requires event.envelope.eventType == "" && event.choices == []
    ensures ObserveDecoded(a, event, at)
         == PerformAll(a, NativeActions(event, at, !EventFailed(event.envelope)), at)
  {
    var (c, o) := PerformAll(a, NativeActions(event, at, !EventFailed(event.envelope)), at);
    assert [] + o + [] == o;
    assert ResponsesActions(event, at) == [];
  }

  /** The live parts of the native answer are told why it stopped, if it did. */
  function FailureHeard(s: State, key: Key, event: Event, at: int, limit: nat): State {
    var r := NativeHeard(s, key, event, at, limit);
    if event.envelope.stop && OfTheChoice(Native, 0)(key) then Named(r, FinishReasonText, StopReason(event), limit)
    else r
  }

  lemma ReasonHolds(b: Acc, source: Source, index: int, reason: Bytes, before: Key -> State, heard: Key -> State)
    requires Core(b) && Holds(b, before)
    requires ReasonReaches(source, index, reason, before, heard, b.limit)
    ensures Core(ChoiceReasonSet(b, source, index, reason)) && Holds(ChoiceReasonSet(b, source, index, reason), heard)
  {
    var c := ChoiceReasonSet(b, source, index, reason);
    ChoiceReasonSafe(b, source, index, reason);
    forall k ensures HoldsAt(c, k, heard(k)) {
      ReasonKeepsVoice(before(k), reason, b.limit);
    }
  }

  /** A native failure tells the parts, and then why the answer stopped. */
  ghost function NativeFailed(a: Acc, event: Event, at: int): Acc {
    var b := PerformAll(a, NativeTold(event, at), at).0;
    if event.envelope.stop then ChoiceReasonSet(b, Native, 0, StopReason(event)) else b
  }

  lemma FailureInTwo(a: Acc, event: Event, at: int)
    requires event.envelope.eventType == "" && event.envelope.error.Some? && event.choices == []
    requires PerformAll(a, NativeTold(event, at), at).1 == []
    ensures ObserveDecoded(a, event, at) == (NativeFailed(a, event, at), [])
  {
    var told, stop := NativeTold(event, at), SetChoiceReason(Native, 0, StopReason(event));
    NativeAlone(a, event, at);
    NativeInTwo(event, at, false);
    if event.envelope.stop {
      QuietFirst(a, told, [stop], at);
      PerformOne(PerformAll(a, told, at).0, stop, at);
    } else {
      assert told + [] == told;
    }
  }

  /** What a native failure leaves before the end. */
  lemma FailureTold(a: Acc, event: Event, at: int, heard: Key -> State)
    requires Core(a) && event.envelope.eventType == "" && event.choices == [] && Room(a, Claimed(NativeTold(event, at)))
    requires forall k :: heard(k) == FailureHeard(PartOrNew(a.states, k), k, event, at, a.limit)
    ensures Core(NativeFailed(a, event, at)) && Holds(NativeFailed(a, event, at), heard)
    ensures forall t, v, i :: ClosingOf(NativeFailed(a, event, at), t, v, i) == ClosingOf(a, t, v, i)
    ensures PerformAll(a, NativeTold(event, at), at).1 == []
  {
    var before := (k: Key) => NativeHeard(PartOrNew(a.states, k), k, event, at, a.limit);
    NativeToldMeans(a, event, at, before);
    if event.envelope.stop {
      ReasonHolds(PerformAll(a, NativeTold(event, at), at).0, Native, 0, StopReason(event), before, heard);
    }
  }

  /** An error with no type gives out everything as failed, once the native parts have heard the event. */
  lemma NativeFailureGivesOut(a: Acc, event: Event, at: int, heard: Key -> State)
    requires Valid(a) && !a.closed
    requires event.envelope.eventType == "" && event.envelope.error.Some? && event.choices == []
    requires Room(a, Claimed(NativeTold(event, at)))
    requires forall k :: heard(k) == FailureHeard(PartOrNew(a.states, k), k, event, at, a.limit)
    ensures StreamEnds(Receive(a, Decoded(event, at)), heard,
              ClosingOf(a, at, Verdict(false, true, Complaint(event.envelope)), false))
  {
    FailureTold(a, event, at, heard);
    FailureInTwo(a, event, at);
    HeardThenClosed(a, NativeFailed(a, event, at), event, heard, at);
  }

  // ---------- A native answer that stops ----------

  /** The parts of the native answer have heard it and why it stopped. */
  function StopHeard(s: State, key: Key, event: Event, at: int, limit: nat): State {
    var r := NativeHeard(s, key, event, at, limit);
    if OfTheChoice(Native, 0)(key) then Named(r, FinishReasonText, StopReason(event), limit) else r
  }

  lemma StopInTwo(a: Acc, event: Event, at: int)
    requires event.envelope.eventType == "" && event.envelope.error.None? && event.choices == [] && event.envelope.stop
    requires PerformAll(a, NativeTold(event, at), at).1 == []
    ensures ObserveDecoded(a, event, at)
         == FinishChoiceOf(PerformAll(a, NativeTold(event, at), at).0, Native, 0, at, StopReason(event))
  {
    var told, stop := NativeTold(event, at), FinishChoice(Native, 0, StopReason(event));
    NativeAlone(a, event, at);
    NativeInTwo(event, at, true);
    QuietFirst(a, told, [stop], at);
    PerformOne(PerformAll(a, told, at).0, stop, at);
  }

  lemma StopTold(a: Acc, event: Event, at: int, heard: Key -> State)
    requires Core(a) && event.envelope.eventType == "" && event.choices == [] && Room(a, Claimed(NativeTold(event, at)))
    requires (Native, 0) !in a.finishedChoices && |a.finishedChoices| < MAX_STREAM_OUTPUT_STATES
    requires forall k :: heard(k) == StopHeard(PartOrNew(a.states, k), k, event, at, a.limit)
    ensures var b := PerformAll(a, NativeTold(event, at), at).0;
            var r := FinishChoiceOf(b, Native, 0, at, StopReason(event));
            && ChoiceEnds(r, Native, 0, heard, EndingOf(a, at, Verdict(true, false, "")))
            && Core(r.0) && forall t, v :: EndingOf(r.0, t, v) == EndingOf(a, t, v)
    ensures PerformAll(a, NativeTold(event, at), at).1 == []
  {
    var before := (k: Key) => NativeHeard(PartOrNew(a.states, k), k, event, at, a.limit);
    NativeToldMeans(a, event, at, before);
    var b := PerformAll(a, NativeTold(event, at), at).0;
    FinishedFrom(a, b, Native, 0, StopReason(event), at, before, heard);
    FinishChoiceSafe(b, Native, 0, at, StopReason(event));
    ChoiceKeepsMarks(b, Native, 0, at, StopReason(event));
  }

  lemma ChoiceKeepsMarks(b: Acc, source: Source, index: int, at: int, reason: Bytes)
    requires Core(b) && source != Responses && (source, index) !in b.finishedChoices
    requires |b.finishedChoices| < MAX_STREAM_OUTPUT_STATES
    ensures var d := FinishChoiceOf(b, source, index, at, reason).0;
            forall t, v :: EndingOf(d, t, v) == EndingOf(b, t, v)
  {
    var c, v := ChoiceRecorded(b, source, index, reason), Verdict(true, false, "");
    ChoiceRecordedSafe(b, source, index, reason);
    FinishMatchingSafe(c, ChoiceKeys(c, source, index), at, v);
  }

  /** A report under an ending that marks as much. */
  lemma SameMarks(outputs: seq<Output>, g: Group, ks: seq<Key>, parts: seq<State>, e: Ending, f: Ending)
    requires ks != [] && StreamReports.Reported(outputs, g, ks, parts, e)
    requires f == e.(limited := f.limited) && Limits(e) == Limits(f)
    ensures StreamReports.Reported(outputs, g, ks, parts, f)
  {
    var o :| o in outputs && OutputGroup(o) == g && Reports(o, ks, parts, e);
    assert Reports(o, ks, parts, f);
  }

  /** Every voice that is left once a choice has ended belongs to a part that is left. */
  lemma LeftVoices(d: Acc, heard: Key -> State, rest: Key -> State, g: Group)
    requires Core(d) && Leaves(d, OfTheChoice(Native, 0), heard) && forall k :: rest(k) == PartOrNew(d.states, k)
    ensures Voiced(Everything(), rest, g) ==> g.source != Native && Voiced(Everything(), heard, g)
  {
    if Voiced(Everything(), rest, g) {
      var k :| Everything()(k) && GroupOf(k) == g && Speaking(rest(k));
      if k !in d.states {
        NewIsSilent(k);
      }
      assert KeyOK(k) && !OfTheChoice(Native, 0)(k);
      assert Everything()(k) && Speaking(heard(k));
    }
  }

  /** A list of parts that are left is a list of them then. */
  lemma LeftList(d: Acc, heard: Key -> State, rest: Key -> State, g: Group, ks: seq<Key>)
    requires Leaves(d, OfTheChoice(Native, 0), heard) && (forall k :: rest(k) == PartOrNew(d.states, k))
    requires ListsOf(ks, g, heard) && g.source != Native
    ensures ListsOf(ks, g, rest) && PartsOf(ks, rest) == PartsOf(ks, heard)
  {
    forall k ensures k in ks <==> GroupOf(k) == g && Speaking(rest(k)) {
      if GroupOf(k) == g {
        assert !OfTheChoice(Native, 0)(k);
      }
      assert k in ks <==> GroupOf(k) == g && Speaking(heard(k));
    }
    SameParts(ks, rest, heard);
  }

  lemma {:induction false} SameParts(ks: seq<Key>, x: Key -> State, y: Key -> State)
    requires forall k :: k in ks ==> x(k) == y(k)
    ensures PartsOf(ks, x) == PartsOf(ks, y)
  {
    if ks != [] {
      SameParts(ks[1..], x, y);
    }
  }

  /** A native list is of the native answer. */
  lemma NativeList(d: Acc, heard: Key -> State, g: Group, ks: seq<Key>)
    requires Core(d) && Leaves(d, OfTheChoice(Native, 0), heard) && ListsOf(ks, g, heard) && g.source == Native
    ensures OfTheChoice(Native, 0)(ks[0])
  {
    var k := ks[0];
    assert k in ks && (k in d.states ==> KeyOK(k));
    NewIsSilent(k);
  }

  lemma OneOfTwo(outputs: seq<Output>, more: seq<Output>, g: Group, ks: seq<Key>, parts: seq<State>, e: Ending)
    requires ks != []
    requires StreamReports.Reported(outputs, g, ks, parts, e) || StreamReports.Reported(more, g, ks, parts, e)
    ensures StreamReports.Reported(outputs + more, g, ks, parts, e)
  {
    ReportedLater(outputs, more, g, ks, parts, e);
  }

  /** What the native answer gives out and what is given out after it are all there is. */
  lemma NativeThenRest(d: Acc, outputs: seq<Output>, more: seq<Output>, heard: Key -> State, rest: Key -> State,
          e: Ending, f: Ending)
    requires Core(d) && GivesOut(outputs, OfTheChoice(Native, 0), heard, e) && Leaves(d, OfTheChoice(Native, 0), heard)
    requires GivesOut(more, Everything(), rest, f) && forall k :: rest(k) == PartOrNew(d.states, k)
    requires f == e.(limited := f.limited) && Limits(e) == Limits(f)
    ensures GivesOut(outputs + more, Everything(), heard, f)
  {
    var all := outputs + more;
    forall o | o in all ensures Voiced(Everything(), heard, OutputGroup(o)) {
      NativeOrLater(d, outputs, more, heard, rest, o);
    }
    forall i, j | 0 <= i < j < |all| ensures OutputGroup(all[i]) != OutputGroup(all[j]) {
      if i < |outputs| <= j {
        NativeFirst(d, outputs, more, heard, rest, outputs[i], more[j - |outputs|]);
      }
    }
    forall g: Group, ks: seq<Key> | ListsOf(ks, g, heard) && Everything()(ks[0])
      ensures StreamReports.Reported(all, g, ks, PartsOf(ks, heard), f)
    {
      if g.source == Native {
        NativeList(d, heard, g, ks);
        SameMarks(outputs, g, ks, PartsOf(ks, heard), e, f);
      } else {
        LeftList(d, heard, rest, g, ks);
      }
      OneOfTwo(outputs, more, g, ks, PartsOf(ks, heard), f);
    }
  }

  lemma NativeOrLater(d: Acc, outputs: seq<Output>, more: seq<Output>, heard: Key -> State, rest: Key -> State,
          o: Output)
    requires Core(d) && Leaves(d, OfTheChoice(Native, 0), heard) && (forall k :: rest(k) == PartOrNew(d.states, k))
    requires forall p :: p in outputs ==> Voiced(OfTheChoice(Native, 0), heard, OutputGroup(p))
    requires forall p :: p in more ==> Voiced(Everything(), rest, OutputGroup(p))
    requires o in outputs || o in more
    ensures Voiced(Everything(), heard, OutputGroup(o))
  {
    if o in more {
      LeftVoices(d, heard, rest, OutputGroup(o));
    } else {
      var k :| OfTheChoice(Native, 0)(k) && GroupOf(k) == OutputGroup(o) && Speaking(heard(k));
      assert Everything()(k);
    }
  }

  lemma NativeFirst(d: Acc, outputs: seq<Output>, more: seq<Output>, heard: Key -> State, rest: Key -> State, o: Output,
          p: Output)
    requires Core(d) && Leaves(d, OfTheChoice(Native, 0), heard) && (forall k :: rest(k) == PartOrNew(d.states, k))
    requires Voiced(OfTheChoice(Native, 0), heard, OutputGroup(o)) && Voiced(Everything(), rest, OutputGroup(p))
    ensures OutputGroup(o) != OutputGroup(p)
  {
    LeftVoices(d, heard, rest, OutputGroup(p));
    var k :| OfTheChoice(Native, 0)(k) && GroupOf(k) == OutputGroup(o) && Speaking(heard(k));
    assert OutputGroup(o).source == Native;
  }

  lemma StoppedThenClosed(a: Acc, event: Event, at: int)
    requires !a.closed && event.envelope.stop && event.envelope.eventType == "" && event.envelope.error.None?
    ensures var r := ObserveDecoded(a, event, at);
            var q := FinishAll(CloseAt(r.0, Terminal(false, false, "")), at, Verdict(true, false, ""));
            Receive(a, Decoded(event, at)) == (q.0, r.1 + q.1)
  {
  }

  /** The end after a native stop gives out what the stop has left. */
  lemma StopThenRest(d: Acc, outputs: seq<Output>, heard: Key -> State, at: int, e: Ending)
    requires Core(d) && ChoiceEnds((d, outputs), Native, 0, heard, e) && e == EndingOf(d, at, Verdict(true, false, ""))
    ensures var q := FinishAll(CloseAt(d, Terminal(false, false, "")), at, Verdict(true, false, ""));
            StreamEnds((q.0, outputs + q.1), heard, ClosingOf(d, at, Verdict(true, false, ""), false))
  {
    var t, v := Terminal(false, false, ""), Verdict(true, false, "");
    var rest := (k: Key) => PartOrNew(d.states, k);
    AsTheyAre(d, rest);
    Closed(d, t, rest, at);
    var q := FinishAll(CloseAt(d, t), at, v);
    NativeThenRest(d, outputs, q.1, heard, rest, e, ClosingOf(d, at, v, false));
  }

  /** A native answer that stops gives out everything as complete, the native parts with the reason. */
  lemma NativeStopGivesOut(a: Acc, event: Event, at: int, heard: Key -> State)
    requires Valid(a) && !a.closed && event.envelope.eventType == "" && event.envelope.stop
    requires event.envelope.error.None? && event.choices == [] && Room(a, Claimed(NativeTold(event, at)))
    requires (Native, 0) !in a.finishedChoices && |a.finishedChoices| < MAX_STREAM_OUTPUT_STATES
    requires forall k :: heard(k) == StopHeard(PartOrNew(a.states, k), k, event, at, a.limit)
    ensures StreamEnds(Receive(a, Decoded(event, at)), heard, ClosingOf(a, at, Verdict(true, false, ""), false))
  {
    StopTold(a, event, at, heard);
    StopInTwo(a, event, at);
    StoppedThenClosed(a, event, at);
    var r, v := ObserveDecoded(a, event, at), Verdict(true, false, "");
    StopEndings(a, r.0, at);
    StopThenRest(r.0, r.1, heard, at, EndingOf(a, at, v));
  }

  lemma StopEndings(a: Acc, d: Acc, at: int)
    requires EndingOf(d, at, Verdict(true, false, "")) == EndingOf(a, at, Verdict(true, false, ""))
    ensures ClosingOf(a, at, Verdict(true, false, ""), false) == ClosingOf(d, at, Verdict(true, false, ""), false)
  {
  }

  // ---------- Payloads that are no events ----------

  /** How the end that such a payload reports is read: a stop goes before an error. */
  function MisfitVerdict(e: Envelope): Verdict {
    if e.eventType == "response.failed" || e.eventType == "error" then Verdict(false, true, Complaint(e))
    else if e.eventType == "response.incomplete" then Verdict(false, false, "")
    else if e.eventType == "response.completed" || e.stop then Verdict(true, false, "")
    else Verdict(false, true, Complaint(e))
  }

  lemma MisfitEnds(p: StreamEvents.Payload)
    requires p.JSON?
    ensures DecodeTerminal(p).Terminal? <==> p.envelopeOK && EndsStream(p.envelope)
    ensures var t := DecodeTerminal(p);
            t.Terminal? ==> && EndVerdict(t) == MisfitVerdict(p.envelope) && Told(MisfitVerdict(p.envelope))
                            && t.incomplete == (p.envelope.eventType == "response.incomplete")
  {
  }

  /**
   * A payload that is JSON but no event tells no part anything; if it still reports the end, it
   * gives out everything, as limited.
   */
  lemma MisfitGivesOut(a: Acc, payload: StreamEvents.Payload, at: int, heard: Key -> State)
    requires Valid(a) && !a.closed && payload.JSON? && payload.event.None?
    requires forall k :: heard(k) == PartOrNew(a.states, k)
    ensures var r := Receive(a, Input.Payload(payload, false, at));
            if payload.envelopeOK && EndsStream(payload.envelope) then
              StreamEnds(r, heard, Ending(at, MisfitVerdict(payload.envelope), a.limit, true, true,
                a.terminalIncomplete || payload.envelope.eventType == "response.incomplete"))
            else r == (a.(limited := true, decodeFailed := true), [])
  {
    var b := a.(decodeFailed := true, limited := true);
    MisfitEnds(payload);
    if DecodeTerminal(payload).Terminal? {
      MisfitCore(a);
      AsTheyAre(b, heard);
      Closed(b, DecodeTerminal(payload), heard, at);
    }
  }

  lemma MisfitCore(a: Acc)
    requires Core(a)
    ensures Core(a.(decodeFailed := true, limited := true))
  {
  }

  // ---------- Whole answers ----------

  /** A fresh accumulator after events that only tell, and the end marker or the end of the bytes. */
  lemma AnswerGivenOut(limit: int, arrivals: seq<Arrival>, end: Input, heard: Key -> State)
    requires AllTell({}, arrivals) && Room(NewAcc(limit), Claimed(AllActions({}, arrivals)))
    requires end.End? || (end.Payload? && end.protocolTerminal)
    requires forall k :: heard(k) == AllHeard(NewState(k.kind, LabelsOf(k)), k, {}, arrivals, NewAcc(limit).limit)
    ensures StreamEnds(Run(NewAcc(limit), Inputs(arrivals) + [end]), heard,
              Ending(end.at, Verdict(end.Payload?, false, ""), NewAcc(limit).limit, false, false, false))
  {
    var a := NewAcc(limit);
    var b := Run(a, Inputs(arrivals)).0;
    AnswerHeard(limit, arrivals, heard);
    QuietThenOne(a, Inputs(arrivals), end);
    if end.End? {
      EndGivesOut(b, end.at, heard);
    } else {
      MarkerGivesOut(b, end.payload, end.at, heard);
    }
  }

  lemma QuietThenOne(a: Acc, inputs: seq<Input>, end: Input)
    requires Run(a, inputs).1 == []
    ensures Run(a, inputs + [end]) == Receive(Run(a, inputs).0, end)
  {
    var b := Run(a, inputs).0;
    RunAppend(a, inputs, [end]);
    OneInput(b, end);
    assert [] + Receive(b, end).1 == Receive(b, end).1;
  }

  lemma AnswerHeard(limit: int, arrivals: seq<Arrival>, heard: Key -> State)
    requires AllTell({}, arrivals) && Room(NewAcc(limit), Claimed(AllActions({}, arrivals)))
    requires forall k :: heard(k) == AllHeard(NewState(k.kind, LabelsOf(k)), k, {}, arrivals, NewAcc(limit).limit)
    ensures var (b, outputs) := Run(NewAcc(limit), Inputs(arrivals));
            && Valid(b) && !b.closed && outputs == [] && (forall k :: heard(k) == PartOrNew(b.states, k))
            && b.limit == NewAcc(limit).limit && !b.limited && !b.decodeFailed && !b.terminalIncomplete
  {
    var a := NewAcc(limit);
    NewAccValid(limit);
    RunSteps(a, Inputs(arrivals));
    AllTellOnly({}, arrivals);
    RunAsActions(a, arrivals);
    AllActionsUpdate({}, arrivals);
    UpdatesAssemble(a, AllActions({}, arrivals), 0);
    AssembledOwnChanges(a, AllActions({}, arrivals));
    var b := Run(a, Inputs(arrivals)).0;
    forall k ensures heard(k) == PartOrNew(b.states, k) {
      PartsAreWhatWasHeard(a, arrivals, k);
    }
  }
}

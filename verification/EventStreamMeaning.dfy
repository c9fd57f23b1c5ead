/**
 * What an event stream says, read off its lines with no regard to the parser: lines are grouped by
 * empty lines, a group says the values of its data lines, and everything else in it says nothing
 * (sections 9.2.5 and 9.2.6 of the WHATWG HTML Living Standard, with the bounds of the parser).
 */
module EventStreamMeaning {
  import opened Bytes
  import opened ServerSentEvents
  import opened EventStreamLines

  // ---------- Lines ----------

  /** The lines of a text: each ends at a line feed, a carriage return, or both; the last may end with the text. */
  function TextLines(b: Bytes): seq<Bytes>
    decreases |b|
  {
    var i := IndexEOL(b);
    if i < 0 then (if b == "" then [] else [b])
    else [b[..i]] + TextLines(b[NextLine(b, i)..])
  }

  predicate IsLong(line: Bytes, maxLine: nat) {
    |line| > maxLine
  }

  /** The first line that is not too long may begin with a byte order mark, which is no part of it. */
  function Unmarked(lines: seq<Bytes>, maxLine: nat): seq<Bytes> {
    if lines == [] then []
    else if IsLong(lines[0], maxLine) then [lines[0]] + Unmarked(lines[1..], maxLine)
    else if BYTE_ORDER <= lines[0] then [lines[0][3..]] + lines[1..]
    else lines
  }

  // ---------- Groups ----------

  /** The lines up to the first empty one. */
  function Group(lines: seq<Bytes>): (group: seq<Bytes>)
    ensures |group| <= |lines| && "" !in group
  {
    if lines == [] || lines[0] == "" then [] else [lines[0]] + Group(lines[1..])
  }

  /** The groups of lines, each ended by an empty line or by the end of the text. */
  function Groups(lines: seq<Bytes>): seq<seq<Bytes>>
    decreases |lines|
  {
    var group := Group(lines);
    if lines == [] then []
    else if |group| == |lines| then [group]
    else [group] + Groups(lines[|group| + 1..])
  }

  /** The values of the data lines of a group: what follows "data:", without one leading space. */
  function Values(group: seq<Bytes>): seq<Bytes> {
    if group == [] then [] else ValueOf(group[0]) + Values(group[1..])
  }

  function ValueOf(line: Bytes): seq<Bytes> {
    if !("data:" <= line) then []
    else if |line| > 5 && line[5] == ' ' then [line[6..]]
    else [line[5..]]
  }

  /** The values, one to a line. */
  function Joint(values: seq<Bytes>): Bytes {
    if values == [] then "" else Join(values)
  }

  predicate HasLong(group: seq<Bytes>, maxLine: nat) {
    exists i :: 0 <= i < |group| && IsLong(group[i], maxLine)
  }

  /** A group is lost if one of its lines, or what it says, is too long. */
  predicate IsLost(group: seq<Bytes>, maxLine: nat) {
    HasLong(group, maxLine) || |Joint(Values(group))| > maxLine
  }

  function LongLines(group: seq<Bytes>, maxLine: nat): nat {
    if group == [] then 0 else LongLines(group[1..], maxLine) + if IsLong(group[0], maxLine) then 1 else 0
  }

  /** The lines before the first that is too long. */
  function BeforeLong(group: seq<Bytes>, maxLine: nat): seq<Bytes> {
    if group == [] || IsLong(group[0], maxLine) then [] else [group[0]] + BeforeLong(group[1..], maxLine)
  }

  /** Each line that is too long is counted, and so is a group that says too much before its first such line. */
  function Drops(group: seq<Bytes>, maxLine: nat): nat {
    LongLines(group, maxLine) + if |Joint(Values(BeforeLong(group, maxLine)))| > maxLine then 1 else 0
  }

  // ---------- Events ----------

  /** What a group says, after that many drops. */
  function Said(group: seq<Bytes>, dropped: nat, maxLine: nat): seq<Event> {
    var payload := Joint(Values(group));
    if IsLost(group, maxLine) || payload == "" then [] else [Event(payload, payload == "[DONE]", dropped)]
  }

  function Meaning(groups: seq<seq<Bytes>>, dropped: nat, maxLine: nat): seq<Event> {
    if groups == [] then []
    else Said(groups[0], dropped, maxLine) + Meaning(groups[1..], dropped + Drops(groups[0], maxLine), maxLine)
  }

  function AllDrops(groups: seq<seq<Bytes>>, maxLine: nat): nat {
    if groups == [] then 0 else Drops(groups[0], maxLine) + AllDrops(groups[1..], maxLine)
  }

  function Chunks(events: seq<Event>): nat {
    if events == [] then 0 else Chunks(events[1..]) + if events[0].terminal then 0 else 1
  }

  // ---------- One group ----------

  lemma {:induction false} JoinMore(a: seq<Bytes>, b: seq<Bytes>)
    requires a != [] && b != []
    ensures Join(a + b) == Join(a) + "\n" + Join(b)
    decreases |a|
  {
    if |a| == 1 {
      assert (a + b)[1..] == b;
    } else {
      assert (a + b)[1..] == a[1..] + b;
      JoinMore(a[1..], b);
    }
  }

  lemma JointMore(a: seq<Bytes>, b: seq<Bytes>)
    ensures |Joint(a + b)| >= |Joint(a)|
    ensures b != [] ==> Joint(a + b) == (if a == [] then "" else Joint(a) + "\n") + Joint(b)
  {
    if b == [] {
      assert a + b == a;
    } else if a == [] {
      assert a + b == b;
    } else {
      JoinMore(a, b);
    }
  }

  /** The event being read has said these values so far. */
  predicate Holds(e: Assembly, said: seq<Bytes>, maxLine: nat) {
    e.lineSeen && !e.dataDropped && (e.dataSeen <==> said != []) && e.data == Joint(said) && |e.data| <= maxLine
  }

  /** A line within the bound that is not empty. */
  lemma LineRead(e: Assembly, said: seq<Bytes>, line: Bytes, maxLine: nat)
    requires Holds(e, said, maxLine) && line != "" && !IsLong(line, maxLine)
    ensures var all := said + ValueOf(line);
            ReadLine(e, line, maxLine)
            == if |Joint(all)| <= maxLine then e.(data := Joint(all), dataSeen := all != []) else LineDropped(e)
  {
    if DATA_PREFIX <= line {
      ValueRead(line);
      JointMore(said, ValueOf(line));
    } else {
      assert said + [] == said;
    }
  }

  lemma ValueRead(line: Bytes)
    requires DATA_PREFIX <= line
    ensures ValueOf(line) == [FieldValue(line)]
  {
    assert |line| > 5 ==> line[5..][1..] == line[6..];
  }

  /** Lines within the bound: what they say is added, until it is too long. */
  lemma {:induction false} ShortLinesRead(e: Assembly, said: seq<Bytes>, group: seq<Bytes>, maxLine: nat)
    requires Holds(e, said, maxLine) && "" !in group && !HasLong(group, maxLine)
    ensures var all := said + Values(group);
            ReadLines(e, group, maxLine)
            == if |Joint(all)| <= maxLine then e.(data := Joint(all), dataSeen := all != []) else LineDropped(e)
    decreases |group|
  {
    if group == [] {
      assert said + [] == said;
    } else {
      var line, rest := group[0], group[1..];
      var first, more := said + ValueOf(line), Values(rest);
      assert !IsLong(line, maxLine) && (forall i :: 0 <= i < |rest| ==> rest[i] == group[i + 1]);
      LineRead(e, said, line, maxLine);
      Associative(said, ValueOf(line), more);
      JointMore(first, more);
      if |Joint(first)| <= maxLine {
        ShortLinesRead(ReadLine(e, line, maxLine), first, rest, maxLine);
      } else {
        LostLinesRead(LineDropped(e), rest, maxLine);
        NoneLong(rest, maxLine);
      }
    }
  }

  lemma {:induction false} NoneLong(group: seq<Bytes>, maxLine: nat)
    requires !HasLong(group, maxLine)
    ensures LongLines(group, maxLine) == 0 && BeforeLong(group, maxLine) == group
  {
    if group != [] {
      assert !IsLong(group[0], maxLine) && (forall i :: 0 <= i < |group[1..]| ==> group[1..][i] == group[i + 1]);
      NoneLong(group[1..], maxLine);
    }
  }

  /** Once the event is lost, only lines that are too long count. */
  lemma {:induction false} LostLinesRead(e: Assembly, group: seq<Bytes>, maxLine: nat)
    requires Lost(e) && e.lineSeen && "" !in group
    ensures ReadLines(e, group, maxLine) == e.(dropped := e.dropped + LongLines(group, maxLine))
    decreases |group|
  {
    if group != [] {
      LostLinesRead(ReadLine(e, group[0], maxLine), group[1..], maxLine);
    }
  }

  lemma {:induction false} SplitAtLong(group: seq<Bytes>, maxLine: nat)
    requires HasLong(group, maxLine)
    ensures var n := |BeforeLong(group, maxLine)|;
            && n < |group| && BeforeLong(group, maxLine) == group[..n] && IsLong(group[n], maxLine)
            && !HasLong(group[..n], maxLine) && LongLines(group, maxLine) == LongLines(group[n..], maxLine)
    decreases |group|
  {
    if !IsLong(group[0], maxLine) {
      var i :| 0 <= i < |group| && IsLong(group[i], maxLine);
      assert group[1..][i - 1] == group[i];
      SplitAtLong(group[1..], maxLine);
      var n := |BeforeLong(group[1..], maxLine)|;
      assert group[..n + 1] == [group[0]] + group[1..][..n];
      assert group[n + 1..] == group[1..][n..];
      ShortFirst(group[0], group[1..][..n], maxLine);
    }
  }

  lemma ShortFirst(line: Bytes, rest: seq<Bytes>, maxLine: nat)
    requires !IsLong(line, maxLine) && !HasLong(rest, maxLine)
    ensures !HasLong([line] + rest, maxLine)
  {
  }

  /** The event once a whole group has been read. */
  function GroupRead(e: Assembly, group: seq<Bytes>, maxLine: nat): Assembly {
    if IsLost(group, maxLine) then
      e.(dropped := e.dropped + Drops(group, maxLine), data := "", dataSeen := false, dataDropped := true)
    else e.(data := Joint(Values(group)), dataSeen := Values(group) != [])
  }

  lemma ReadsGroup(e: Assembly, group: seq<Bytes>, maxLine: nat)
    requires BetweenEvents(e) && e.lineSeen && "" !in group
    ensures ReadLines(e, group, maxLine) == GroupRead(e, group, maxLine)
  {
    if HasLong(group, maxLine) {
      SplitAtLong(group, maxLine);
      var n := |BeforeLong(group, maxLine)|;
      var first, rest := group[..n], group[n..];
      assert group == first + rest;
      ReadLinesAppend(e, first, rest, maxLine);
      ShortLinesRead(e, [], first, maxLine);
      assert [] + Values(first) == Values(first);
      LostLinesRead(ReadLine(ReadLines(e, first, maxLine), rest[0], maxLine), rest[1..], maxLine);
    } else {
      NoneLong(group, maxLine);
      ShortLinesRead(e, [], group, maxLine);
      assert [] + Values(group) == Values(group);
    }
  }

  // ---------- All groups ----------

  /** What an empty line, or the end of the text, makes of a group. */
  lemma GroupEnds(e: Assembly, group: seq<Bytes>, maxLine: nat)
    requires BetweenEvents(e) && e.lineSeen
    ensures var r, said := EventDispatched(GroupRead(e, group, maxLine)), Said(group, e.dropped, maxLine);
            && BetweenEvents(r) && r.lineSeen
            && r.events == e.events + said && r.dropped == e.dropped + Drops(group, maxLine)
            && r.chunks == e.chunks + Chunks(said)
  {
    if !IsLost(group, maxLine) {
      NoDrops(group, maxLine);
    }
  }

  lemma NoDrops(group: seq<Bytes>, maxLine: nat)
    requires !IsLost(group, maxLine)
    ensures Drops(group, maxLine) == 0
  {
    NoneLong(group, maxLine);
  }

  lemma {:induction false} ChunksAdd(x: seq<Event>, y: seq<Event>)
    ensures Chunks(x + y) == Chunks(x) + Chunks(y)
  {
    if x == [] {
      assert x + y == y;
    } else {
      assert (x + y)[0] == x[0] && (x + y)[1..] == x[1..] + y;
      ChunksAdd(x[1..], y);
    }
  }

  lemma {:induction false} GroupThen(lines: seq<Bytes>)
    ensures var n := |Group(lines)|;
            Group(lines) == lines[..n] && (n < |lines| ==> lines[n] == "")
  {
    if lines != [] && lines[0] != "" {
      GroupThen(lines[1..]);
      var n := |Group(lines[1..])|;
      assert lines[..n + 1] == [lines[0]] + lines[1..][..n];
    }
  }

  /** The parser after an event: what it has told since then is what the lines mean. */
  predicate Tells(e: Assembly, r: Assembly, groups: seq<seq<Bytes>>, maxLine: nat) {
    var said := Meaning(groups, e.dropped, maxLine);
    && r.events == e.events + said && r.dropped == e.dropped + AllDrops(groups, maxLine)
    && r.chunks == e.chunks + Chunks(said)
  }

  lemma TellsFirst(e: Assembly, t: Assembly, r: Assembly, group: seq<Bytes>, rest: seq<seq<Bytes>>, maxLine: nat)
    requires t.events == e.events + Said(group, e.dropped, maxLine) && t.dropped == e.dropped + Drops(group, maxLine)
    requires t.chunks == e.chunks + Chunks(Said(group, e.dropped, maxLine)) && Tells(t, r, rest, maxLine)
    ensures Tells(e, r, [group] + rest, maxLine)
  {
    assert ([group] + rest)[1..] == rest;
    var first, more := Said(group, e.dropped, maxLine), Meaning(rest, t.dropped, maxLine);
    Associative(e.events, first, more);
    ChunksAdd(first, more);
  }

  lemma NoneTell(r: Assembly, maxLine: nat)
    ensures Tells(r, r, [], maxLine)
  {
    assert r.events + [] == r.events;
  }

  lemma {:induction false} ReadsGroups(e: Assembly, lines: seq<Bytes>, maxLine: nat)
    requires BetweenEvents(e) && e.lineSeen
    ensures Tells(e, EventDispatched(ReadLines(e, lines, maxLine)), Groups(lines), maxLine)
    decreases |lines|
  {
    var n := |Group(lines)|;
    if lines == [] {
      NoneTell(e, maxLine);
    } else if n < |lines| {
      var t := EventDispatched(GroupRead(e, Group(lines), maxLine));
      FirstGroupRead(e, lines, maxLine);
      ReadsGroups(t, lines[n + 1..], maxLine);
      TellsFirst(e, t, EventDispatched(ReadLines(t, lines[n + 1..], maxLine)), Group(lines), Groups(lines[n + 1..]),
        maxLine);
    } else {
      LastGroupRead(e, lines, maxLine);
    }
  }

  lemma FirstGroupRead(e: Assembly, lines: seq<Bytes>, maxLine: nat)
    requires BetweenEvents(e) && e.lineSeen && |Group(lines)| < |lines|
    ensures var group := Group(lines);
            var t, said := EventDispatched(GroupRead(e, group, maxLine)), Said(group, e.dropped, maxLine);
            && BetweenEvents(t) && t.lineSeen
            && t.events == e.events + said && t.dropped == e.dropped + Drops(group, maxLine)
            && t.chunks == e.chunks + Chunks(said)
            && ReadLines(e, lines, maxLine) == ReadLines(t, lines[|group| + 1..], maxLine)
  {
    var group := Group(lines);
    GroupThen(lines);
    ReadsGroup(e, group, maxLine);
    GroupEnds(e, group, maxLine);
    ReadThen(e, group, lines[|group| + 1..], maxLine);
    assert lines == group + [""] + lines[|group| + 1..];
  }

  lemma LastGroupRead(e: Assembly, lines: seq<Bytes>, maxLine: nat)
    requires BetweenEvents(e) && e.lineSeen && |Group(lines)| == |lines|
    ensures Tells(e, EventDispatched(ReadLines(e, lines, maxLine)), [lines], maxLine) && Group(lines) == lines
  {
    GroupThen(lines);
    assert lines == Group(lines) && [lines] + [] == [lines];
    ReadsGroup(e, lines, maxLine);
    GroupEnds(e, lines, maxLine);
    var t := EventDispatched(GroupRead(e, lines, maxLine));
    NoneTell(t, maxLine);
    TellsFirst(e, t, t, lines, [], maxLine);
  }

  lemma ReadThen(e: Assembly, group: seq<Bytes>, rest: seq<Bytes>, maxLine: nat)
    requires ReadLines(e, group, maxLine) == GroupRead(e, group, maxLine) && e.lineSeen
    ensures ReadLines(e, group + [""] + rest, maxLine)
         == ReadLines(EventDispatched(GroupRead(e, group, maxLine)), rest, maxLine)
  {
    assert group + [""] + rest == group + ([""] + rest) && ([""] + rest)[1..] == rest;
    ReadLinesAppend(e, group, [""] + rest, maxLine);
  }

  // ---------- The byte order mark ----------

  predicate SameEvent(e: Assembly, f: Assembly) {
    e.(lineSeen := true) == f.(lineSeen := true)
  }

  lemma {:induction false} MarkRead(e: Assembly, lines: seq<Bytes>, maxLine: nat)
    requires !e.lineSeen
    ensures SameEvent(ReadLines(e, lines, maxLine),
              ReadLines(e.(lineSeen := true), Unmarked(lines, maxLine), maxLine))
    decreases |lines|
  {
    if lines != [] {
      var f, rest := e.(lineSeen := true), lines[1..];
      if IsLong(lines[0], maxLine) {
        MarkRead(LineDropped(e), rest, maxLine);
        assert ([lines[0]] + Unmarked(rest, maxLine))[1..] == Unmarked(rest, maxLine);
      } else if BYTE_ORDER <= lines[0] {
        assert ([lines[0][3..]] + rest)[1..] == rest;
        assert ReadLine(e, lines[0], maxLine) == ReadLine(f, lines[0][3..], maxLine);
      } else {
        assert ReadLine(e, lines[0], maxLine) == ReadLine(f, lines[0], maxLine);
      }
    }
  }

  // ---------- The bytes of a stream ----------

  /** Reading a text is reading its lines, the last one at the end of the text. */
  lemma {:induction false} TextRead(s: Fields, b: Bytes, maxLine: nat)
    requires s.carry == "" && !s.dropping && !s.pendingLF
    ensures SameEvent(Finished(Run(s, b, maxLine), maxLine).event,
              EventDispatched(ReadLines(s.event, TextLines(b), maxLine)))
    decreases |b|
  {
    var i := IndexEOL(b);
    if i < 0 {
      RunPlainLine(s, b, maxLine);
      LastLineRead(s, b, maxLine);
    } else {
      var t := FirstLineRead(s, b, i, maxLine);
      TextRead(t, b[NextLine(b, i)..], maxLine);
    }
  }

  lemma FirstLineRead(s: Fields, b: Bytes, i: nat, maxLine: nat) returns (t: Fields)
    requires s.carry == "" && !s.dropping && !s.pendingLF && i < |b| && i == IndexEOL(b)
    ensures t.carry == "" && !t.dropping && !t.pendingLF
    ensures SameEvent(Finished(Run(s, b, maxLine), maxLine).event,
              Finished(Run(t, b[NextLine(b, i)..], maxLine), maxLine).event)
    ensures ReadLines(s.event, TextLines(b), maxLine) == ReadLines(t.event, TextLines(b[NextLine(b, i)..]), maxLine)
  {
    var line, rest := b[..i], b[NextLine(b, i)..];
    t := LineTaken(s, line, maxLine);
    RunLine(s, b, i, maxLine);
    assert s.carry + line == line;
    assert ([line] + TextLines(rest))[1..] == TextLines(rest);
    if LeavesPending(b, i) {
      assert rest == "";
    }
  }

  lemma LastLineRead(s: Fields, b: Bytes, maxLine: nat)
    requires s.carry == "" && !s.dropping && !s.pendingLF && NoEOL(b) && IndexEOL(b) < 0
    ensures SameEvent(Finished(Run(s, b, maxLine), maxLine).event,
              EventDispatched(ReadLines(s.event, TextLines(b), maxLine)))
  {
    RunPlainLine(s, b, maxLine);
    if b != "" {
      assert [b][1..] == [];
      assert s.carry + b == b;
      assert ReadLines(s.event, [b], maxLine) == ReadLine(s.event, b, maxLine);
    }
  }

  /**
   * For every byte string: the calls of OnEvent, with the drop count at each, the number of chunks
   * and the drop count at the end are what the lines of the text mean.
   */
  lemma StreamMeaning(b: Bytes, maxLine: nat)
    ensures var groups := Groups(Unmarked(TextLines(b), maxLine));
            var r := Finished(Run(INITIAL, b, maxLine), maxLine).event;
            && r.events == Meaning(groups, 0, maxLine)
            && r.dropped == AllDrops(groups, maxLine)
            && r.chunks == Chunks(r.events)
  {
    var e := INITIAL.event;
    TextRead(INITIAL, b, maxLine);
    MarkRead(e, TextLines(b), maxLine);
    ReadsGroups(e.(lineSeen := true), Unmarked(TextLines(b), maxLine), maxLine);
  }

  // ---------- Lines that say nothing ----------

  /** A comment, another field, or anything else that is neither empty, nor too long, nor a data line. */
  predicate IsNoise(line: Bytes, maxLine: nat) {
    line != "" && !IsLong(line, maxLine) && !("data:" <= line)
  }

  lemma {:induction false} SeenAfter(e: Assembly, lines: seq<Bytes>, maxLine: nat)
    requires e.lineSeen || exists i :: 0 <= i < |lines| && !IsLong(lines[i], maxLine)
    ensures ReadLines(e, lines, maxLine).lineSeen
    decreases |lines|
  {
    if lines != [] {
      var t := ReadLine(e, lines[0], maxLine);
      if !t.lineSeen {
        var i :| 0 <= i < |lines| && !IsLong(lines[i], maxLine);
        assert lines[1..][i - 1] == lines[i];
      }
      SeenAfter(t, lines[1..], maxLine);
    }
  }

  /**
   * Such a line, put anywhere after the first line that is not too long, changes neither the calls
   * of OnEvent nor the drop count nor anything else that the parser tells.
   */
  lemma NoiseIgnored(b: Bytes, c: Bytes, before: seq<Bytes>, noise: Bytes, rest: seq<Bytes>, maxLine: nat)
    requires TextLines(b) == before + [noise] + rest && TextLines(c) == before + rest
    requires IsNoise(noise, maxLine) && exists i :: 0 <= i < |before| && !IsLong(before[i], maxLine)
    ensures SameEvent(Finished(Run(INITIAL, b, maxLine), maxLine).event,
              Finished(Run(INITIAL, c, maxLine), maxLine).event)
  {
    TextRead(INITIAL, b, maxLine);
    TextRead(INITIAL, c, maxLine);
    NoiseRead(INITIAL.event, before, noise, rest, maxLine);
  }

  lemma NoiseRead(e: Assembly, before: seq<Bytes>, noise: Bytes, rest: seq<Bytes>, maxLine: nat)
    requires IsNoise(noise, maxLine) && exists i :: 0 <= i < |before| && !IsLong(before[i], maxLine)
    ensures ReadLines(e, before + [noise] + rest, maxLine) == ReadLines(e, before + rest, maxLine)
  {
    SeenAfter(e, before, maxLine);
    ReadLinesAppend(e, before, rest, maxLine);
    assert before + [noise] + rest == before + ([noise] + rest) && ([noise] + rest)[1..] == rest;
    ReadLinesAppend(e, before, [noise] + rest, maxLine);
    NoiseUnread(ReadLines(e, before, maxLine), noise, maxLine);
  }

  lemma NoiseUnread(e: Assembly, noise: Bytes, maxLine: nat)
    requires IsNoise(noise, maxLine) && e.lineSeen
    ensures ReadLine(e, noise, maxLine) == e
  {
  }

  // ---------- Any encoding ----------

  /** A data line for a part of a payload, with or without the space; without it the part must not begin with one. */
  predicate IsDataLine(line: Bytes, part: Bytes) {
    line == "data: " + part || (line == "data:" + part && !(" " <= part))
  }

  /** The group has a data line for each part, in order, and besides only lines that say nothing. */
  predicate Says(group: seq<Bytes>, parts: seq<Bytes>) {
    if group == [] then parts == []
    else if "data:" <= group[0] then
      parts != [] && IsDataLine(group[0], parts[0]) && Says(group[1..], parts[1..])
    else group[0] != "" && Says(group[1..], parts)
  }

  lemma DataLineSays(line: Bytes, part: Bytes)
    requires IsDataLine(line, part)
    ensures ValueOf(line) == [part]
  {
    if line == "data: " + part {
      assert line[5] == ' ' && line[6..] == part && "data:" <= line;
    } else {
      assert line[5..] == part && "data:" <= line;
      assert |line| > 5 ==> line[5] == part[0];
    }
  }

  lemma {:induction false} SaysItsParts(group: seq<Bytes>, parts: seq<Bytes>)
    requires Says(group, parts)
    ensures Values(group) == parts && "" !in group
    decreases |group|
  {
    if group != [] {
      if "data:" <= group[0] {
        DataLineSays(group[0], parts[0]);
        SaysItsParts(group[1..], parts[1..]);
      } else {
        SaysItsParts(group[1..], parts);
      }
    }
  }

  /** The groups, each ended by an empty line. */
  function GroupLines(groups: seq<seq<Bytes>>): seq<Bytes> {
    if groups == [] then [] else groups[0] + [""] + GroupLines(groups[1..])
  }

  predicate AllSay(groups: seq<seq<Bytes>>, ps: seq<Bytes>) {
    |groups| == |ps| && forall i :: 0 <= i < |ps| ==> ps[i] != "" && Says(groups[i], SplitLF(ps[i]))
  }

  /** The payloads whose groups are not lost. */
  function Kept(groups: seq<seq<Bytes>>, ps: seq<Bytes>, maxLine: nat): seq<Bytes>
    requires |groups| == |ps|
  {
    if ps == [] then []
    else (if IsLost(groups[0], maxLine) then [] else [ps[0]]) + Kept(groups[1..], ps[1..], maxLine)
  }

  lemma {:induction false} GroupEndsAt(group: seq<Bytes>, rest: seq<Bytes>)
    requires "" !in group
    ensures Group(group + [""] + rest) == group
  {
    if group != [] {
      GroupEndsAt(group[1..], rest);
      assert (group + [""] + rest)[1..] == group[1..] + [""] + rest;
    }
  }

  lemma {:induction false} GroupsOfLines(groups: seq<seq<Bytes>>)
    requires forall i :: 0 <= i < |groups| ==> "" !in groups[i]
    ensures Groups(GroupLines(groups)) == groups
  {
    if groups != [] {
      var group, rest := groups[0], GroupLines(groups[1..]);
      GroupEndsAt(group, rest);
      assert (group + [""] + rest)[|group| + 1..] == rest;
      GroupsOfLines(groups[1..]);
    }
  }

  lemma {:induction false} GroupsMean(groups: seq<seq<Bytes>>, ps: seq<Bytes>, dropped: nat, maxLine: nat)
    requires AllSay(groups, ps)
    ensures Payloads(Meaning(groups, dropped, maxLine)) == Kept(groups, ps, maxLine)
    decreases |ps|
  {
    if groups != [] {
      AllSayTail(groups, ps);
      GroupSays(groups[0], ps[0], dropped, maxLine);
      GroupsMean(groups[1..], ps[1..], dropped + Drops(groups[0], maxLine), maxLine);
      PayloadsOf(Said(groups[0], dropped, maxLine),
        Meaning(groups[1..], dropped + Drops(groups[0], maxLine), maxLine));
    }
  }

  lemma AllSayTail(groups: seq<seq<Bytes>>, ps: seq<Bytes>)
    requires AllSay(groups, ps) && groups != []
    ensures AllSay(groups[1..], ps[1..])
  {
    forall i | 0 <= i < |ps[1..]| ensures ps[1..][i] != "" && Says(groups[1..][i], SplitLF(ps[1..][i])) {
      assert ps[1..][i] == ps[i + 1] && groups[1..][i] == groups[i + 1];
    }
  }

  lemma GroupSays(group: seq<Bytes>, p: Bytes, dropped: nat, maxLine: nat)
    requires Says(group, SplitLF(p)) && p != ""
    ensures Payloads(Said(group, dropped, maxLine)) == if IsLost(group, maxLine) then [] else [p]
  {
    SaysItsParts(group, SplitLF(p));
    JoinSplit(p);
  }

  lemma PayloadsOf(x: seq<Event>, y: seq<Event>)
    ensures Payloads(x + y) == Payloads(x) + Payloads(y)
  {
  }

  /**
   * Payloads come back from any text that encodes them: data lines with or without the space, with
   * any other lines between them, ended in any way. Exactly those whose groups fit are delivered.
   */
  lemma AnyEncodingRead(b: Bytes, groups: seq<seq<Bytes>>, ps: seq<Bytes>, maxLine: nat)
    requires AllSay(groups, ps) && Unmarked(TextLines(b), maxLine) == GroupLines(groups)
    ensures Payloads(Finished(Run(INITIAL, b, maxLine), maxLine).event.events) == Kept(groups, ps, maxLine)
  {
    forall i | 0 <= i < |groups| ensures "" !in groups[i] {
      SaysItsParts(groups[i], SplitLF(ps[i]));
    }
    StreamMeaning(b, maxLine);
    GroupsOfLines(groups);
    GroupsMean(groups, ps, 0, maxLine);
  }

  /** The lines of a text that was written line by line are the lines that can be told apart. */
  lemma {:induction false} EncodedLines(lines: seq<Line>)
    requires Unbroken(lines) && Unambiguous(lines)
    ensures TextLines(Encode(lines)) == Texts(lines)
  {
    if lines != [] {
      var line, rest := lines[0], lines[1..];
      var b, i := Encode(lines), |line.text|;
      UnambiguousTail(lines);
      assert forall k :: 0 <= k < |rest| ==> rest[k] == lines[k + 1];
      assert b[i] == Mark(line.end)[0] && b[..i] == line.text;
      FirstEOL(b, i);
      AfterMark(line, rest);
      EncodedLines(rest);
    }
  }

  lemma FirstEOL(b: Bytes, i: nat)
    requires i < |b| && NoEOL(b[..i]) && IsEOL(b[i])
    ensures IndexEOL(b) == i
  {
    var j := IndexEOL(b);
    assert j >= 0 ==> NoEOL(b[..j]) && IsEOL(b[j]);
  }

  lemma AfterMark(line: Line, rest: seq<Line>)
    requires NoEOL(line.text) && Unbroken(rest) && (line.end == CR && rest != [] ==> rest[0] != Line("", LF))
    ensures var b := line.text + Mark(line.end) + Encode(rest); b[NextLine(b, |line.text|)..] == Encode(rest)
  {
    var b, i := line.text + Mark(line.end) + Encode(rest), |line.text|;
    if line.end == CR && rest != [] {
      var more := Encode(rest);
      assert b[i + 1..] == more;
      assert more[0] == if rest[0].text == "" then Mark(rest[0].end)[0] else rest[0].text[0];
    }
    assert line.end == CRLF ==> b[i + 1] == '\n';
  }
}

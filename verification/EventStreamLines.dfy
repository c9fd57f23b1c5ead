/**
 * The parser seen line by line: which terminators end the lines does not matter, and payloads
 * encoded as data lines come back unchanged (sections 9.2.5 and 9.2.6 of the WHATWG HTML
 * Living Standard).
 */
module EventStreamLines {
  import opened Bytes
  import opened ServerSentEvents

  datatype Terminator = LF | CRLF | CR

  datatype Line = Line(text: Bytes, end: Terminator)

  function Mark(t: Terminator): Bytes {
    match t
    case LF => "\n"
    case CRLF => "\r\n"
    case CR => "\r"
  }

  function Encode(lines: seq<Line>): Bytes {
    if lines == [] then "" else lines[0].text + Mark(lines[0].end) + Encode(lines[1..])
  }

  /**
   * The lines a reader can tell apart: an empty line that ends in a line feed, right after a
   * line that ends in a carriage return, is the second half of one CRLF terminator.
   */
  function Distinct(lines: seq<Line>, afterCR: bool): seq<Bytes> {
    if lines == [] then []
    else if afterCR && lines[0] == Line("", LF) then Distinct(lines[1..], false)
    else [lines[0].text] + Distinct(lines[1..], lines[0].end == CR)
  }

  function EndsInCR(lines: seq<Line>, afterCR: bool): bool {
    if lines == [] then afterCR
    else EndsInCR(lines[1..], lines[0].end == CR)
  }

  /** Reading one line in one piece, whatever ended it. */
  function ReadLine(e: Assembly, line: Bytes, maxLine: nat): Assembly {
    if |line| > maxLine then LineDropped(e) else LineProcessed(e, line, maxLine)
  }

  function ReadLines(e: Assembly, lines: seq<Bytes>, maxLine: nat): Assembly
    decreases |lines|
  {
    if lines == [] then e else ReadLines(ReadLine(e, lines[0], maxLine), lines[1..], maxLine)
  }

  predicate Unbroken(lines: seq<Line>) {
    forall i :: 0 <= i < |lines| ==> NoEOL(lines[i].text)
  }

  /** No carriage-return line is directly followed by an empty line-feed line. */
  predicate Unambiguous(lines: seq<Line>) {
    forall i :: 0 <= i < |lines| - 1 && lines[i].end == CR ==> lines[i + 1] != Line("", LF)
  }

  function Texts(lines: seq<Line>): (texts: seq<Bytes>)
    ensures |texts| == |lines|
    ensures forall i :: 0 <= i < |lines| ==> texts[i] == lines[i].text
  {
    if lines == [] then [] else [lines[0].text] + Texts(lines[1..])
  }

  lemma RunOneLine(s: Fields, line: Line, maxLine: nat)
    requires s.carry == "" && !s.dropping && NoEOL(line.text)
    requires s.pendingLF ==> line != Line("", LF)
    ensures Run(s, line.text + Mark(line.end), maxLine)
         == Fields("", line.end == CR, false, ReadLine(s.event, line.text, maxLine))
  {
    var b, i := line.text + Mark(line.end), |line.text|;
    assert b[0] == (line.text + Mark(line.end))[0] != '\n' || !s.pendingLF by {
      assert i > 0 ==> b[0] == line.text[0] && !IsEOL(line.text[0]);
    }
    var r := s.(pendingLF := false);
    if s.pendingLF {
      assert s == s.(pendingLF := true);
      PendingIrrelevant(s, b, maxLine);
    }
    assert b[..i] == line.text;
    RunLine(r, b, i, maxLine);
    assert b[NextLine(b, i)..] == "";
    assert r.carry + b[..i] == line.text;
  }

  /** The bytes of any lines are read as those lines that can be told apart, each in one piece. */
  lemma {:induction false} RunLines(s: Fields, lines: seq<Line>, maxLine: nat)
    requires s.carry == "" && !s.dropping && Unbroken(lines)
    ensures Run(s, Encode(lines), maxLine)
         == Fields("", EndsInCR(lines, s.pendingLF), false, ReadLines(s.event, Distinct(lines, s.pendingLF), maxLine))
    decreases |lines|
  {
    if lines != [] {
      var line, rest := lines[0], lines[1..];
      var first := line.text + Mark(line.end);
      var t := Run(s, first, maxLine);
      RunAppend(s, first, Encode(rest), maxLine);
      if s.pendingLF && line == Line("", LF) {
        assert first == "\n";
        assert t == Step(s, '\n', maxLine) by { assert first[1..] == ""; }
        RunLines(t, rest, maxLine);
      } else {
        RunOneLine(s, line, maxLine);
        RunLines(t, rest, maxLine);
        var texts := Distinct(lines, s.pendingLF);
        assert texts[0] == line.text && texts[1..] == Distinct(rest, line.end == CR);
      }
    }
  }

  lemma {:induction false} DistinctAtMost(lines: seq<Line>, afterCR: bool)
    ensures |Distinct(lines, afterCR)| <= |lines|
  {
    if lines != [] {
      DistinctAtMost(lines[1..], lines[0].end == CR);
      DistinctAtMost(lines[1..], false);
    }
  }

  /** Every line is told apart if and only if none of them is the second half of a CRLF. */
  lemma {:induction false} DistinctExactly(lines: seq<Line>, afterCR: bool)
    ensures Distinct(lines, afterCR) == Texts(lines)
       <==> Unambiguous(lines) && (afterCR && lines != [] ==> lines[0] != Line("", LF))
  {
    if lines != [] {
      var rest, next := lines[1..], lines[0].end == CR;
      DistinctAtMost(rest, false);
      DistinctExactly(rest, next);
      assert Distinct(lines, false)[1..] == Distinct(rest, next) && Texts(lines)[1..] == Texts(rest);
      UnambiguousTail(lines);
    }
  }

  lemma UnambiguousTail(lines: seq<Line>)
    requires lines != []
    ensures Unambiguous(lines)
       <==> Unambiguous(lines[1..]) && (lines[0].end == CR && lines[1..] != [] ==> lines[1..][0] != Line("", LF))
  {
    var rest := lines[1..];
    assert forall i :: 0 <= i < |rest| ==> rest[i] == lines[i + 1];
    if Unambiguous(rest) && (lines[0].end == CR && rest != [] ==> rest[0] != Line("", LF)) {
      forall i | 0 <= i < |lines| - 1 && lines[i].end == CR ensures lines[i + 1] != Line("", LF) {
        assert i > 0 ==> rest[i - 1] == lines[i];
      }
    }
  }

  /** The parser reads encoded lines as they were written if and only if no two of them read as one. */
  lemma ReadAsWritten(s: Fields, lines: seq<Line>, maxLine: nat)
    requires s.carry == "" && !s.dropping && !s.pendingLF && Unbroken(lines)
    ensures Run(s, Encode(lines), maxLine)
         == Fields("", EndsInCR(lines, false), false, ReadLines(s.event, Distinct(lines, false), maxLine))
    ensures Distinct(lines, false) == Texts(lines) <==> Unambiguous(lines)
  {
    RunLines(s, lines, maxLine);
    DistinctExactly(lines, false);
  }

  /** Any choice of terminators that keeps the lines apart gives the same events and drop count. */
  lemma TerminatorInvariance(a: seq<Line>, b: seq<Line>, maxLine: nat)
    requires Unbroken(a) && Unbroken(b) && Texts(a) == Texts(b)
    requires Unambiguous(a) && Unambiguous(b)
    ensures Run(INITIAL, Encode(a), maxLine).event == Run(INITIAL, Encode(b), maxLine).event
    ensures Finished(Run(INITIAL, Encode(a), maxLine), maxLine) == Finished(Run(INITIAL, Encode(b), maxLine), maxLine)
  {
    RunLines(INITIAL, a, maxLine);
    RunLines(INITIAL, b, maxLine);
    DistinctExactly(a, false);
    DistinctExactly(b, false);
  }

  // ---------- Round trip ----------

  const FIELD_START: Bytes := "data: "

  function SplitLF(p: Bytes): (parts: seq<Bytes>)
    ensures |parts| > 0
    ensures forall i :: 0 <= i < |parts| ==> '\n' !in parts[i] && forall c :: c in parts[i] ==> c in p
  {
    if p == "" then [""]
    else
      var rest := SplitLF(p[1..]);
      if p[0] == '\n' then [""] + rest else [[p[0]] + rest[0]] + rest[1..]
  }

  function Join(parts: seq<Bytes>): Bytes
    requires |parts| > 0
  {
    if |parts| == 1 then parts[0] else parts[0] + "\n" + Join(parts[1..])
  }

  lemma {:induction false} JoinSplit(p: Bytes)
    ensures Join(SplitLF(p)) == p
  {
    if p != "" {
      JoinSplit(p[1..]);
      var rest := SplitLF(p[1..]);
      if p[0] == '\n' {
        assert ([""] + rest)[1..] == rest;
      } else {
        assert ([[p[0]] + rest[0]] + rest[1..])[1..] == rest[1..];
      }
    }
  }

  function DataLines(parts: seq<Bytes>): seq<Line> {
    if parts == [] then [] else [Line(FIELD_START + parts[0], LF)] + DataLines(parts[1..])
  }

  /** A payload as an event: one data line for each of its lines, then an empty line. */
  function EncodePayload(p: Bytes): seq<Line> {
    DataLines(SplitLF(p)) + [Line("", LF)]
  }

  /** The bounds under which the parser delivers a payload. */
  predicate Fits(p: Bytes, maxLine: nat) {
    |p| <= maxLine && PartsFit(SplitLF(p), maxLine)
  }

  predicate PartsFit(parts: seq<Bytes>, maxLine: nat) {
    forall i :: 0 <= i < |parts| ==> |FIELD_START| + |parts[i]| <= maxLine
  }

  predicate BetweenEvents(e: Assembly) {
    e.data == "" && !e.dataSeen && !e.dataDropped
  }

  lemma ReadDataLine(e: Assembly, part: Bytes, maxLine: nat)
    ensures ReadLine(e, FIELD_START + part, maxLine)
         == if |FIELD_START| + |part| > maxLine then LineDropped(e)
            else if e.dataDropped then e.(lineSeen := true)
            else DataAdded(e.(lineSeen := true), part, maxLine)
  {
    var line := FIELD_START + part;
    assert line[0] == 'd' && line[5] == ' ' && DATA_PREFIX <= line;
    assert line[|DATA_PREFIX|..][1..] == part;
    assert StripMark(line) == line by { assert BYTE_ORDER[0] != line[0]; }
  }

  lemma {:induction false} ReadLinesAppend(e: Assembly, a: seq<Bytes>, b: seq<Bytes>, maxLine: nat)
    ensures ReadLines(e, a + b, maxLine) == ReadLines(ReadLines(e, a, maxLine), b, maxLine)
    decreases |a|
  {
    if a == [] {
      assert a + b == b;
    } else {
      assert (a + b)[0] == a[0] && (a + b)[1..] == a[1..] + b;
      ReadLinesAppend(ReadLine(e, a[0], maxLine), a[1..], b, maxLine);
    }
  }

  /** Once an event has lost a line it delivers nothing, whatever data lines follow. */
  lemma {:induction false} LostStaysLost(e: Assembly, parts: seq<Bytes>, maxLine: nat)
    requires Lost(e)
    ensures var r := ReadLines(e, Texts(DataLines(parts)), maxLine);
            Lost(r) && r.events == e.events && r.dropped >= e.dropped
    decreases |parts|
  {
    if parts != [] {
      ReadDataLine(e, parts[0], maxLine);
      assert Texts(DataLines(parts))[1..] == Texts(DataLines(parts[1..]));
      LostStaysLost(ReadLine(e, FIELD_START + parts[0], maxLine), parts[1..], maxLine);
    }
  }

  /** The data of an event after more data lines. */
  function Joined(e: Assembly, parts: seq<Bytes>): Bytes
    requires |parts| > 0
  {
    if e.dataSeen then e.data + "\n" + Join(parts) else Join(parts)
  }

  predicate Lost(e: Assembly) {
    e.dataDropped && !e.dataSeen && e.data == ""
  }

  lemma {:induction false} DataLinesFit(e: Assembly, parts: seq<Bytes>, maxLine: nat)
    requires |parts| > 0 && !e.dataDropped && (!e.dataSeen ==> e.data == "")
    requires PartsFit(parts, maxLine) && |Joined(e, parts)| <= maxLine
    ensures ReadLines(e, Texts(DataLines(parts)), maxLine)
         == e.(lineSeen := true, data := Joined(e, parts), dataSeen := true)
    decreases |parts|
  {
    var rest := parts[1..];
    var t := ReadLine(e, FIELD_START + parts[0], maxLine);
    ReadDataLine(e, parts[0], maxLine);
    assert Texts(DataLines(parts))[1..] == Texts(DataLines(rest));
    assert t == e.(lineSeen := true, data := Joined(e, [parts[0]]), dataSeen := true);
    if rest != [] {
      PartsFitTail(parts, maxLine);
      JoinedTail(e, parts);
      DataLinesFit(t, rest, maxLine);
    }
  }

  lemma {:induction false} DataLinesLost(e: Assembly, parts: seq<Bytes>, maxLine: nat)
    requires |parts| > 0 && !e.dataDropped && (!e.dataSeen ==> e.data == "")
    requires !(PartsFit(parts, maxLine) && |Joined(e, parts)| <= maxLine)
    ensures var r := ReadLines(e, Texts(DataLines(parts)), maxLine);
            Lost(r) && r.events == e.events && r.dropped > e.dropped
    decreases |parts|
  {
    var rest := parts[1..];
    var t := ReadLine(e, FIELD_START + parts[0], maxLine);
    ReadDataLine(e, parts[0], maxLine);
    assert Texts(DataLines(parts))[1..] == Texts(DataLines(rest));
    if t.dataDropped {
      LostStaysLost(t, rest, maxLine);
    } else {
      assert t == e.(lineSeen := true, data := Joined(e, [parts[0]]), dataSeen := true);
      PartsFitTail(parts, maxLine);
      if rest != [] {
        JoinedTail(e, parts);
        DataLinesLost(t, rest, maxLine);
      }
    }
  }

  lemma PartsFitTail(parts: seq<Bytes>, maxLine: nat)
    requires |parts| > 0
    ensures PartsFit(parts, maxLine) <==> |FIELD_START| + |parts[0]| <= maxLine && PartsFit(parts[1..], maxLine)
  {
    var rest := parts[1..];
    assert forall i :: 0 <= i < |rest| ==> rest[i] == parts[i + 1];
    assert forall i :: 0 < i < |parts| ==> parts[i] == rest[i - 1];
  }

  lemma JoinedTail(e: Assembly, parts: seq<Bytes>)
    requires |parts| > 1
    ensures Joined(e, parts) == Joined(e.(data := Joined(e, [parts[0]]), dataSeen := true), parts[1..])
  {
    assert Joined(e, [parts[0]]) == if e.dataSeen then e.data + "\n" + parts[0] else parts[0];
  }

  /** A payload is delivered, byte for byte and alone, if and only if it fits; otherwise it is counted as dropped. */
  lemma ReadPayload(e: Assembly, p: Bytes, maxLine: nat)
    requires BetweenEvents(e) && p != ""
    ensures var r := ReadLines(e, Texts(EncodePayload(p)), maxLine);
            && BetweenEvents(r)
            && r.events == (if Fits(p, maxLine) then e.events + [Event(p, p == DONE, e.dropped)] else e.events)
            && (if Fits(p, maxLine) then r.dropped == e.dropped else r.dropped > e.dropped)
  {
    var parts := SplitLF(p);
    var texts := Texts(DataLines(parts));
    assert Texts(EncodePayload(p)) == texts + [""];
    ReadLinesAppend(e, texts, [""], maxLine);
    JoinSplit(p);
    if Fits(p, maxLine) {
      DataLinesFit(e, parts, maxLine);
    } else {
      DataLinesLost(e, parts, maxLine);
    }
    var t := ReadLines(e, texts, maxLine);
    assert ReadLines(t, [""], maxLine) == ReadLine(t, "", maxLine) by { assert [""][1..] == []; }
    assert StripMark("") == "";
  }

  function EncodePayloads(ps: seq<Bytes>): seq<Line> {
    if ps == [] then [] else EncodePayload(ps[0]) + EncodePayloads(ps[1..])
  }

  function Fitting(ps: seq<Bytes>, maxLine: nat): seq<Bytes> {
    if ps == [] then []
    else (if Fits(ps[0], maxLine) then [ps[0]] else []) + Fitting(ps[1..], maxLine)
  }

  function Payloads(events: seq<Event>): seq<Bytes> {
    seq(|events|, i requires 0 <= i < |events| => events[i].payload)
  }

  lemma {:induction false} TextsAppend(a: seq<Line>, b: seq<Line>)
    ensures Texts(a + b) == Texts(a) + Texts(b)
  {
  }

  lemma {:induction false} ReadPayloads(e: Assembly, ps: seq<Bytes>, maxLine: nat)
    requires BetweenEvents(e) && "" !in ps
    ensures var r := ReadLines(e, Texts(EncodePayloads(ps)), maxLine);
            && BetweenEvents(r)
            && Payloads(r.events) == Payloads(e.events) + Fitting(ps, maxLine)
            && r.dropped >= e.dropped
            && (r.dropped == e.dropped <==> Fitting(ps, maxLine) == ps)
    decreases |ps|
  {
    if ps != [] {
      var t := ReadFirstPayload(e, ps, maxLine);
      var rest := ps[1..];
      ReadPayloads(t, rest, maxLine);
      FittingAll(ps, maxLine);
      Associative(Payloads(e.events), if Fits(ps[0], maxLine) then [ps[0]] else [], Fitting(rest, maxLine));
    }
  }

  lemma ReadFirstPayload(e: Assembly, ps: seq<Bytes>, maxLine: nat) returns (t: Assembly)
    requires BetweenEvents(e) && ps != [] && ps[0] != ""
    ensures ReadLines(e, Texts(EncodePayloads(ps)), maxLine) == ReadLines(t, Texts(EncodePayloads(ps[1..])), maxLine)
    ensures BetweenEvents(t)
    ensures Payloads(t.events) == Payloads(e.events) + (if Fits(ps[0], maxLine) then [ps[0]] else [])
    ensures if Fits(ps[0], maxLine) then t.dropped == e.dropped else t.dropped > e.dropped
  {
    var a, b := EncodePayload(ps[0]), EncodePayloads(ps[1..]);
    t := ReadLines(e, Texts(a), maxLine);
    TextsAppend(a, b);
    ReadLinesAppend(e, Texts(a), Texts(b), maxLine);
    ReadPayload(e, ps[0], maxLine);
  }

  lemma {:induction false} FittingAll(ps: seq<Bytes>, maxLine: nat)
    ensures |Fitting(ps, maxLine)| <= |ps|
    ensures ps != [] ==>
              (Fitting(ps, maxLine) == ps <==> Fits(ps[0], maxLine) && Fitting(ps[1..], maxLine) == ps[1..])
  {
    if ps != [] {
      FittingAll(ps[1..], maxLine);
      assert ps == [ps[0]] + ps[1..];
      assert ([ps[0]] + Fitting(ps[1..], maxLine))[1..] == Fitting(ps[1..], maxLine);
    }
  }

  /** Encoded by the writer's rules and parsed, payloads come back: exactly those that fit, in order. */
  lemma RoundTrip(ps: seq<Bytes>, maxLine: nat)
    requires "" !in ps && forall p :: p in ps ==> '\r' !in p
    ensures var r := Run(INITIAL, Encode(EncodePayloads(ps)), maxLine);
            Payloads(r.event.events) == Fitting(ps, maxLine) && (r.event.dropped == 0 <==> Fitting(ps, maxLine) == ps)
  {
    var lines := EncodePayloads(ps);
    PayloadLinesUnbroken(ps);
    RunLines(INITIAL, lines, maxLine);
    DistinctExactly(lines, false);
    ReadPayloads(INITIAL.event, ps, maxLine);
  }

  /** Two events, of one data line each, whose first data line may end in any way. */
  function TwoEvents(p: Bytes, q: Bytes, end: Terminator): seq<Line> {
    [Line(FIELD_START + p, end), Line("", LF), Line(FIELD_START + q, LF), Line("", LF)]
  }

  /** The payloads are short enough to be delivered, alone or joined, and none of them is the done mark. */
  predicate Deliverable(p: Bytes, q: Bytes, maxLine: nat) {
    && NoEOL(p) && NoEOL(q) && p != "" && q != "" && p != DONE && q != DONE
    && |FIELD_START| + |p| <= maxLine && |FIELD_START| + |q| <= maxLine && |p| + 1 + |q| <= maxLine
  }

  /** It matters: the empty line that ends an event is lost after a CR, and two events become one. */
  lemma TerminatorsMatter(p: Bytes, q: Bytes, maxLine: nat)
    requires Deliverable(p, q, maxLine)
    ensures Payloads(Run(INITIAL, Encode(TwoEvents(p, q, LF)), maxLine).event.events) == [p, q]
    ensures Payloads(Run(INITIAL, Encode(TwoEvents(p, q, CR)), maxLine).event.events) == [p + "\n" + q]
  {
    TwoEventsRead(p, q, LF, maxLine);
    ReadApart(p, q, maxLine);
    TwoEventsRead(p, q, CR, maxLine);
    ReadJoined(p, q, maxLine);
  }

  lemma TwoEventsRead(p: Bytes, q: Bytes, end: Terminator, maxLine: nat)
    requires NoEOL(p) && NoEOL(q)
    ensures Run(INITIAL, Encode(TwoEvents(p, q, end)), maxLine).event
         == ReadLines(INITIAL.event, Distinct(TwoEvents(p, q, end), false), maxLine)
    ensures Distinct(TwoEvents(p, q, LF), false) == EventTexts([p]) + EventTexts([q])
    ensures Distinct(TwoEvents(p, q, CR), false) == EventTexts([p, q])
  {
    RunLines(INITIAL, TwoEvents(p, q, end), maxLine);
    TwoEventsDistinct(p, q);
  }

  lemma ReadApart(p: Bytes, q: Bytes, maxLine: nat)
    requires Deliverable(p, q, maxLine)
    ensures ReadLines(INITIAL.event, EventTexts([p]) + EventTexts([q]), maxLine).events
         == [Event(p, false, 0), Event(q, false, 0)]
  {
    var e := INITIAL.event;
    TwoParts(p, q);
    EventRead(e, [p], maxLine);
    var between := EventDispatched(e.(lineSeen := true, data := p, dataSeen := true));
    EventRead(between, [q], maxLine);
    ReadLinesAppend(e, EventTexts([p]), EventTexts([q]), maxLine);
  }

  lemma ReadJoined(p: Bytes, q: Bytes, maxLine: nat)
    requires Deliverable(p, q, maxLine)
    ensures ReadLines(INITIAL.event, EventTexts([p, q]), maxLine).events == [Event(p + "\n" + q, false, 0)]
  {
    TwoParts(p, q);
    EventRead(INITIAL.event, [p, q], maxLine);
    assert '\n' in p + "\n" + q;
  }

  /** The lines of an event. */
  function EventTexts(parts: seq<Bytes>): seq<Bytes> {
    Texts(DataLines(parts)) + [""]
  }

  lemma FirstDistinct(line: Line, rest: seq<Line>, afterCR: bool)
    ensures Distinct([line] + rest, afterCR)
         == if afterCR && line == Line("", LF) then Distinct(rest, false)
           else [line.text] + Distinct(rest, line.end == CR)
  {
    assert ([line] + rest)[1..] == rest;
  }

  lemma OneLineTexts(p: Bytes)
    ensures EventTexts([p]) == [FIELD_START + p, ""]
  {
    assert [p][1..] == [];
    assert DataLines([p]) == [Line(FIELD_START + p, LF)];
  }

  lemma TwoLineTexts(p: Bytes, q: Bytes)
    ensures EventTexts([p, q]) == [FIELD_START + p] + [FIELD_START + q, ""]
  {
    assert [p, q][1..] == [q] && [q][1..] == [];
    assert DataLines([p, q]) == [Line(FIELD_START + p, LF)] + DataLines([q]);
    assert DataLines([q]) == [Line(FIELD_START + q, LF)];
  }

  lemma TwoEventsDistinct(p: Bytes, q: Bytes)
    ensures Distinct(TwoEvents(p, q, LF), false) == EventTexts([p]) + EventTexts([q])
    ensures Distinct(TwoEvents(p, q, CR), false) == EventTexts([p, q])
  {
    var first, blank, second := FIELD_START + p, Line("", LF), FIELD_START + q;
    var last := [Line(second, LF)] + [blank];
    assert [blank][1..] == [] && Distinct([blank], false) == [""];
    FirstDistinct(Line(second, LF), [blank], false);
    FirstDistinct(blank, last, false);
    FirstDistinct(blank, last, true);
    FirstDistinct(Line(first, LF), [blank] + last, false);
    FirstDistinct(Line(first, CR), [blank] + last, false);
    assert TwoEvents(p, q, LF) == [Line(first, LF)] + ([blank] + last);
    assert TwoEvents(p, q, CR) == [Line(first, CR)] + ([blank] + last);
    OneLineTexts(p);
    OneLineTexts(q);
    TwoLineTexts(p, q);
  }

  lemma TwoParts(p: Bytes, q: Bytes)
    ensures Join([p, q]) == p + "\n" + q && Join([p]) == p && Join([q]) == q
  {
    assert [p, q][1..] == [q];
  }

  lemma EventRead(e: Assembly, parts: seq<Bytes>, maxLine: nat)
    requires BetweenEvents(e) && parts != [] && PartsFit(parts, maxLine) && |Join(parts)| <= maxLine
    ensures ReadLines(e, EventTexts(parts), maxLine)
         == EventDispatched(e.(lineSeen := true, data := Join(parts), dataSeen := true))
  {
    DataLinesFit(e, parts, maxLine);
    ReadLinesAppend(e, Texts(DataLines(parts)), [""], maxLine);
    assert [""][1..] == [] && StripMark("") == "";
  }

  predicate AllLF(lines: seq<Line>) {
    forall i :: 0 <= i < |lines| ==> lines[i].end == LF && NoEOL(lines[i].text)
  }

  lemma {:induction false} DataLinesUnbroken(parts: seq<Bytes>)
    requires forall i :: 0 <= i < |parts| ==> NoEOL(parts[i])
    ensures AllLF(DataLines(parts))
  {
    if parts != [] {
      DataLinesUnbroken(parts[1..]);
    }
  }

  lemma {:induction false} PayloadLinesUnbroken(ps: seq<Bytes>)
    requires forall p :: p in ps ==> '\r' !in p
    ensures AllLF(EncodePayloads(ps))
  {
    if ps != [] {
      var parts := SplitLF(ps[0]);
      assert forall i, k :: 0 <= i < |parts| && 0 <= k < |parts[i]| ==> parts[i][k] in parts[i];
      DataLinesUnbroken(parts);
      PayloadLinesUnbroken(ps[1..]);
    }
  }

  /** A first line that is too long leaves the next one free to carry the byte order mark. */
  lemma MarkAfterLongLine(long: Bytes, rest: Bytes, maxLine: nat)
    requires NoEOL(long) && NoEOL(rest) && |long| > maxLine >= |BYTE_ORDER + rest|
    ensures var e := LineDropped(INITIAL.event).(lineSeen := true);
            Run(INITIAL, Encode([Line(long, LF), Line(BYTE_ORDER + rest, LF)]), maxLine).event
              == LineProcessed(e, rest, maxLine)
  {
    var lines := [Line(long, LF), Line(BYTE_ORDER + rest, LF)];
    assert lines[1..] == [Line(BYTE_ORDER + rest, LF)] && lines[1..][1..] == [];
    RunLines(INITIAL, lines, maxLine);
    var texts := [long, BYTE_ORDER + rest];
    assert texts[1..] == [BYTE_ORDER + rest] && texts[1..][1..] == [];
    assert Distinct(lines[1..], false) == [BYTE_ORDER + rest];
    assert Distinct(lines, false) == texts;
    var e := LineDropped(INITIAL.event);
    assert ReadLine(INITIAL.event, long, maxLine) == e;
    assert ReadLines(e, texts[1..], maxLine) == ReadLine(e, BYTE_ORDER + rest, maxLine);
    assert (BYTE_ORDER + rest)[|BYTE_ORDER|..] == rest;
  }
}

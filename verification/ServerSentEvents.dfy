/**
 * The incremental event-stream parser of internal/serversentevents/parser.go.
 *
 * `Step` is the parser reduced to one byte at a time and `Run` its repetition; class
 * `Parser` is the buffered parser of the source, whose `Feed` consumes whole lines at once.
 * `Feed` is proved to compute `Run`, so the way the network cuts the bytes cannot matter.
 */
module ServerSentEvents {
  import opened Bytes

  const DATA_PREFIX: Bytes := "data:"
  const BYTE_ORDER: Bytes := "\U{EF}\U{BB}\U{BF}"
  const DONE: Bytes := "[DONE]"

  /** One call of OnEvent, with the value that Dropped() has during the call. */
  datatype Event = Event(payload: Bytes, terminal: bool, dropped: nat)

  /** The fields that collect the event being read; `events` lists the OnEvent calls made so far. */
  datatype Assembly = Assembly(
    lineSeen: bool, data: Bytes, dataSeen: bool, dataDropped: bool,
    last: Bytes, chunks: nat, dropped: nat, sawDone: bool, events: seq<Event>)

  /** The parser's fields: those that collect the line being read, and the event it belongs to. */
  datatype Fields = Fields(carry: Bytes, pendingLF: bool, dropping: bool, event: Assembly)

  const INITIAL := Fields("", false, false, Assembly(false, "", false, false, "", 0, 0, false, []))

  predicate IsEOL(c: char) {
    c == '\n' || c == '\r'
  }

  predicate NoEOL(b: Bytes) {
    forall i :: 0 <= i < |b| ==> !IsEOL(b[i])
  }

  predicate Valid(s: Fields, maxLine: nat) {
    && |s.carry| <= maxLine
    && (s.dropping ==> s.carry == "")
  }

  function LineDropped(e: Assembly): Assembly {
    e.(dropped := e.dropped + 1, data := "", dataSeen := false, dataDropped := true)
  }

  function EventDispatched(e: Assembly): Assembly {
    var r := e.(data := "", dataSeen := false, dataDropped := false);
    if e.dataDropped || !e.dataSeen || e.data == "" then r
    else if e.data == DONE then
      r.(sawDone := true, events := e.events + [Event(e.data, true, e.dropped)])
    else
      r.(chunks := e.chunks + 1, last := e.data, events := e.events + [Event(e.data, false, e.dropped)])
  }

  /** The line without the byte order mark that only the first processed line may carry. */
  function StripMark(line: Bytes): Bytes {
    if BYTE_ORDER <= line then line[|BYTE_ORDER|..] else line
  }

  /** The value of a data field: one leading space is not part of it. */
  function FieldValue(line: Bytes): Bytes
    requires DATA_PREFIX <= line
  {
    var value := line[|DATA_PREFIX|..];
    if |value| > 0 && value[0] == ' ' then value[1..] else value
  }

  function DataAdded(e: Assembly, value: Bytes, maxLine: nat): Assembly {
    if |e.data| + |value| + (if e.dataSeen then 1 else 0) > maxLine then LineDropped(e)
    else e.(data := (if e.dataSeen then e.data + "\n" else e.data) + value, dataSeen := true)
  }

  function LineProcessed(e: Assembly, line0: Bytes, maxLine: nat): Assembly {
    var line := if e.lineSeen then line0 else StripMark(line0);
    var r := e.(lineSeen := true);
    if line == "" then EventDispatched(r)
    else if !(DATA_PREFIX <= line) || r.dataDropped then r
    else DataAdded(r, FieldValue(line), maxLine)
  }

  /** The per-byte automaton. */
  function Step(s: Fields, c: char, maxLine: nat): Fields {
    if s.pendingLF && c == '\n' then s.(pendingLF := false)
    else if IsEOL(c) then
      Fields("", c == '\r', false, if s.dropping then s.event else LineProcessed(s.event, s.carry, maxLine))
    else if s.dropping then s.(pendingLF := false)
    else if |s.carry| + 1 > maxLine then Fields("", false, true, LineDropped(s.event))
    else s.(carry := s.carry + [c], pendingLF := false)
  }

  function Run(s: Fields, b: Bytes, maxLine: nat): Fields
    decreases |b|
  {
    if b == "" then s else Run(Step(s, b[0], maxLine), b[1..], maxLine)
  }

  function Finished(s: Fields, maxLine: nat): Fields {
    Fields("", false, false, EventDispatched(
      if !s.dropping && |s.carry| > 0 then LineProcessed(s.event, s.carry, maxLine) else s.event))
  }

  // ---------- What the automaton does with a whole line ----------

  lemma {:induction false} RunAppend(s: Fields, a: Bytes, b: Bytes, maxLine: nat)
    ensures Run(s, a + b, maxLine) == Run(Run(s, a, maxLine), b, maxLine)
    decreases |a|
  {
    if a == "" {
      assert a + b == b;
    } else {
      assert (a + b)[0] == a[0] && (a + b)[1..] == a[1..] + b;
      RunAppend(Step(s, a[0], maxLine), a[1..], b, maxLine);
    }
  }

  lemma {:induction false} RunPlainLine(s: Fields, line: Bytes, maxLine: nat)
    requires NoEOL(line) && !s.pendingLF && |s.carry| <= maxLine
    ensures Run(s, line, maxLine) ==
            if s.dropping then s
            else if |s.carry| + |line| <= maxLine then s.(carry := s.carry + line)
            else Fields("", false, true, LineDropped(s.event))
    decreases |line|
  {
    if line == "" {
      assert s.carry + line == s.carry;
    } else {
      var t := Step(s, line[0], maxLine);
      RunPlainLine(t, line[1..], maxLine);
      assert s.carry + line == s.carry + [line[0]] + line[1..];
    }
  }

  /** A carriage return that is not followed by a line feed leaves nothing pending. */
  lemma PendingIrrelevant(s: Fields, b: Bytes, maxLine: nat)
    requires |b| > 0 && b[0] != '\n'
    ensures Run(s.(pendingLF := true), b, maxLine) == Run(s.(pendingLF := false), b, maxLine)
  {
    assert Step(s.(pendingLF := true), b[0], maxLine) == Step(s.(pendingLF := false), b[0], maxLine);
  }

  lemma StepValid(s: Fields, c: char, maxLine: nat)
    requires Valid(s, maxLine)
    ensures Valid(Step(s, c, maxLine), maxLine)
  {
  }

  lemma {:induction false} RunValid(s: Fields, b: Bytes, maxLine: nat)
    requires Valid(s, maxLine)
    ensures Valid(Run(s, b, maxLine), maxLine)
    decreases |b|
  {
    if b != "" {
      StepValid(s, b[0], maxLine);
      RunValid(Step(s, b[0], maxLine), b[1..], maxLine);
    }
  }

  // ---------- Chunk invariance ----------

  function Flatten(pieces: seq<Bytes>): Bytes {
    if pieces == [] then "" else pieces[0] + Flatten(pieces[1..])
  }

  /** What a parser in state s becomes when the pieces are fed to it one after the other. */
  function FeedPieces(s: Fields, pieces: seq<Bytes>, maxLine: nat): Fields
    decreases |pieces|
  {
    if pieces == [] then s else FeedPieces(Run(s, pieces[0], maxLine), pieces[1..], maxLine)
  }

  /** However a byte string is cut, the state and the OnEvent calls are those of the whole string. */
  lemma {:induction false} ChunkInvariance(s: Fields, pieces: seq<Bytes>, maxLine: nat)
    ensures FeedPieces(s, pieces, maxLine) == Run(s, Flatten(pieces), maxLine)
    decreases |pieces|
  {
    if pieces != [] {
      RunAppend(s, pieces[0], Flatten(pieces[1..]), maxLine);
      ChunkInvariance(Run(s, pieces[0], maxLine), pieces[1..], maxLine);
    }
  }

  // ---------- The buffered parser ----------

  function IndexByte(b: Bytes, c: char): (i: int)
    ensures -1 <= i < |b|
    ensures i < 0 ==> c !in b
    ensures i >= 0 ==> b[i] == c && c !in b[..i]
  {
    if b == "" then -1
    else if b[0] == c then 0
    else
      var i := IndexByte(b[1..], c);
      assert b == [b[0]] + b[1..];
      assert i >= 0 ==> b[..i + 1] == [b[0]] + b[1..][..i];
      if i < 0 then -1 else i + 1
  }

  /** The first line terminator of b, of either kind. */
  function IndexEOL(b: Bytes): (i: int)
    ensures -1 <= i < |b|
    ensures i < 0 ==> NoEOL(b)
    ensures i >= 0 ==> IsEOL(b[i]) && NoEOL(b[..i])
  {
    var lf := IndexByte(b, '\n');
    var cr := IndexByte(b, '\r');
    assert forall k, c {:trigger b[k], c in b} :: 0 <= k < |b| && c !in b ==> b[k] != c;
    assert lf >= 0 ==> forall k :: 0 <= k < lf ==> b[..lf][k] == b[k] && b[k] != '\n';
    assert cr >= 0 ==> forall k :: 0 <= k < cr ==> b[..cr][k] == b[k] && b[k] != '\r';
    if lf < 0 then cr
    else if cr < 0 then lf
    else if cr < lf then cr
    else lf
  }

  class Parser {
    const maxLine: nat
    var carry: Bytes
    var pendingLF: bool
    var lineSeen: bool
    var data: Bytes
    var dataSeen: bool
    var dataDropped: bool
    var last: Bytes
    var chunks: nat
    var dropping: bool
    var dropped: nat
    var sawDone: bool
    var events: seq<Event>

    ghost function State(): Fields
      reads this
    {
      Fields(carry, pendingLF, dropping, Assembled())
    }

    ghost function Assembled(): Assembly
      reads this
    {
      Assembly(lineSeen, data, dataSeen, dataDropped, last, chunks, dropped, sawDone, events)
    }

    constructor (maxLine: nat)
      ensures this.maxLine == maxLine
      ensures State() == INITIAL
    {
      this.maxLine := maxLine;
      carry, pendingLF, lineSeen := "", false, false;
      data, dataSeen, dataDropped := "", false, false;
      last, chunks, dropping, dropped, sawDone, events := "", 0, false, 0, false, [];
    }

    /** Feeding a buffer is running the per-byte automaton over it. */
    method Feed(buffer: Bytes)
      requires Valid(State(), maxLine)
      modifies this
      ensures State() == Run(old(State()), buffer, maxLine)
      ensures Valid(State(), maxLine)
    {
      ghost var goal := Run(State(), buffer, maxLine);
      RunValid(State(), buffer, maxLine);
      var b := buffer;
      while |b| > 0
        invariant Valid(State(), maxLine)
        invariant Run(State(), b, maxLine) == goal
        decreases |b|
      {
        var skipped := SkipLF(b);
        if skipped {
          b := b[1..];
          continue;
        }
        ghost var s, b0 := State(), b;

        if dropping {
          var _, rest, ok := SplitLine(b);
          if !ok {
            RunPlainLine(s, b, maxLine);
            return;
          }
          b := rest;
          dropping := false;
          RunLine(s, b0, IndexEOL(b0), maxLine);
          continue;
        }

        var line, rest, ok := SplitLine(b);
        if !ok {
          KeepLine(b);
          return;
        }
        b := rest;

        TakeLine(line);
        RunLine(s, b0, IndexEOL(b0), maxLine);
      }
    }

    /** The start of Feed's loop body: a line feed that completes a carriage return is skipped. */
    method SkipLF(b: Bytes) returns (skipped: bool)
      requires |b| > 0
      modifies this`pendingLF
      ensures !pendingLF
      ensures Run(State(), if skipped then b[1..] else b, maxLine) == Run(old(State()), b, maxLine)
    {
      ghost var s := State();
      skipped := false;
      if pendingLF {
        pendingLF := false;
        if b[0] == '\n' {
          assert Step(s, '\n', maxLine) == State();
          skipped := true;
        } else {
          assert s == s.(pendingLF := true) && State() == s.(pendingLF := false);
          PendingIrrelevant(s, b, maxLine);
        }
      }
    }

    /** The part of Feed's loop body for a line that does not end in this buffer. */
    method KeepLine(b: Bytes)
      requires Valid(State(), maxLine) && !dropping && !pendingLF && NoEOL(b)
      modifies this
      ensures State() == Run(old(State()), b, maxLine)
    {
      RunPlainLine(State(), b, maxLine);
      if |carry| + |b| > maxLine {
        carry := "";
        dropping := true;
        DropLine();
        return;
      }
      carry := carry + b;
    }

    /** The rest of Feed's loop body, for a line that ends in this buffer. */
    method TakeLine(line0: Bytes)
      requires !dropping
      modifies this
      ensures State() == LineTaken(old(State()), line0, maxLine).(pendingLF := old(pendingLF))
    {
      var line := line0;
      if |carry| + |line| > maxLine {
        carry := "";
        DropLine();
        return;
      }
      if |carry| > 0 {
        carry := carry + line;
        line := carry;
      }
      assert line == old(carry) + line0;
      ProcessLine(line);
      carry := "";
    }

    method Finish()
      modifies this
      ensures State() == Finished(old(State()), maxLine)
    {
      pendingLF := false;
      if dropping {
        dropping := false;
        carry := "";
      } else if |carry| > 0 {
        ProcessLine(carry);
        carry := "";
      }
      DispatchEvent();
    }

    method SplitLine(b: Bytes) returns (line: Bytes, rest: Bytes, ok: bool)
      modifies this`pendingLF
      ensures ok == (IndexEOL(b) >= 0)
      ensures !ok ==> rest == b && pendingLF == old(pendingLF)
      ensures ok ==> line == b[..IndexEOL(b)] && rest == b[NextLine(b, IndexEOL(b))..]
      ensures ok ==> pendingLF == (old(pendingLF) || LeavesPending(b, IndexEOL(b)))
    {
      var i := IndexEOL(b);
      if i < 0 {
        return "", b, false;
      }
      var next := i + 1;
      if b[i] == '\r' {
        if i + 1 < |b| {
          if b[i + 1] == '\n' {
            next := i + 2;
          }
        } else {
          pendingLF := true;
        }
      }
      return b[..i], b[next..], true;
    }

    method DropLine()
      modifies this`dropped, this`data, this`dataSeen, this`dataDropped
      ensures Assembled() == LineDropped(old(Assembled()))
    {
      dropped := dropped + 1;
      data := "";
      dataSeen := false;
      dataDropped := true;
    }

    method ProcessLine(line0: Bytes)
      modifies this`lineSeen, this`data, this`dataSeen, this`dataDropped, this`last, this`chunks, this`dropped,
        this`sawDone, this`events
      ensures Assembled() == LineProcessed(old(Assembled()), line0, maxLine)
    {
      var line := line0;
      if !lineSeen {
        lineSeen := true;
        if BYTE_ORDER <= line {
          line := line[|BYTE_ORDER|..];
        }
      }
      if |line| == 0 {
        DispatchEvent();
        return;
      }
      if !(DATA_PREFIX <= line) || dataDropped {
        return;
      }
      var value := line[|DATA_PREFIX|..];
      if |value| > 0 && value[0] == ' ' {
        value := value[1..];
      }
      var extra := |value|;
      if dataSeen {
        extra := extra + 1;
      }
      if |data| + extra > maxLine {
        DropLine();
        return;
      }
      if dataSeen {
        data := data + "\n";
      }
      data := data + value;
      dataSeen := true;
    }

    method DispatchEvent()
      modifies this`data, this`dataSeen, this`dataDropped, this`last, this`chunks, this`sawDone, this`events
      ensures Assembled() == EventDispatched(old(Assembled()))
    {
      var data0, seen, wasDropped := data, dataSeen, dataDropped;
      data := "";
      dataSeen := false;
      dataDropped := false;

      if wasDropped || !seen || |data0| == 0 {
        return;
      }
      if data0 == DONE {
        sawDone := true;
        events := events + [Event(data0, true, dropped)];
        return;
      }
      chunks := chunks + 1;
      last := data0;
      events := events + [Event(last, false, dropped)];
    }
  }

  /** Where the line after the terminator at i begins. */
  function NextLine(b: Bytes, i: nat): (next: nat)
    requires i < |b|
    ensures i < next <= |b|
  {
    if b[i] == '\r' && i + 1 < |b| && b[i + 1] == '\n' then i + 2 else i + 1
  }

  predicate LeavesPending(b: Bytes, i: nat)
    requires i < |b|
  {
    b[i] == '\r' && i + 1 == |b|
  }

  /** What the source makes of a complete line, before it looks at what follows the terminator. */
  function LineTaken(s: Fields, line: Bytes, maxLine: nat): Fields {
    Fields("", false, false,
      if s.dropping then s.event
      else if |s.carry| + |line| > maxLine then LineDropped(s.event)
      else LineProcessed(s.event, s.carry + line, maxLine))
  }

  lemma StepAfterLine(s: Fields, line: Bytes, c: char, maxLine: nat)
    requires Valid(s, maxLine) && !s.pendingLF && NoEOL(line) && IsEOL(c)
    ensures Step(Run(s, line, maxLine), c, maxLine) == LineTaken(s, line, maxLine).(pendingLF := c == '\r')
  {
    RunPlainLine(s, line, maxLine);
  }

  lemma RunLine(s: Fields, b: Bytes, i: int, maxLine: nat)
    requires Valid(s, maxLine) && !s.pendingLF
    requires 0 <= i < |b| && NoEOL(b[..i]) && IsEOL(b[i])
    ensures Run(s, b, maxLine) ==
            Run(LineTaken(s, b[..i], maxLine).(pendingLF := LeavesPending(b, i)), b[NextLine(b, i)..], maxLine)
  {
    var line, tail := b[..i], b[i + 1..];
    var t := LineTaken(s, line, maxLine);
    var v := t.(pendingLF := b[i] == '\r');
    assert Run(s, b, maxLine) == Run(v, tail, maxLine) by {
      assert b == line + b[i..];
      RunAppend(s, line, b[i..], maxLine);
      assert b[i..][0] == b[i] && b[i..][1..] == tail;
      StepAfterLine(s, line, b[i], maxLine);
    }
    AfterCR(t, v, b, i, maxLine);
  }

  lemma AfterCR(t: Fields, v: Fields, b: Bytes, i: int, maxLine: nat)
    requires 0 <= i < |b| && v == t.(pendingLF := b[i] == '\r')
    ensures Run(v, b[i + 1..], maxLine) == Run(t.(pendingLF := LeavesPending(b, i)), b[NextLine(b, i)..], maxLine)
  {
    var tail := b[i + 1..];
    if b[i] == '\r' && i + 1 < |b| {
      if b[i + 1] == '\n' {
        assert tail[0] == '\n' && tail[1..] == b[i + 2..];
        assert Step(v, '\n', maxLine) == t.(pendingLF := false);
      } else {
        PendingIrrelevant(t, tail, maxLine);
      }
    }
  }
}

/**
 * The glue of internal/proxy/body.go between the event-stream parser and the accumulator: when
 * the first token is reported, and what the observation of a whole body amounts to.
 */
module Observation {
  import opened Bytes
  import opened StreamEvents
  import opened StreamParts
  import opened StreamAssembly
  import opened StreamInvariants
  import opened StreamSafety
  import opened StreamRuns
  import SSE = ServerSentEvents

  /** The decoder of payloads; JSON text is left out. */
  type Decoder = Bytes -> StreamEvents.Payload

  ghost predicate DecoderOK(decode: Decoder) {
    decode("").NotJSON? && forall b :: WellFormedPayload(decode(b))
  }

  /** What a stream observer knows: the events seen so far, the accumulator, and the calls it made. */
  datatype Watch = Watch(seen: seq<SSE.Event>, acc: Acc, sawToken: bool, tokens: seq<int>, reported: seq<Output>)

  function NewWatch(limit: nat): Watch {
    Watch([], NewAcc(limit), false, [], [])
  }

  predicate Gap(a: Acc) {
    a.limited || a.decodeFailed
  }

  predicate AccHasToken(a: Acc) {
    exists k :: k in a.states && StateHasToken(a.states[k])
  }

  predicate AnyToken(outputs: seq<Output>) {
    exists i :: 0 <= i < |outputs| && OutputHasToken(outputs[i])
  }

  ghost function Observed(a: Acc, e: SSE.Event, decode: Decoder, at: int): (Acc, seq<Output>) {
    Observe(if e.dropped > 0 then a.(limited := true) else a, decode(e.payload), e.terminal, at)
  }

  /** Whether a token shows after an event, with nothing missed before it. */
  ghost predicate Shows(a: Acc, outputs: seq<Output>, e: SSE.Event) {
    e.dropped == 0 && !Gap(a) && (AccHasToken(a) || AnyToken(outputs))
  }

  /** observeStreamPayload */
  ghost function Watched(w: Watch, e: SSE.Event, decode: Decoder, at: int): Watch {
    var (b, outputs) := Observed(w.acc, e, decode, at);
    var first := !w.sawToken && Shows(b, outputs, e);
    Watch(w.seen + [e], b, w.sawToken || first, if first then w.tokens + [at] else w.tokens, w.reported + outputs)
  }

  ghost function WatchedAll(w: Watch, events: seq<SSE.Event>, decode: Decoder, at: int): Watch
    decreases |events|
  {
    if events == [] then w else WatchedAll(Watched(w, events[0], decode, at), events[1..], decode, at)
  }

  /** What done does for a stream: a line dropped after the last event counts too. */
  ghost function Concluded(a: Acc, dropped: nat, at: int): (Acc, seq<Output>) {
    Finish(if dropped > 0 then a.(limited := true) else a, at)
  }

  lemma {:induction false} WatchedAppend(w: Watch, x: seq<SSE.Event>, y: seq<SSE.Event>, decode: Decoder, at: int)
    ensures WatchedAll(w, x + y, decode, at) == WatchedAll(WatchedAll(w, x, decode, at), y, decode, at)
    decreases |x|
  {
    if x == [] {
      assert x + y == y;
    } else {
      assert (x + y)[0] == x[0] && (x + y)[1..] == x[1..] + y;
      WatchedAppend(Watched(w, x[0], decode, at), x[1..], y, decode, at);
    }
  }

  // ---------- What the parser logs ----------

  /** The payload of the last event that was no [DONE]. */
  function LastData(events: seq<SSE.Event>): Bytes {
    if events == [] then ""
    else
      var e := events[|events| - 1];
      if e.terminal then LastData(events[..|events| - 1]) else e.payload
  }

  predicate AnyTerminal(events: seq<SSE.Event>) {
    exists i :: 0 <= i < |events| && events[i].terminal
  }

  /** The parser's last and sawDone are those of the events it has passed on. */
  predicate Logged(e: SSE.Assembly) {
    e.last == LastData(e.events) && (e.sawDone <==> AnyTerminal(e.events))
  }

  lemma DispatchLogged(e: SSE.Assembly)
    requires Logged(e)
    ensures Logged(SSE.EventDispatched(e)) && e.events <= SSE.EventDispatched(e).events
  {
    var r := SSE.EventDispatched(e);
    if r.events != e.events {
      var n := |e.events|;
      assert r.events[..n] == e.events;
      assert forall i :: 0 <= i < n ==> r.events[i] == e.events[i];
      assert r.sawDone ==> e.sawDone || r.events[n].terminal;
    }
  }

  lemma StepLogged(s: SSE.Fields, c: char, maxLine: nat)
    requires Logged(s.event)
    ensures Logged(SSE.Step(s, c, maxLine).event) && s.event.events <= SSE.Step(s, c, maxLine).event.events
  {
    var r := s.event.(lineSeen := true);
    DispatchLogged(r);
  }

  lemma {:induction false} RunLogged(s: SSE.Fields, b: Bytes, maxLine: nat)
    requires Logged(s.event)
    ensures Logged(SSE.Run(s, b, maxLine).event) && s.event.events <= SSE.Run(s, b, maxLine).event.events
    decreases |b|
  {
    if b != "" {
      StepLogged(s, b[0], maxLine);
      RunLogged(SSE.Step(s, b[0], maxLine), b[1..], maxLine);
    }
  }

  lemma FinishLogged(s: SSE.Fields, maxLine: nat)
    requires Logged(s.event)
    ensures Logged(SSE.Finished(s, maxLine).event) && s.event.events <= SSE.Finished(s, maxLine).event.events
  {
    DispatchLogged(s.event.(lineSeen := true));
    var e := if !s.dropping && |s.carry| > 0 then SSE.LineProcessed(s.event, s.carry, maxLine) else s.event;
    DispatchLogged(e);
  }

  // ---------- What the accumulator saw ----------

  predicate Decodes(p: StreamEvents.Payload) {
    p.JSON? && p.event.Some?
  }

  /** An event that ends the stream. */
  predicate Ends(e: SSE.Event, decode: Decoder) {
    e.terminal || (Decodes(decode(e.payload)) && EndsStream(decode(e.payload).event.value.envelope))
  }

  /** The first n payloads decode, the [DONE] marker apart. */
  predicate Clean(events: seq<SSE.Event>, n: nat, decode: Decoder)
    requires n <= |events|
  {
    forall i :: 0 <= i < n ==> events[i].terminal || Decodes(decode(events[i].payload))
  }

  /** The stream ended properly at the n-th event, and everything up to there was decoded. */
  predicate CleanEnd(events: seq<SSE.Event>, n: nat, decode: Decoder) {
    0 < n <= |events| && Clean(events, n, decode) && Ends(events[n - 1], decode)
  }

  /** What ParseResponse makes of a payload that ends a response well. */
  predicate EndsWell(p: StreamEvents.Payload) {
    var r := ParseResponse(p);
    r.Some? && r.value.terminal && !r.value.failed && !r.value.incomplete
  }

  predicate NoneEnds(events: seq<SSE.Event>, decode: Decoder) {
    forall i :: 0 <= i < |events| ==> !Ends(events[i], decode)
  }

  ghost predicate WatchOK(w: Watch, decode: Decoder) {
    && Valid(w.acc)
    && (w.acc.closed ==> w.acc.terminalObserved)
    && (!w.acc.closed ==> NoneEnds(w.seen, decode))
    && (AnyTerminal(w.seen) ==> w.acc.terminalObserved)
    && (EndsWell(decode(LastData(w.seen))) ==> w.acc.terminalObserved || w.acc.limited)
    && (!w.acc.decodeFailed ==>
          if w.acc.closed then exists n :: CleanEnd(w.seen, n, decode) else Clean(w.seen, |w.seen|, decode))
  }

  /** What one call of Observe leaves behind, as far as it decides the outcome. */
  ghost predicate Recorded(a: Acc, e: SSE.Event, decode: Decoder, b: Acc) {
    && Valid(b) && (a.limited ==> b.limited) && (a.decodeFailed ==> b.decodeFailed)
    && (a.closed ==> b == a)
    && (!a.closed ==>
          && (b.closed ==> b.terminalObserved)
          && (e.terminal ==> b.closed && b.decodeFailed == a.decodeFailed)
          && (!e.terminal && !Decodes(decode(e.payload)) ==> b.decodeFailed)
          && (!e.terminal && Decodes(decode(e.payload)) ==> (b.closed <==> Ends(e, decode)))
          && (!e.terminal && EndsWell(decode(e.payload)) ==> b.terminalObserved || b.limited))
  }

  lemma EndsWellIsEnd(p: StreamEvents.Payload)
    requires WellFormedPayload(p) && EndsWell(p) && Decodes(p)
    ensures EventEnd(p.event.value.envelope).Terminal?
  {
  }

  lemma ObserveRecords(a: Acc, e: SSE.Event, decode: Decoder, at: int)
    requires Valid(a) && DecoderOK(decode)
    ensures Recorded(a, e, decode, Observe(a, decode(e.payload), e.terminal, at).0)
  {
    var p := decode(e.payload);
    assert WellFormedPayload(p);
    ObserveSteps(a, p, e.terminal, at);
    if !a.closed {
      if e.terminal {
        DoneRecords(a, at);
      } else if Decodes(p) {
        EventRecords(a, p.event.value, at);
      } else if p.JSON? {
        MisfitRecords(a, p, at);
      }
      if Decodes(p) && EndsWell(p) {
        EndsWellIsEnd(p);
      }
    }
  }

  lemma DoneRecords(a: Acc, at: int)
    requires Valid(a) && !a.closed
    ensures var b := FinishAll(CloseAt(a, Terminal(false, false, "")), at, Verdict(true, false, "")).0;
            b.closed && b.terminalObserved && b.decodeFailed == a.decodeFailed
  {
    FinishAllSafe(CloseAt(a, Terminal(false, false, "")), at, Verdict(true, false, ""));
  }

  lemma MisfitRecords(a: Acc, p: StreamEvents.Payload, at: int)
    requires Valid(a) && !a.closed
    ensures var b := ObserveMisfit(a, p, at).0; b.decodeFailed && b.limited && (b.closed ==> b.terminalObserved)
  {
    var b, t := a.(decodeFailed := true, limited := true), DecodeTerminal(p);
    if t.Terminal? {
      DecodeTerminalOK(p);
      FinishAllSafe(CloseAt(b, t), at, EndVerdict(t));
    }
  }

  lemma EventRecords(a: Acc, event: Event, at: int)
    requires Valid(a) && !a.closed
    ensures var b := ObserveEvent(a, event, at).0;
            (b.closed <==> EventEnd(event.envelope).Terminal?) && (b.closed ==> b.terminalObserved)
  {
    ObserveDecodedSafe(a, event, at);
    var b, t := ObserveDecoded(a, event, at).0, EventEnd(event.envelope);
    if t.Terminal? {
      EventEndOK(event.envelope);
      FinishAllSafe(CloseAt(b, t), at, EndVerdict(t));
    }
  }

  lemma SeenMore(seen: seq<SSE.Event>, e: SSE.Event, decode: Decoder)
    ensures LastData(seen + [e]) == if e.terminal then LastData(seen) else e.payload
    ensures AnyTerminal(seen + [e]) <==> AnyTerminal(seen) || e.terminal
    ensures forall n :: CleanEnd(seen, n, decode) ==> CleanEnd(seen + [e], n, decode)
    ensures Clean(seen, |seen|, decode) && (e.terminal || Decodes(decode(e.payload)))
         ==> Clean(seen + [e], |seen| + 1, decode)
  {
    var more := seen + [e];
    assert more[..|more| - 1] == seen && more[|seen|] == e;
    assert forall i :: 0 <= i < |seen| ==> more[i] == seen[i];
  }

  /** Every event keeps the account of the stream right. */
  lemma WatchedOK(w: Watch, e: SSE.Event, decode: Decoder, at: int)
    requires WatchOK(w, decode) && DecoderOK(decode)
    ensures WatchOK(Watched(w, e, decode, at), decode)
  {
    var a := if e.dropped > 0 then w.acc.(limited := true) else w.acc;
    var v := Watched(w, e, decode, at);
    assert Valid(a);
    ObserveRecords(a, e, decode, at);
    SeenMore(w.seen, e, decode);
    if !v.acc.decodeFailed {
      if w.acc.closed {
        var n :| CleanEnd(w.seen, n, decode);
        assert CleanEnd(v.seen, n, decode);
      } else if v.acc.closed {
        assert CleanEnd(v.seen, |v.seen|, decode);
      }
    }
  }

  lemma {:induction false} WatchedAllOK(w: Watch, events: seq<SSE.Event>, decode: Decoder, at: int)
    requires WatchOK(w, decode) && DecoderOK(decode)
    ensures WatchOK(WatchedAll(w, events, decode, at), decode)
    decreases |events|
  {
    if events != [] {
      WatchedOK(w, events[0], decode, at);
      WatchedAllOK(Watched(w, events[0], decode, at), events[1..], decode, at);
    }
  }

  lemma NewWatchOK(limit: nat, decode: Decoder)
    requires DecoderOK(decode)
    ensures WatchOK(NewWatch(limit), decode)
  {
    NewAccValid(limit);
  }

  // ---------- Whole bodies ----------

  /** An event, and the time of the read that completed it. */
  datatype Arrival = Arrival(event: SSE.Event, at: int)

  ghost function WatchRun(w: Watch, arrivals: seq<Arrival>, decode: Decoder): Watch
    decreases |arrivals|
  {
    if arrivals == [] then w else WatchRun(Watched(w, arrivals[0].event, decode, arrivals[0].at), arrivals[1..], decode)
  }

  lemma {:induction false} WatchRunOK(w: Watch, arrivals: seq<Arrival>, decode: Decoder)
    requires WatchOK(w, decode) && DecoderOK(decode)
    ensures WatchOK(WatchRun(w, arrivals, decode), decode)
    decreases |arrivals|
  {
    if arrivals != [] {
      WatchedOK(w, arrivals[0].event, decode, arrivals[0].at);
      WatchRunOK(Watched(w, arrivals[0].event, decode, arrivals[0].at), arrivals[1..], decode);
    }
  }

  function Timed(events: seq<SSE.Event>, at: int): seq<Arrival> {
    if events == [] then [] else [Arrival(events[0], at)] + Timed(events[1..], at)
  }

  lemma {:induction false} WatchedAllIsRun(w: Watch, events: seq<SSE.Event>, decode: Decoder, at: int)
    ensures WatchedAll(w, events, decode, at) == WatchRun(w, Timed(events, at), decode)
    decreases |events|
  {
    if events != [] {
      assert Timed(events, at)[1..] == Timed(events[1..], at);
      WatchedAllIsRun(Watched(w, events[0], decode, at), events[1..], decode, at);
    }
  }

  // ---------- The first token ----------

  ghost function AccRun(a: Acc, arrivals: seq<Arrival>, decode: Decoder): Acc
    decreases |arrivals|
  {
    if arrivals == [] then a
    else AccRun(Observed(a, arrivals[0].event, decode, arrivals[0].at).0, arrivals[1..], decode)
  }

  /** A token shows after the i-th arrival, and nothing has been missed up to it. */
  ghost predicate ShowsAt(a: Acc, arrivals: seq<Arrival>, decode: Decoder, i: nat)
    requires i < |arrivals|
  {
    var (b, outputs) := Observed(AccRun(a, arrivals[..i], decode), arrivals[i].event, decode, arrivals[i].at);
    Shows(b, outputs, arrivals[i].event)
  }

  lemma ShowsLater(a: Acc, arrivals: seq<Arrival>, decode: Decoder, i: nat)
    requires 0 < i < |arrivals|
    ensures var b := Observed(a, arrivals[0].event, decode, arrivals[0].at).0;
            ShowsAt(a, arrivals, decode, i) <==> ShowsAt(b, arrivals[1..], decode, i - 1)
  {
    assert arrivals[..i][1..] == arrivals[1..][..i - 1];
  }

  lemma {:induction false} ReportedOnce(w: Watch, arrivals: seq<Arrival>, decode: Decoder)
    requires w.sawToken
    ensures WatchRun(w, arrivals, decode).tokens == w.tokens
    decreases |arrivals|
  {
    if arrivals != [] {
      ReportedOnce(Watched(w, arrivals[0].event, decode, arrivals[0].at), arrivals[1..], decode);
    }
  }

  /**
   * The first token is reported once at most: at the time of the first arrival after which a
   * token shows while nothing has been missed, and not at all if there is none.
   */
  lemma {:induction false} FirstTokenReported(w: Watch, arrivals: seq<Arrival>, decode: Decoder)
    requires !w.sawToken && w.tokens == []
    ensures var tokens := WatchRun(w, arrivals, decode).tokens;
            if tokens == [] then forall i :: 0 <= i < |arrivals| ==> !ShowsAt(w.acc, arrivals, decode, i)
            else exists i :: 0 <= i < |arrivals| && FirstShownAt(w.acc, arrivals, decode, i)
                               && tokens == [arrivals[i].at]
    decreases |arrivals|
  {
    if arrivals != [] {
      var first, rest := arrivals[0], arrivals[1..];
      var v := Watched(w, first.event, decode, first.at);
      assert arrivals[..0] == [];
      if v.sawToken {
        ReportedOnce(v, rest, decode);
        assert FirstShownAt(w.acc, arrivals, decode, 0);
      } else {
        FirstTokenReported(v, rest, decode);
        NotShownFirst(w.acc, arrivals, decode, WatchRun(v, rest, decode).tokens);
      }
    }
  }

  ghost predicate FirstShownAt(a: Acc, arrivals: seq<Arrival>, decode: Decoder, i: nat)
    requires i < |arrivals|
  {
    ShowsAt(a, arrivals, decode, i) && forall j :: 0 <= j < i ==> !ShowsAt(a, arrivals, decode, j)
  }

  lemma NotShownFirst(a: Acc, arrivals: seq<Arrival>, decode: Decoder, tokens: seq<int>)
    requires arrivals != [] && !ShowsAt(a, arrivals, decode, 0)
    requires var b := Observed(a, arrivals[0].event, decode, arrivals[0].at).0;
             var rest := arrivals[1..];
             if tokens == [] then forall i :: 0 <= i < |rest| ==> !ShowsAt(b, rest, decode, i)
             else exists i :: 0 <= i < |rest| && FirstShownAt(b, rest, decode, i) && tokens == [rest[i].at]
    ensures if tokens == [] then forall i :: 0 <= i < |arrivals| ==> !ShowsAt(a, arrivals, decode, i)
            else exists i :: 0 <= i < |arrivals| && FirstShownAt(a, arrivals, decode, i) && tokens == [arrivals[i].at]
  {
    var b := Observed(a, arrivals[0].event, decode, arrivals[0].at).0;
    var rest := arrivals[1..];
    forall i | 0 < i < |arrivals| ensures ShowsAt(a, arrivals, decode, i) <==> ShowsAt(b, rest, decode, i - 1) {
      ShowsLater(a, arrivals, decode, i);
    }
    if tokens != [] {
      var i :| 0 <= i < |rest| && FirstShownAt(b, rest, decode, i) && tokens == [rest[i].at];
      forall j | 0 <= j < i + 1 ensures !ShowsAt(a, arrivals, decode, j) {
        assert j > 0 ==> !ShowsAt(b, rest, decode, j - 1);
      }
      assert ShowsAt(a, arrivals, decode, i + 1);
      assert FirstShownAt(a, arrivals, decode, i + 1);
    }
  }

  /** After a gap no token is reported any more: a decode failure or a cap is never forgotten. */
  lemma {:induction false} NoTokenAfterGap(w: Watch, arrivals: seq<Arrival>, decode: Decoder)
    requires Valid(w.acc) && Gap(w.acc)
    ensures WatchRun(w, arrivals, decode).tokens == w.tokens
    decreases |arrivals|
  {
    if arrivals != [] {
      var e, at := arrivals[0].event, arrivals[0].at;
      var a := if e.dropped > 0 then w.acc.(limited := true) else w.acc;
      assert Valid(a);
      ObserveSteps(a, decode(e.payload), e.terminal, at);
      NoTokenAfterGap(Watched(w, e, decode, at), arrivals[1..], decode);
    }
  }

  // ---------- Reads ----------

  /** The parser and the watch together: what a stream observer's fields amount to. */
  datatype Stream = Stream(parser: SSE.Fields, watch: Watch)

  predicate InStep(s: Stream) {
    Logged(s.parser.event) && s.watch.seen == s.parser.event.events
  }

  /** The parser has gone on, and the events that it passed on since have been watched. */
  ghost function Advanced(s: Stream, after: SSE.Fields, decode: Decoder, at: int): Stream
    requires InStep(s) && s.parser.event.events <= after.event.events
  {
    Stream(after, WatchedAll(s.watch, after.event.events[|s.watch.seen|..], decode, at))
  }

  ghost function ReadOf(s: Stream, chunk: Bytes, decode: Decoder, at: int, maxLine: nat): Stream
    requires InStep(s)
  {
    RunLogged(s.parser, chunk, maxLine);
    Advanced(s, SSE.Run(s.parser, chunk, maxLine), decode, at)
  }

  lemma {:induction false} SeenAll(w: Watch, events: seq<SSE.Event>, decode: Decoder, at: int)
    ensures WatchedAll(w, events, decode, at).seen == w.seen + events
    decreases |events|
  {
    if events == [] {
      assert w.seen + events == w.seen;
    } else {
      SeenAll(Watched(w, events[0], decode, at), events[1..], decode, at);
      assert w.seen + [events[0]] + events[1..] == w.seen + events;
    }
  }

  lemma AdvancedInStep(s: Stream, after: SSE.Fields, decode: Decoder, at: int)
    requires InStep(s) && s.parser.event.events <= after.event.events && Logged(after.event)
    ensures InStep(Advanced(s, after, decode, at))
  {
    var events := after.event.events[|s.watch.seen|..];
    SeenAll(s.watch, events, decode, at);
    assert s.parser.event.events + events == after.event.events;
  }

  lemma ReadInStep(s: Stream, chunk: Bytes, decode: Decoder, at: int, maxLine: nat)
    requires InStep(s)
    ensures InStep(ReadOf(s, chunk, decode, at, maxLine))
  {
    RunLogged(s.parser, chunk, maxLine);
    AdvancedInStep(s, SSE.Run(s.parser, chunk, maxLine), decode, at);
  }

  /** How the bytes that arrive at one time are cut into reads makes no difference to what is observed. */
  lemma ReadsJoin(s: Stream, x: Bytes, y: Bytes, decode: Decoder, at: int, maxLine: nat)
    requires InStep(s)
    ensures InStep(ReadOf(s, x, decode, at, maxLine))
    ensures ReadOf(ReadOf(s, x, decode, at, maxLine), y, decode, at, maxLine) == ReadOf(s, x + y, decode, at, maxLine)
  {
    ReadInStep(s, x, decode, at, maxLine);
    SSE.RunAppend(s.parser, x, y, maxLine);
    RunLogged(s.parser, x, maxLine);
    var f := SSE.Run(s.parser, x, maxLine);
    RunLogged(f, y, maxLine);
    var g := SSE.Run(f, y, maxLine);
    var n, m := |s.watch.seen|, |f.event.events|;
    SeenAll(s.watch, f.event.events[n..], decode, at);
    Consecutive(g.event.events, f.event.events, n);
    WatchedAppend(s.watch, f.event.events[n..], g.event.events[m..], decode, at);
  }

  // ---------- Whole streams ----------

  /** A read that brought bytes, and its time. */
  datatype Chunk = Chunk(bytes: Bytes, at: int)

  function BytesOf(chunks: seq<Chunk>): Bytes {
    if chunks == [] then "" else BytesOf(chunks[..|chunks| - 1]) + chunks[|chunks| - 1].bytes
  }

  function ParserAfter(chunks: seq<Chunk>, maxLine: nat): SSE.Fields {
    SSE.Run(SSE.INITIAL, BytesOf(chunks), maxLine)
  }

  function ParserAtEnd(chunks: seq<Chunk>, whole: bool, maxLine: nat): SSE.Fields {
    if whole then SSE.Finished(ParserAfter(chunks, maxLine), maxLine) else ParserAfter(chunks, maxLine)
  }

  /** A stream observer after the reads. */
  ghost function StreamAfter(chunks: seq<Chunk>, decode: Decoder, limit: nat, maxLine: nat): (s: Stream)
    ensures InStep(s)
  {
    if chunks == [] then Stream(SSE.INITIAL, NewWatch(limit))
    else
      var before, last := StreamAfter(chunks[..|chunks| - 1], decode, limit, maxLine), chunks[|chunks| - 1];
      ReadInStep(before, last.bytes, decode, last.at, maxLine);
      ReadOf(before, last.bytes, decode, last.at, maxLine)
  }

  /** The end of the body finishes the parser and observes what that completes. */
  ghost function EndOf(s: Stream, decode: Decoder, at: int, maxLine: nat): Stream
    requires InStep(s)
  {
    FinishLogged(s.parser, maxLine);
    Advanced(s, SSE.Finished(s.parser, maxLine), decode, at)
  }

  /** The time that goes with the end of the body: that of the last read, if there was one. */
  function EndTime(chunks: seq<Chunk>, t: int): int {
    if chunks == [] then t else chunks[|chunks| - 1].at
  }

  /** A stream observer that was read to the end of the body, or closed or failed before. */
  ghost function StreamAtEnd(chunks: seq<Chunk>, whole: bool, decode: Decoder, limit: nat, t: int, maxLine: nat)
    : Stream
  {
    var s := StreamAfter(chunks, decode, limit, maxLine);
    if whole then EndOf(s, decode, EndTime(chunks, t), maxLine) else s
  }

  /** The events that the reads complete, each with the time of its read. */
  function Arrivals(chunks: seq<Chunk>, maxLine: nat): seq<Arrival> {
    if chunks == [] then []
    else
      var before, last := chunks[..|chunks| - 1], chunks[|chunks| - 1];
      Arrivals(before, maxLine) + NewArrivals(ParserAfter(before, maxLine), ParserAfter(chunks, maxLine), last.at)
  }

  function NewArrivals(before: SSE.Fields, after: SSE.Fields, at: int): seq<Arrival> {
    if |before.event.events| > |after.event.events| then []
    else Timed(after.event.events[|before.event.events|..], at)
  }

  function ArrivalsAtEnd(chunks: seq<Chunk>, whole: bool, t: int, maxLine: nat): seq<Arrival> {
    Arrivals(chunks, maxLine)
    + (if whole then NewArrivals(ParserAfter(chunks, maxLine), ParserAtEnd(chunks, true, maxLine), EndTime(chunks, t))
      else [])
  }

  function EventsOf(arrivals: seq<Arrival>): seq<SSE.Event> {
    if arrivals == [] then [] else [arrivals[0].event] + EventsOf(arrivals[1..])
  }

  lemma {:induction false} TimedEvents(events: seq<SSE.Event>, at: int)
    ensures EventsOf(Timed(events, at)) == events
  {
    if events != [] {
      TimedEvents(events[1..], at);
      assert Timed(events, at)[1..] == Timed(events[1..], at);
    }
  }

  lemma {:induction false} EventsOfAppend(x: seq<Arrival>, y: seq<Arrival>)
    ensures EventsOf(x + y) == EventsOf(x) + EventsOf(y)
    decreases |x|
  {
    if x == [] {
      assert x + y == y;
    } else {
      assert (x + y)[0] == x[0] && (x + y)[1..] == x[1..] + y;
      EventsOfAppend(x[1..], y);
      Associative([x[0].event], EventsOf(x[1..]), EventsOf(y));
    }
  }

  lemma {:induction false} WatchRunAppend(w: Watch, x: seq<Arrival>, y: seq<Arrival>, decode: Decoder)
    ensures WatchRun(w, x + y, decode) == WatchRun(WatchRun(w, x, decode), y, decode)
    decreases |x|
  {
    if x == [] {
      assert x + y == y;
    } else {
      assert (x + y)[0] == x[0] && (x + y)[1..] == x[1..] + y;
      WatchRunAppend(Watched(w, x[0].event, decode, x[0].at), x[1..], y, decode);
    }
  }

  /** An account of a stream: its parser has read these bytes, and its watch has seen these arrivals. */
  ghost predicate Accounts(s: Stream, parser: SSE.Fields, arrivals: seq<Arrival>, decode: Decoder, limit: nat) {
    && s.parser == parser && s.watch == WatchRun(NewWatch(limit), arrivals, decode)
    && EventsOf(arrivals) == parser.event.events
  }

  lemma AccountsFor(s: Stream, arrivals: seq<Arrival>, after: SSE.Fields, at: int, decode: Decoder, limit: nat)
    requires InStep(s) && Accounts(s, s.parser, arrivals, decode, limit) && s.parser.event.events <= after.event.events
    ensures Accounts(Advanced(s, after, decode, at), after, arrivals + NewArrivals(s.parser, after, at), decode, limit)
  {
    var events := after.event.events[|s.watch.seen|..];
    WatchedAllIsRun(s.watch, events, decode, at);
    WatchRunAppend(NewWatch(limit), arrivals, Timed(events, at), decode);
    EventsAddUp(s.parser.event.events, after.event.events, arrivals, at);
  }

  lemma EventsAddUp(some: seq<SSE.Event>, all: seq<SSE.Event>, arrivals: seq<Arrival>, at: int)
    requires some <= all && EventsOf(arrivals) == some
    ensures EventsOf(arrivals + Timed(all[|some|..], at)) == all
  {
    TimedEvents(all[|some|..], at);
    EventsOfAppend(arrivals, Timed(all[|some|..], at));
  }

  /** What the reads made of the observer is what the parser makes of all bytes, event by event. */
  lemma {:induction false} StreamAfterAccounts(chunks: seq<Chunk>, decode: Decoder, limit: nat, maxLine: nat)
    ensures Accounts(StreamAfter(chunks, decode, limit, maxLine), ParserAfter(chunks, maxLine),
         Arrivals(chunks, maxLine), decode, limit)
    decreases |chunks|
  {
    if chunks != [] {
      var before, last := chunks[..|chunks| - 1], chunks[|chunks| - 1];
      var s := StreamAfter(before, decode, limit, maxLine);
      StreamAfterAccounts(before, decode, limit, maxLine);
      RunLogged(s.parser, last.bytes, maxLine);
      SSE.RunAppend(SSE.INITIAL, BytesOf(before), last.bytes, maxLine);
      AccountsFor(s, Arrivals(before, maxLine), ParserAfter(chunks, maxLine), last.at, decode, limit);
    }
  }

  lemma StreamAtEndAccounts(chunks: seq<Chunk>, whole: bool, decode: Decoder, limit: nat, t: int, maxLine: nat)
    ensures Accounts(StreamAtEnd(chunks, whole, decode, limit, t, maxLine), ParserAtEnd(chunks, whole, maxLine),
              ArrivalsAtEnd(chunks, whole, t, maxLine), decode, limit)
    ensures InStep(StreamAtEnd(chunks, whole, decode, limit, t, maxLine))
  {
    var s := StreamAfter(chunks, decode, limit, maxLine);
    StreamAfterAccounts(chunks, decode, limit, maxLine);
    if whole {
      FinishLogged(s.parser, maxLine);
      AccountsFor(s, Arrivals(chunks, maxLine), ParserAtEnd(chunks, true, maxLine), EndTime(chunks, t), decode, limit);
      EndInStep(s, decode, EndTime(chunks, t), maxLine);
    } else {
      assert Arrivals(chunks, maxLine) + [] == Arrivals(chunks, maxLine);
    }
  }

  lemma EndInStep(s: Stream, decode: Decoder, at: int, maxLine: nat)
    requires InStep(s)
    ensures InStep(EndOf(s, decode, at, maxLine))
  {
    FinishLogged(s.parser, maxLine);
    AdvancedInStep(s, SSE.Finished(s.parser, maxLine), decode, at);
  }

  lemma Consecutive(all: seq<SSE.Event>, some: seq<SSE.Event>, n: nat)
    requires some <= all && n <= |some|
    ensures all[n..] == some[n..] + all[|some|..]
  {
  }
}

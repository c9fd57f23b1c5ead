/**
 * The body observer of internal/proxy/body.go with its fields updated in place, over the parser
 * and the accumulator. The calls of its callbacks are listed in fields.
 */
module BodyObservers {
  import opened Bytes
  import opened StreamParts
  import opened StreamAccumulators
  import opened Observation
  import I = StreamInvariants
  import SSE = ServerSentEvents
  import T = LimitedText

  const MAX_COLLECTED_BODY_SIZE := 0x10_0000
  const MAX_LINE := 0x10_0000

  datatype BodyError = NoError | Interrupted | Broken

  /** What the observation of a body amounts to; `payload` is the last of a stream, or the whole body. */
  datatype BodyResult = BodyResult(
    firstByte: Option<int>, lastByte: Option<int>, payload: Bytes, chunks: nat, dropped: nat, truncated: bool,
    err: BodyError, sawDone: bool, firstToken: Option<int>, streamOutputs: seq<Output>, streamLimited: bool)

  function FirstOf(tokens: seq<int>): Option<int> {
    if tokens == [] then None else Some(tokens[0])
  }

  /** The result of a stream that was observed so far, read between the two times, when it ends at t. */
  ghost function StreamResult(s: Stream, firstByte: Option<int>, lastByte: Option<int>, err: BodyError, t: int)
    : BodyResult
  {
    var p := s.parser.event;
    var (b, outputs) := Concluded(s.watch.acc, p.dropped, t);
    BodyResult(firstByte, lastByte, p.last, p.chunks, p.dropped, false, err, p.sawDone || b.terminalObserved,
      FirstOf(s.watch.tokens), outputs, b.limited)
  }

  function PlainResult(c: Collected, firstByte: Option<int>, lastByte: Option<int>, tokens: seq<int>, err: BodyError)
    : BodyResult
  {
    BodyResult(firstByte, lastByte, c.buf, 0, 0, c.truncated, err, false, FirstOf(tokens), [], false)
  }

  /** A body that is no stream, collected up to a bound. */
  datatype Collected = Collected(buf: Bytes, truncated: bool)

  function Collect(c: Collected, p: Bytes): Collected {
    if c.truncated then c
    else if |c.buf| + |p| > MAX_COLLECTED_BODY_SIZE then Collected("", true)
    else Collected(c.buf + p, false)
  }

  function CollectAll(c: Collected, chunks: seq<Bytes>): Collected
    decreases |chunks|
  {
    if chunks == [] then c else CollectAll(Collect(c, chunks[0]), chunks[1..])
  }

  /** The whole body, or nothing when it is too long, however it was cut. */
  lemma {:induction false} CollectedWhole(buf: Bytes, chunks: seq<Bytes>)
    requires |buf| <= MAX_COLLECTED_BODY_SIZE
    ensures var whole := buf + SSE.Flatten(chunks);
            CollectAll(Collected(buf, false), chunks)
            == if |whole| <= MAX_COLLECTED_BODY_SIZE then Collected(whole, false) else Collected("", true)
    decreases |chunks|
  {
    if chunks == [] {
      assert buf + "" == buf;
    } else {
      var rest := SSE.Flatten(chunks[1..]);
      assert (buf + chunks[0]) + rest == buf + (chunks[0] + rest);
      if |buf + chunks[0]| <= MAX_COLLECTED_BODY_SIZE {
        CollectedWhole(buf + chunks[0], chunks[1..]);
      } else {
        TruncatedStays(chunks[1..]);
      }
    }
  }

  lemma {:induction false} TruncatedStays(chunks: seq<Bytes>)
    ensures CollectAll(Collected("", true), chunks) == Collected("", true)
  {
    if chunks != [] {
      TruncatedStays(chunks[1..]);
    }
  }

  class BodyObserver {
    const isStream: bool
    const opaque_: bool
    const decode: Decoder
    const parser: SSE.Parser
    const accumulator: StreamAccumulator
    var buf: Bytes
    var truncated: bool
    var first: Option<int>
    var last: Option<int>
    var now: Option<int>
    var sawToken: bool
    var firstToken: Option<int>
    var tokens: seq<int>
    var reported: seq<Output>
    var results: seq<BodyResult>
    var seen: seq<SSE.Event>
    /** The reads that were fed to the parser. */
    ghost var fed: seq<Chunk>

    ghost predicate Valid()
      reads this, parser, accumulator
    {
      && DecoderOK(decode) && parser.maxLine == MAX_LINE
      && SSE.Valid(parser.State(), MAX_LINE) && Logged(parser.State().event)
      && I.Valid(accumulator.Value())
      && TokensOK() && (isStream ==> !truncated)
    }

    /** There is one first token at most, and firstToken is its time. */
    ghost predicate TokensOK()
      reads this
    {
      firstToken == FirstOf(tokens) && |tokens| <= 1 && (sawToken <==> tokens != [])
    }

    /** The observer of a stream stands where the reads so far have brought it. */
    ghost predicate Following()
      reads this, parser, accumulator
    {
      && Streaming() == StreamAfter(fed, decode, T.MAX_TRACED_BODY_SIZE, MAX_LINE)
      && now == if fed == [] then None else Some(fed[|fed| - 1].at)
    }

    ghost function Watching(): Watch
      reads this, accumulator
    {
      Watch(seen, accumulator.Value(), sawToken, tokens, reported)
    }

    ghost function Streaming(): Stream
      reads this, parser, accumulator
    {
      Stream(parser.State(), Watching())
    }

    ghost function Collecting(): Collected
      reads this
    {
      Collected(buf, truncated)
    }

    constructor (isStream: bool, opaque_: bool, decode: Decoder)
      requires DecoderOK(decode)
      ensures Valid() && InStep(Streaming()) && Following() && fed == [] && fresh(parser) && fresh(accumulator)
      ensures this.isStream == isStream && this.opaque_ == opaque_ && this.decode == decode
      ensures Watching() == NewWatch(T.MAX_TRACED_BODY_SIZE) && Collecting() == Collected("", false)
      ensures parser.State() == SSE.INITIAL && results == [] && first == None && last == None && now == None
    {
      this.isStream, this.opaque_, this.decode := isStream, opaque_, decode;
      parser := new SSE.Parser(MAX_LINE);
      accumulator := new StreamAccumulator(T.MAX_TRACED_BODY_SIZE);
      buf, truncated, first, last, now := "", false, None, None, None;
      sawToken, firstToken, tokens, reported, results, seen, fed := false, None, [], [], [], [], [];
    }

    method ObserveStreamPayload(e: SSE.Event, at: int)
      requires I.Valid(accumulator.Value()) && TokensOK()
      modifies this`sawToken, this`firstToken, this`tokens, this`reported, this`seen, accumulator
      ensures Watching() == Watched(old(Watching()), e, decode, at)
      ensures I.Valid(accumulator.Value()) && TokensOK()
    {
      if e.dropped > 0 {
        accumulator.MarkLimited();
      }
      var outputs := accumulator.Observe(decode(e.payload), e.terminal, at);
      CheckFirstToken(outputs, e, at);
      reported := reported + outputs;
      seen := seen + [e];
    }

    method CheckFirstToken(outputs: seq<Output>, e: SSE.Event, at: int)
      requires TokensOK()
      modifies this`sawToken, this`firstToken, this`tokens
      ensures TokensOK()
      ensures var first := !old(sawToken) && Shows(accumulator.Value(), outputs, e);
              && sawToken == (old(sawToken) || first)
              && tokens == (if first then old(tokens) + [at] else old(tokens))
    {
      if sawToken || e.dropped > 0 || accumulator.limited || accumulator.decodeFailed {
        return;
      }
      var held := accumulator.ContainsToken();
      if held {
        assert AccHasToken(accumulator.Value());
        MarkFirstToken(at);
        return;
      }
      var i := 0;
      while i < |outputs|
        invariant 0 <= i <= |outputs|
        invariant forall j :: 0 <= j < i ==> !OutputHasToken(outputs[j])
      {
        if OutputHasToken(outputs[i]) {
          MarkFirstToken(at);
          return;
        }
        i := i + 1;
      }
    }

    method MarkFirstToken(at: int)
      modifies this`sawToken, this`firstToken, this`tokens
      ensures sawToken && tokens == (if old(sawToken) then old(tokens) else old(tokens) + [at])
      ensures firstToken == (if old(sawToken) then old(firstToken) else Some(at))
    {
      if sawToken {
        return;
      }
      sawToken := true;
      firstToken := Some(at);
      tokens := tokens + [at];
    }

    /** The callbacks of the events that the parser has passed on since the last read. */
    method ObserveNewEvents(at: int)
      requires I.Valid(accumulator.Value()) && seen <= parser.events && TokensOK()
      modifies this`sawToken, this`firstToken, this`tokens, this`reported, this`seen, accumulator
      ensures Watching() == WatchedAll(old(Watching()), parser.events[|old(seen)|..], decode, at)
      ensures I.Valid(accumulator.Value()) && seen == parser.events && TokensOK()
    {
      var rest := parser.events[|seen|..];
      ghost var goal := WatchedAll(Watching(), rest, decode, at);
      SeenNow(Watching(), parser.events, decode, at);
      while rest != []
        invariant I.Valid(accumulator.Value()) && TokensOK()
        invariant WatchedAll(Watching(), rest, decode, at) == goal
        decreases |rest|
      {
        ObserveNext(rest, at, goal);
        rest := rest[1..];
      }
    }

    method ObserveNext(rest: seq<SSE.Event>, at: int, ghost goal: Watch)
      requires I.Valid(accumulator.Value()) && TokensOK() && rest != []
      requires WatchedAll(Watching(), rest, decode, at) == goal
      modifies this`sawToken, this`firstToken, this`tokens, this`reported, this`seen, accumulator
      ensures I.Valid(accumulator.Value()) && TokensOK()
      ensures WatchedAll(Watching(), rest[1..], decode, at) == goal
    {
      ObserveStreamPayload(rest[0], at);
    }

    /** A read that brought bytes. */
    method Read(p: Bytes, t: int)
      requires Valid() && InStep(Streaming())
      modifies this`first, this`last, this`now, this`buf, this`truncated, this`sawToken, this`firstToken, this`tokens
      modifies this`reported, this`seen, this`fed, parser, accumulator
      ensures Valid() && InStep(Streaming())
      ensures now == Some(t) && last == Some(t) && first == (if old(first).None? then Some(t) else old(first))
      ensures if opaque_ then Streaming() == old(Streaming()) && Collecting() == old(Collecting())
              else if isStream then
                && Streaming() == ReadOf(old(Streaming()), p, decode, t, MAX_LINE)
                && fed == old(fed) + [Chunk(p, t)] && (old(Following()) ==> Following())
              else
                && Collecting() == Collect(old(Collecting()), p)
                && tokens == if old(first).None? && old(tokens) == [] then old(tokens) + [t] else old(tokens)
    {
      ghost var before := Streaming();
      var isFirst := NoteTimes(t);
      if isStream && !opaque_ {
        ReadStream(p, t, before);
      } else {
        ReadOther(p, t, isFirst);
      }
    }

    method NoteTimes(t: int) returns (isFirst: bool)
      modifies this`first, this`last, this`now
      ensures isFirst == old(first).None?
      ensures now == Some(t) && last == Some(t) && first == (if old(first).None? then Some(t) else old(first))
      ensures Streaming() == old(Streaming()) && Collecting() == old(Collecting()) && Valid() == old(Valid())
    {
      isFirst := first.None?;
      if isFirst {
        first := Some(t);
      }
      last := Some(t);
      now := Some(t);
    }

    /** The rest of a read of a stream, and what observe does for it. */
    method ReadStream(p: Bytes, t: int, ghost before: Stream)
      requires Valid() && InStep(before) && before == Streaming() && now == Some(t)
      modifies this`sawToken, this`firstToken, this`tokens, this`reported, this`seen, this`fed, parser, accumulator
      ensures Valid() && InStep(Streaming())
      ensures Streaming() == ReadOf(before, p, decode, t, MAX_LINE) && fed == old(fed) + [Chunk(p, t)]
      ensures before == StreamAfter(old(fed), decode, T.MAX_TRACED_BODY_SIZE, MAX_LINE) ==> Following()
    {
      FeedStream(p, t, before);
      ghost var chunks := fed;
      fed := fed + [Chunk(p, t)];
      if before == StreamAfter(chunks, decode, T.MAX_TRACED_BODY_SIZE, MAX_LINE) {
        ReadFollows(before, Streaming(), chunks, Chunk(p, t), decode, T.MAX_TRACED_BODY_SIZE, MAX_LINE);
      }
    }

    /** The rest of a read of any other body; the first byte of one that is not encoded is its first token. */
    method ReadOther(p: Bytes, t: int, isFirst: bool)
      requires Valid() && InStep(Streaming()) && (opaque_ || !isStream)
      modifies this`buf, this`truncated, this`sawToken, this`firstToken, this`tokens
      ensures Valid() && InStep(Streaming())
      ensures opaque_ ==> Streaming() == old(Streaming()) && Collecting() == old(Collecting())
      ensures !opaque_ ==>
                && Collecting() == Collect(old(Collecting()), p)
                && tokens == if isFirst && old(tokens) == [] then old(tokens) + [t] else old(tokens)
    {
      if isFirst && !opaque_ {
        MarkFirstToken(t);
      }
      if opaque_ || truncated {
        return;
      }
      if |buf| + |p| > MAX_COLLECTED_BODY_SIZE {
        truncated := true;
        buf := "";
        return;
      }
      buf := buf + p;
    }

    /** What observe does for a stream: the parser is fed, and the events it completes are observed. */
    method FeedStream(p: Bytes, t: int, ghost before: Stream)
      requires Valid() && InStep(before) && before == Streaming()
      modifies this`sawToken, this`firstToken, this`tokens, this`reported, this`seen, parser, accumulator
      ensures Valid() && InStep(Streaming())
      ensures Streaming() == ReadOf(before, p, decode, t, MAX_LINE)
    {
      RunLogged(before.parser, p, MAX_LINE);
      ReadInStep(before, p, decode, t, MAX_LINE);
      parser.Feed(p);
      ObserveNewEvents(t);
    }

    /** A read that found the end of the body. */
    method ReadEOF(t: int)
      requires Valid() && InStep(Streaming())
      modifies this, parser, accumulator
      ensures Valid()
      ensures first == old(first) && last == old(last) && fed == old(fed)
      ensures old(results) != [] ==> results == old(results)
      ensures old(results) == [] && isStream ==>
                var s := EndOf(old(Streaming()), decode, old(now).GetOr(t), MAX_LINE);
                results == [StreamResult(s, first, last, NoError, t)]
      ensures old(results) == [] && isStream && old(Following()) ==>
                var s := StreamAtEnd(fed, true, decode, T.MAX_TRACED_BODY_SIZE, t, MAX_LINE);
                results == [StreamResult(s, first, last, NoError, t)]
      ensures old(results) == [] && !isStream ==>
                results == [PlainResult(old(Collecting()), first, last, old(tokens), NoError)]
    {
      if isStream {
        FinishParser(now.GetOr(t), Streaming());
      }
      Done(NoError, t);
    }

    method FinishParser(at: int, ghost before: Stream)
      requires Valid() && InStep(before) && before == Streaming()
      modifies this`sawToken, this`firstToken, this`tokens, this`reported, this`seen, parser, accumulator
      ensures Valid() && Streaming() == EndOf(before, decode, at, MAX_LINE)
    {
      FinishLogged(before.parser, MAX_LINE);
      parser.Finish();
      ObserveNewEvents(at);
    }

    /** Also what Close and a failed read do; only the first call has a result. */
    method Done(err: BodyError, t: int)
      requires Valid()
      modifies this`results, accumulator
      ensures Valid()
      ensures old(results) != [] ==> results == old(results) && accumulator.Value() == old(accumulator.Value())
      ensures old(results) == [] && isStream ==> results == [StreamResult(old(Streaming()), first, last, err, t)]
      ensures old(results) == [] && isStream && old(Following()) ==>
                var s := StreamAtEnd(fed, false, decode, T.MAX_TRACED_BODY_SIZE, t, MAX_LINE);
                results == [StreamResult(s, first, last, err, t)]
      ensures old(results) == [] && !isStream ==> results == [PlainResult(Collecting(), first, last, tokens, err)]
    {
      if results != [] {
        return;
      }
      var r := BodyResult(first, last, buf, 0, 0, truncated, err, false, firstToken, [], false);
      if isStream {
        var outputs := Conclude(t);
        r := r.(streamOutputs := outputs, streamLimited := accumulator.limited,
          payload := parser.last, chunks := parser.chunks, dropped := parser.dropped,
          sawDone := parser.sawDone || accumulator.terminalObserved);
      }
      results := [r];
    }

    method Conclude(t: int) returns (outputs: seq<Output>)
      requires I.Valid(accumulator.Value())
      modifies accumulator
      ensures (accumulator.Value(), outputs) == Concluded(old(accumulator.Value()), parser.dropped, t)
      ensures I.Valid(accumulator.Value())
    {
      if parser.dropped > 0 {
        accumulator.MarkLimited();
      }
      outputs := accumulator.Finish(t);
    }
  }

  lemma ReadFollows(s: Stream, r: Stream, chunks: seq<Chunk>, chunk: Chunk, decode: Decoder, limit: nat, maxLine: nat)
    requires s == StreamAfter(chunks, decode, limit, maxLine) && r == ReadOf(s, chunk.bytes, decode, chunk.at, maxLine)
    ensures r == StreamAfter(chunks + [chunk], decode, limit, maxLine)
  {
    assert (chunks + [chunk])[..|chunks|] == chunks;
  }

  /** Once the events that are new have been watched, all have been seen. */
  lemma SeenNow(w: Watch, events: seq<SSE.Event>, decode: Decoder, at: int)
    requires w.seen <= events
    ensures WatchedAll(w, events[|w.seen|..], decode, at).seen == events
  {
    SeenAll(w, events[|w.seen|..], decode, at);
    assert w.seen + events[|w.seen|..] == events;
  }
}

/**
 * The outcome of a request, in internal/proxy/state.go, and what it stands for: a stream is
 * reported a success only if it was seen to end, with everything up to its end decoded.
 */
module Outcomes {
  import opened Bytes
  import opened StreamEvents
  import opened StreamParts
  import opened StreamAssembly
  import opened StreamInvariants
  import opened StreamSafety
  import opened StreamRuns
  import opened StreamStatus
  import opened Observation
  import opened BodyObservers

  datatype Outcome =
    | Success | UpstreamError | IncompleteOutcome | ClientCancel | ShutdownOutcome | ObservationLimited | InternalError

  datatype CancelCause = ForcedClose | OtherCause

  /** What the request state knows when it ends, apart from the body. */
  datatype Facts = Facts(
    panicked: bool, upstreamFailed: bool, statusCode: int, isEventStream: bool, encoding: Bytes,
    cause: Option<CancelCause>, writeFailed: bool)

  predicate SuccessfulStatus(statusCode: int) {
    200 <= statusCode < 300
  }

  function OutcomeOf(s: Facts, res: BodyResult, parsed: Option<StreamEvents.Response>): Outcome {
    var cancelled := s.cause.Some? || res.err == Interrupted || s.writeFailed;
    var terminated := res.sawDone || (parsed.Some? && parsed.value.terminal);
    if s.panicked then InternalError
    else if s.cause == Some(ForcedClose) then ShutdownOutcome
    else if s.cause.Some? then ClientCancel
    else if s.upstreamFailed then UpstreamError
    else if res.err == Broken then UpstreamError
    else if s.statusCode >= 400 then UpstreamError
    else if parsed.Some? && parsed.value.failed then UpstreamError
    else if parsed.Some? && parsed.value.incomplete then IncompleteOutcome
    else if cancelled then ClientCancel
    else if s.encoding != "" || res.truncated || res.streamLimited || res.dropped > 0 then ObservationLimited
    else if s.isEventStream && SuccessfulStatus(s.statusCode) && !terminated then IncompleteOutcome
    else Success
  }

  function StreamOutputOutcome(statusCode: int, o: Output, fallback: Outcome): Outcome {
    if statusCode >= 400 || o.failed then UpstreamError
    else if o.protocolIncomplete then IncompleteOutcome
    else if o.observationLimited then ObservationLimited
    else if !o.complete && fallback == Success then IncompleteOutcome
    else if !o.complete then fallback
    else Success
  }

  // ---------- What each outcome means ----------

  /** The payload can be read as a response. */
  predicate IsResponse(last: StreamEvents.Payload) {
    last.JSON? && last.responseOK
  }

  predicate HasNestedError(e: Envelope) {
    e.response.Some? && e.response.value.error.Some?
  }

  predicate SaysFailed(last: StreamEvents.Payload) {
    && IsResponse(last)
    && var e := last.envelope;
       e.error.Some? || HasNestedError(e) || e.eventType == "response.failed" || e.eventType == "error"
  }

  predicate SaysIncomplete(last: StreamEvents.Payload) {
    IsResponse(last) && last.envelope.eventType == "response.incomplete"
  }

  /** Well, failed or incomplete: a response that is over. */
  predicate SaysOver(last: StreamEvents.Payload) {
    || SaysFailed(last) || SaysIncomplete(last)
    || (IsResponse(last) && (last.envelope.stop || last.envelope.eventType == "response.completed"))
  }

  /** Nothing on this side: no panic, and the context of the request was not cancelled. */
  predicate Undisturbed(f: Facts) {
    !f.panicked && f.cause.None?
  }

  /** The upstream failed, in its connection, its body, its status or its answer. */
  predicate UpstreamTrouble(f: Facts, res: BodyResult, last: StreamEvents.Payload) {
    f.upstreamFailed || res.err == Broken || f.statusCode >= 400 || SaysFailed(last)
  }

  /** The client did not get all of it. */
  predicate CutOff(f: Facts, res: BodyResult) {
    res.err == Interrupted || f.writeFailed
  }

  /** Not everything was seen. */
  predicate PartlySeen(f: Facts, res: BodyResult) {
    f.encoding != "" || res.truncated || res.streamLimited || res.dropped > 0
  }

  /** A successful event stream that was not seen to end. */
  predicate LeftOpen(f: Facts, res: BodyResult, last: StreamEvents.Payload) {
    f.isEventStream && 200 <= f.statusCode < 300 && !res.sawDone && !SaysOver(last)
  }

  /** The facts under which a request has the outcome. */
  predicate Deserves(f: Facts, res: BodyResult, last: StreamEvents.Payload, out: Outcome) {
    match out
    case InternalError => f.panicked
    case ShutdownOutcome => !f.panicked && f.cause == Some(ForcedClose)
    case ClientCancel =>
      && !f.panicked
      && if f.cause.Some? then f.cause != Some(ForcedClose)
         else !UpstreamTrouble(f, res, last) && !SaysIncomplete(last) && CutOff(f, res)
    case UpstreamError => Undisturbed(f) && UpstreamTrouble(f, res, last)
    case IncompleteOutcome =>
      && Undisturbed(f) && !UpstreamTrouble(f, res, last)
      && (SaysIncomplete(last) || (!CutOff(f, res) && !PartlySeen(f, res) && LeftOpen(f, res, last)))
    case ObservationLimited =>
      && Undisturbed(f) && !UpstreamTrouble(f, res, last) && !SaysIncomplete(last)
      && !CutOff(f, res) && PartlySeen(f, res)
    case Success =>
      && !f.panicked && f.cause.None? && !f.upstreamFailed && res.err == NoError && !f.writeFailed
      && f.statusCode < 400 && f.encoding == "" && !res.truncated && !res.streamLimited && res.dropped == 0
      && !SaysFailed(last) && !SaysIncomplete(last)
      && (f.isEventStream && 200 <= f.statusCode < 300 ==> res.sawDone || SaysOver(last))
  }

  /** A request deserves exactly one outcome. */
  lemma OneOutcome(f: Facts, res: BodyResult, last: StreamEvents.Payload, out: Outcome)
    ensures Deserves(f, res, last, out) <==> out == OutcomeOf(f, res, ParseResponse(last))
  {
  }

  /** The facts under which an output has the outcome, in a request whose own outcome is the fallback. */
  predicate OutputDeserves(statusCode: int, o: Output, fallback: Outcome, out: Outcome) {
    if statusCode >= 400 || o.failed then out == UpstreamError
    else if o.protocolIncomplete then out == IncompleteOutcome
    else if o.observationLimited then out == ObservationLimited
    else if o.complete then out == Success
    else out == if fallback == Success then IncompleteOutcome else fallback
  }

  // ---------- The request state, updated in place ----------

  /** The outputs, each with the outcome that it deserves. */
  function OutputSpans(statusCode: int, outputs: seq<Output>, fallback: Outcome): (spans: seq<(Output, Outcome)>)
    ensures |spans| == |outputs|
    ensures forall i :: 0 <= i < |outputs| ==>
              spans[i].0 == outputs[i] && OutputDeserves(statusCode, outputs[i], fallback, spans[i].1)
  {
    if outputs == [] then []
    else [(outputs[0], StreamOutputOutcome(statusCode, outputs[0], fallback))]
         + OutputSpans(statusCode, outputs[1..], fallback)
  }

  const NO_BODY := BodyResult(None, None, "", 0, 0, false, NoError, false, None, [], false)

  class RequestState {
    const decode: Decoder
    var ended: bool
    var statusCode: int
    var isEventStream: bool
    var encoding: Bytes
    var body: Option<BodyResult>
    var panicRecorded: bool
    var upstreamFailed: bool
    var firstTokenDone: bool
    var firstTokenSpans: seq<int>
    var outputSpans: seq<(Output, Outcome)>
    var outcomes: seq<Outcome>

    constructor (decode: Decoder)
      ensures this.decode == decode && !ended && statusCode == 0 && body.None? && !panicRecorded && !upstreamFailed
      ensures !firstTokenDone && firstTokenSpans == [] && outputSpans == [] && outcomes == []
    {
      this.decode := decode;
      ended, statusCode, isEventStream, encoding, body := false, 0, false, "", None;
      panicRecorded, upstreamFailed, firstTokenDone := false, false, false;
      firstTokenSpans, outputSpans, outcomes := [], [], [];
    }

    function FactsAt(cause: Option<CancelCause>, writeFailed: bool): Facts
      reads this
    {
      Facts(panicRecorded, upstreamFailed, statusCode, isEventStream, encoding, cause, writeFailed)
    }

    /** Only the first call counts, and only for a successful response. */
    method RecordTimeToFirstToken(at: int)
      modifies this`firstTokenDone, this`firstTokenSpans
      ensures firstTokenDone
      ensures firstTokenSpans == if old(firstTokenDone) || !SuccessfulStatus(statusCode) then old(firstTokenSpans)
           else old(firstTokenSpans) + [at]
    {
      if firstTokenDone {
        return;
      }
      firstTokenDone := true;
      if !SuccessfulStatus(statusCode) {
        return;
      }
      firstTokenSpans := firstTokenSpans + [at];
    }

    /** An output that is given out while the stream goes on. */
    method RecordStreamOutput(o: Output)
      modifies this`outputSpans
      ensures outputSpans == if ended then old(outputSpans)
           else old(outputSpans) + OutputSpans(statusCode, [o], Success)
    {
      if ended {
        return;
      }
      assert [o][1..] == [];
      EmitStreamOutput(o, StreamOutputOutcome(statusCode, o, Success));
    }

    method EmitStreamOutput(o: Output, out: Outcome)
      modifies this`outputSpans
      ensures outputSpans == old(outputSpans) + [(o, out)]
    {
      outputSpans := outputSpans + [(o, out)];
    }

    /** The span of the request ends once, with one outcome, after the outputs that were still open. */
    method End(cause: Option<CancelCause>, writeFailed: bool)
      modifies this`ended, this`outputSpans, this`outcomes
      ensures ended
      ensures old(ended) ==> outputSpans == old(outputSpans) && outcomes == old(outcomes)
      ensures !old(ended) ==>
                var res, n := body.GetOr(NO_BODY), |old(outcomes)|;
                && |outcomes| == n + 1 && outcomes[..n] == old(outcomes)
                && Deserves(old(FactsAt(cause, writeFailed)), res, decode(res.payload), outcomes[n])
                && outputSpans == old(outputSpans) + OutputSpans(statusCode, res.streamOutputs, outcomes[n])
    {
      if ended {
        return;
      }
      ended := true;
      var res := body.GetOr(NO_BODY);
      var parsed := ParseResponse(decode(res.payload));
      var out := OutcomeOf(FactsAt(cause, writeFailed), res, parsed);
      OneOutcome(FactsAt(cause, writeFailed), res, decode(res.payload), out);
      EmitStreamOutputs(res.streamOutputs, out);
      outcomes := outcomes + [out];
    }

    /** The loop over the outputs that were still open. */
    method EmitStreamOutputs(outputs: seq<Output>, out: Outcome)
      modifies this`outputSpans
      ensures outputSpans == old(outputSpans) + OutputSpans(statusCode, outputs, out)
    {
      var rest := outputs;
      ghost var goal := outputSpans + OutputSpans(statusCode, rest, out);
      while rest != []
        invariant outputSpans + OutputSpans(statusCode, rest, out) == goal
        decreases |rest|
      {
        Associative(outputSpans, [(rest[0], StreamOutputOutcome(statusCode, rest[0], out))],
          OutputSpans(statusCode, rest[1..], out));
        EmitStreamOutput(rest[0], StreamOutputOutcome(statusCode, rest[0], out));
        rest := rest[1..];
      }
      assert outputSpans + [] == outputSpans;
    }
  }

  // ---------- What success stands for ----------

  lemma ConcludedKeeps(a: Acc, dropped: nat, t: int)
    requires Valid(a)
    ensures var b := Concluded(a, dropped, t).0;
            && b.limited == (a.limited || dropped > 0) && b.decodeFailed == a.decodeFailed
            && b.terminalObserved == a.terminalObserved
  {
    var c := if dropped > 0 then a.(limited := true) else a;
    if !c.closed {
      FinishAllSafe(c.(closed := true), t, Verdict(false, false, ""));
    }
  }

  /** What the state of a request needs for success to say anything about the stream. */
  predicate ReportsStream(s: Facts) {
    s.isEventStream && s.encoding == "" && SuccessfulStatus(s.statusCode)
  }

  lemma SuccessNeeds(f: Facts, res: BodyResult, parsed: Option<StreamEvents.Response>)
    requires ReportsStream(f) && OutcomeOf(f, res, parsed) == Success
    ensures !res.streamLimited && res.dropped == 0
    ensures res.sawDone || (parsed.Some? && parsed.value.terminal && !parsed.value.failed && !parsed.value.incomplete)
  {
  }

  lemma SuccessOfWatch(s: Stream, decode: Decoder, first: Option<int>, last: Option<int>, err: BodyError, t: int,
          f: Facts)
    requires InStep(s) && WatchOK(s.watch, decode) && ReportsStream(f)
    requires var res := StreamResult(s, first, last, err, t);
             OutcomeOf(f, res, ParseResponse(decode(res.payload))) == Success
    ensures s.parser.event.dropped == 0 && !Gap(s.watch.acc) && s.watch.acc.terminalObserved
    ensures exists n :: CleanEnd(s.parser.event.events, n, decode)
  {
    ConcludedKeeps(s.watch.acc, s.parser.event.dropped, t);
    var res := StreamResult(s, first, last, err, t);
    SuccessNeeds(f, res, ParseResponse(decode(res.payload)));
    assert res.sawDone || EndsWell(decode(LastData(s.watch.seen)));
  }

  /** The request itself gives no reason against success, and the last payload of its stream says none. */
  predicate NothingAgainst(f: Facts, err: BodyError, last: StreamEvents.Payload) {
    && Undisturbed(f) && !f.upstreamFailed && !f.writeFailed && err == NoError
    && !SaysFailed(last) && !SaysIncomplete(last)
  }

  /**
   * Whatever bytes were read, and however they were cut: a stream with a successful status and no
   * encoding is a success if and only if nothing speaks against it, no line was dropped, no cap was
   * hit, and of the events that the parser makes of all those bytes some event ends the stream with
   * every payload up to it decoded.
   */
  lemma SuccessExactly(chunks: seq<Chunk>, whole: bool, decode: Decoder, limit: nat, maxLine: nat,
        first: Option<int>, last: Option<int>, err: BodyError, t: int, f: Facts)
    requires DecoderOK(decode) && ReportsStream(f)
    ensures var s := StreamAtEnd(chunks, whole, decode, limit, t, maxLine);
            var res := StreamResult(s, first, last, err, t);
            var parsed := ParserAtEnd(chunks, whole, maxLine).event;
            Deserves(f, res, decode(res.payload), Success)
            <==> NothingAgainst(f, err, decode(LastData(parsed.events)))
                 && parsed.dropped == 0 && !Gap(s.watch.acc) && exists n :: CleanEnd(parsed.events, n, decode)
  {
    var s := StreamAtEnd(chunks, whole, decode, limit, t, maxLine);
    var res := StreamResult(s, first, last, err, t);
    OneOutcome(f, res, decode(res.payload), Success);
    StreamAtEndAccounts(chunks, whole, decode, limit, t, maxLine);
    NewWatchOK(limit, decode);
    WatchRunOK(NewWatch(limit), ArrivalsAtEnd(chunks, whole, t, maxLine), decode);
    if Deserves(f, res, decode(res.payload), Success) {
      SuccessIsSound(chunks, whole, decode, limit, maxLine, first, last, err, t, f);
    } else {
      ConcludedKeeps(s.watch.acc, s.parser.event.dropped, t);
    }
  }

  /** A body that is no stream is a success exactly if nothing went wrong and all of it was seen. */
  lemma PlainSuccessExactly(c: Collected, first: Option<int>, last: Option<int>, tokens: seq<int>, err: BodyError,
        f: Facts, decode: Decoder)
    requires !f.isEventStream
    ensures var res := PlainResult(c, first, last, tokens, err);
            Deserves(f, res, decode(res.payload), Success)
            <==> NothingAgainst(f, err, decode(c.buf)) && f.statusCode < 400 && f.encoding == "" && !c.truncated
  {
  }

  /**
   * Whatever bytes were read, and however they were cut: a stream with a successful status and no
   * encoding is reported a success only if, of the events that the parser makes of all those bytes,
   * some event ends the stream with every payload up to it decoded, and no line was dropped.
   */
  lemma SuccessIsSound(chunks: seq<Chunk>, whole: bool, decode: Decoder, limit: nat, maxLine: nat,
        first: Option<int>, last: Option<int>, err: BodyError, t: int, f: Facts)
    requires DecoderOK(decode) && ReportsStream(f)
    requires var res := StreamResult(StreamAtEnd(chunks, whole, decode, limit, t, maxLine), first, last, err, t);
             OutcomeOf(f, res, ParseResponse(decode(res.payload))) == Success
    ensures var parsed := ParserAtEnd(chunks, whole, maxLine).event;
            parsed.dropped == 0 && exists n :: CleanEnd(parsed.events, n, decode)
    ensures !Gap(StreamAtEnd(chunks, whole, decode, limit, t, maxLine).watch.acc)
  {
    var s := StreamAtEnd(chunks, whole, decode, limit, t, maxLine);
    StreamAtEndAccounts(chunks, whole, decode, limit, t, maxLine);
    NewWatchOK(limit, decode);
    WatchRunOK(NewWatch(limit), ArrivalsAtEnd(chunks, whole, t, maxLine), decode);
    SuccessOfWatch(s, decode, first, last, err, t, f);
  }

  /**
   * The first token of the result is the time of the read that completed the first event, of those
   * that the parser makes of all bytes, after which a token shows with nothing missed; there is
   * none if there is no such event.
   */
  lemma FirstTokenIsSound(chunks: seq<Chunk>, whole: bool, decode: Decoder, limit: nat, maxLine: nat,
        first: Option<int>, last: Option<int>, err: BodyError, t: int)
    ensures EventsOf(ArrivalsAtEnd(chunks, whole, t, maxLine)) == ParserAtEnd(chunks, whole, maxLine).event.events
    ensures var arrivals, a := ArrivalsAtEnd(chunks, whole, t, maxLine), NewAcc(limit);
            var s := StreamAtEnd(chunks, whole, decode, limit, t, maxLine);
            var token := StreamResult(s, first, last, err, t).firstToken;
            if token.None? then forall i :: 0 <= i < |arrivals| ==> !ShowsAt(a, arrivals, decode, i)
            else exists i :: 0 <= i < |arrivals| && FirstShownAt(a, arrivals, decode, i)
                               && token.value == arrivals[i].at
  {
    StreamAtEndAccounts(chunks, whole, decode, limit, t, maxLine);
    FirstTokenReported(NewWatch(limit), ArrivalsAtEnd(chunks, whole, t, maxLine), decode);
  }

  // ---------- Outputs ----------

  /** An output is a success exactly when it is complete and nothing speaks against it. */
  lemma OutputSuccessExactly(statusCode: int, o: Output, fallback: Outcome)
    ensures StreamOutputOutcome(statusCode, o, fallback) == Success
       <==> statusCode < 400 && o.complete && !o.failed && !o.protocolIncomplete && !o.observationLimited
  {
  }

  /** After a decode failure no Chat or native output is a success any more. */
  lemma NoFalseSuccess(a: Acc, inputs: seq<Input>, i: nat, statusCode: int, fallback: Outcome)
    requires Valid(a) && a.decodeFailed && i < |Run(a, inputs).1|
         && OutputGroup(Run(a, inputs).1[i]).source != Responses
    ensures StreamOutputOutcome(statusCode, Run(a, inputs).1[i], fallback) != Success
  {
    MarksStick(a, inputs);
    assert Marked(Run(a, inputs).1[i], a.limited, a.decodeFailed);
  }

  /** Nor is any output of the Responses protocol, unless a program item slips through. */
  lemma NoFalseSuccessAtAll(a: Acc, inputs: seq<Input>, i: nat, statusCode: int, fallback: Outcome)
    requires Valid(a) && NoneCompleted(a) && a.decodeFailed && i < |Run(a, inputs).1|
    requires forall k :: 0 <= k < |inputs| ==> !InputSlips(inputs[k])
    ensures StreamOutputOutcome(statusCode, Run(a, inputs).1[i], fallback) != Success
  {
    DecodeFailureAdmitted(a, inputs);
  }

  /** With a successful status, admitting every limit is the same as claiming no success. */
  lemma HonestMeansNoSuccess(outputs: seq<Output>, limit: nat, statusCode: int, fallback: Outcome)
    requires OutputsOK(outputs, limit) && statusCode < 400
    ensures Honest(outputs) <==>
              forall i :: 0 <= i < |outputs| ==> StreamOutputOutcome(statusCode, outputs[i], fallback) != Success
  {
    forall i | 0 <= i < |outputs|
      ensures StreamOutputOutcome(statusCode, outputs[i], fallback) == Success
         <==> outputs[i].complete && !outputs[i].observationLimited
    {
      assert OutputOK(outputs[i], limit);
      OutputSuccessExactly(statusCode, outputs[i], fallback);
    }
  }

  // ---------- One span for each output group ----------

  /** An input, the accumulator marked as limited first if need be. */
  function MarkedFirst(mark: bool, i: Input): seq<Input> {
    (if mark then [MarkLimited] else []) + [i]
  }

  lemma MarkThenInput(a: Acc, i: Input)
    ensures Run(a, [MarkLimited, i]) == Receive(a.(limited := true), i)
  {
    var b := a.(limited := true);
    assert [MarkLimited, i][1..] == [i];
    assert Receive(a, MarkLimited) == (b, []);
    OneInput(b, i);
    NothingFirst(Run(b, [i]).1);
  }

  lemma NothingFirst(o: seq<Output>)
    ensures [] + o == o
  {
  }

  lemma MarkedInput(a: Acc, mark: bool, i: Input)
    ensures Run(a, MarkedFirst(mark, i)) == Receive(if mark then a.(limited := true) else a, i)
  {
    if mark {
      assert MarkedFirst(mark, i) == [MarkLimited, i];
      MarkThenInput(a, i);
    } else {
      assert MarkedFirst(mark, i) == [i];
      OneInput(a, i);
    }
  }

  function InputOf(e: Arrival, decode: Decoder): Input {
    Input.Payload(decode(e.event.payload), e.event.terminal, e.at)
  }

  /** What the accumulator is given for the arrivals. */
  function InputsOf(arrivals: seq<Arrival>, decode: Decoder): seq<Input> {
    if arrivals == [] then []
    else MarkedFirst(arrivals[0].event.dropped > 0, InputOf(arrivals[0], decode)) + InputsOf(arrivals[1..], decode)
  }

  lemma ArrivalInputs(a: Acc, e: Arrival, decode: Decoder)
    ensures Run(a, MarkedFirst(e.event.dropped > 0, InputOf(e, decode))) == Observed(a, e.event, decode, e.at)
  {
    MarkedInput(a, e.event.dropped > 0, InputOf(e, decode));
  }

  /** Watching a stream gives the accumulator one run of inputs, and reports its outputs. */
  lemma {:induction false} WatchIsRun(w: Watch, arrivals: seq<Arrival>, decode: Decoder)
    ensures WatchRun(w, arrivals, decode).acc == Run(w.acc, InputsOf(arrivals, decode)).0
    ensures WatchRun(w, arrivals, decode).reported == w.reported + Run(w.acc, InputsOf(arrivals, decode)).1
    decreases |arrivals|
  {
    if arrivals == [] {
      assert w.reported + [] == w.reported;
    } else {
      var e, rest := arrivals[0], arrivals[1..];
      ArrivalInputs(w.acc, e, decode);
      RunAppend(w.acc, MarkedFirst(e.event.dropped > 0, InputOf(e, decode)), InputsOf(rest, decode));
      WatchIsRun(Watched(w, e.event, decode, e.at), rest, decode);
      var (b, o) := Observed(w.acc, e.event, decode, e.at);
      Associative(w.reported, o, Run(b, InputsOf(rest, decode)).1);
    }
  }

  lemma ConcludedIsRun(a: Acc, dropped: nat, t: int)
    ensures Run(a, MarkedFirst(dropped > 0, Input.End(t))) == Concluded(a, dropped, t)
  {
    MarkedInput(a, dropped > 0, Input.End(t));
  }

  lemma DistinctOfWatch(limit: nat, arrivals: seq<Arrival>, decode: Decoder, dropped: nat, t: int)
    ensures var w := WatchRun(NewWatch(limit), arrivals, decode);
            DistinctGroups(w.reported + Concluded(w.acc, dropped, t).1)
  {
    var w := WatchRun(NewWatch(limit), arrivals, decode);
    WatchIsRun(NewWatch(limit), arrivals, decode);
    ConcludedIsRun(w.acc, dropped, t);
    RunAppend(NewAcc(limit), InputsOf(arrivals, decode), MarkedFirst(dropped > 0, Input.End(t)));
    NothingFirst(Run(NewAcc(limit), InputsOf(arrivals, decode)).1);
    OneOutputPerGroup(limit, InputsOf(arrivals, decode) + MarkedFirst(dropped > 0, Input.End(t)));
  }

  predicate DistinctGroups(outputs: seq<Output>) {
    && (forall i, j :: 0 <= i < j < |outputs| ==> OutputGroup(outputs[i]) != OutputGroup(outputs[j]))
    && |outputs| <= MAX_STREAM_OUTPUT_STATES
  }

  /** The outputs reported while a body is read and those in its result are of distinct groups: 64 at most. */
  lemma OneSpanPerGroup(chunks: seq<Chunk>, whole: bool, decode: Decoder, limit: nat, maxLine: nat,
        first: Option<int>, last: Option<int>, err: BodyError, t: int)
    ensures var s := StreamAtEnd(chunks, whole, decode, limit, t, maxLine);
            DistinctGroups(s.watch.reported + StreamResult(s, first, last, err, t).streamOutputs)
  {
    StreamAtEndAccounts(chunks, whole, decode, limit, t, maxLine);
    DistinctOfWatch(limit, ArrivalsAtEnd(chunks, whole, t, maxLine), decode,
      ParserAtEnd(chunks, whole, maxLine).event.dropped, t);
  }
}

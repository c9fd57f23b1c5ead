# Verification of llama-otel-proxy

A model in Dafny 4.11 of the parts of llama-otel-proxy that keep state, and proofs about every
input, every run and every interleaving. `dafny verify dfyconfig.toml` checks all of it.

The proxy forwards requests to an inference server and traces them. Four of its components compose:

* **The event-stream parser** (`ServerSentEvents`, `EventStreamLines`, `EventStreamMeaning`). `Step` is
  the parser reduced to one byte at a time; class `Parser` is the buffered parser of the source, proved
  to compute it; `EventStreamMeaning` reads the same streams with no regard to the parser.
* **The stream accumulator** (`LimitedText`, `Ordering` and the `Stream*` modules). It assembles the
  interleaved deltas of the Chat, native and Responses protocols into outputs. `StreamAssembly` says
  what each action, event and run does as functions on values; class `StreamAccumulator` branches on
  the fields of an event as the source does, ranges over its maps in any order, and is proved to compute
  those functions. `StreamMeaning`, `StreamReports`, `StreamEndings` and `StreamClosing` say what events
  mean and what is given out by type strings and fields alone, and prove that this is what happens;
  `StreamTokens` and `ShellCommands` do so for tokens and commands. The others prove what every run keeps.
* **Admission, drain and sessions** (`Admission`, `Progress`, `Handlers`, `Sessions`, `SessionRuns`,
  `SessionEnds`, `Lifecycle`). Admission is a state machine of atomic steps: the mutex, the loads of the
  two flags, the compare-and-swap, the snapshot and each cancellation are steps of their own, and a run
  is any sequence of steps of any threads; `Progress` shows that threads get on. `Lifecycle` composes it
  with the sessions and with shutdownServer.
* **Observation** (`Observation`, `BodyObservers`, `Outcomes`) and **the body splitter**
  (`BodySplitting`, `BodyGrouping`, `BodyMeaning`). The observation glue joins the first two components
  and decides the first token and the outcome of a request; the splitter flattens a JSON tree within caps.

A Go string of bytes is a Dafny string with one char for each byte; integers are unbounded; a time is
an integer. The order in which Go ranges over a map is left open. The bound on a line is a parameter
of the parser; the other limits are the constants of the source.

Three properties that one might expect do not hold of the code. The code is modelled as it is; for each
there is a failing input and the exact condition under which the property holds:

* A bounded text is a prefix of what was appended if and only if no fragment after the cut begins with a
  rune that still fits (`LimitedText.PrefixExactly`, `LimitedText.NotAlwaysPrefix`).
* Lines are read as they were written, whatever terminates them, if and only if no empty LF line directly
  follows a CR line, which is read as one CRLF (`EventStreamLines.ReadAsWritten`); two events can become
  one that way (`EventStreamLines.TerminatorsMatter`).
* After a decode failure a complete output of the Responses protocol may fail to admit it. This happens
  for a `program` item reported done while its status is in_progress or queued, exactly when its tool
  part is open and no cap was hit (`StreamStatus.ProgramSlips`,
  `StreamStatus.ProgramSlipsFromTheStart`), and for nothing else (`StreamStatus.DecodeFailureAdmitted`).

## Model

| member | source | states |
|---|---|---|
| ServerSentEvents.Parser.constructor | internal/serversentevents/parser.go:13-28 | A new parser has read nothing, holds nothing and has called nobody |
| ServerSentEvents.Parser.Feed | internal/serversentevents/parser.go:30-75 | From every valid state, feeding a buffer is running the per-byte automaton over it: the same fields and the same OnEvent calls with the same drop count at each call |
| ServerSentEvents.Parser.SkipLF | internal/serversentevents/parser.go:31-38 | A line feed at the start of a buffer completes a carriage return that ended the last one, and only that |
| ServerSentEvents.Parser.KeepLine | internal/serversentevents/parser.go:50-60 | A line that does not end in the buffer is carried over, or dropped once it exceeds the bound |
| ServerSentEvents.Parser.TakeLine | internal/serversentevents/parser.go:61-74 | A line that ends in the buffer is processed together with what was carried over, or dropped |
| ServerSentEvents.Parser.Finish | internal/serversentevents/parser.go:77-86 | The end of the body processes what was carried over unless it is being dropped, and dispatches the event that was collected |
| ServerSentEvents.Parser.SplitLine | internal/serversentevents/parser.go:89-105 | The line up to the first terminator of either kind, and whether a line feed may still belong to it |
| ServerSentEvents.IndexEOL | internal/serversentevents/parser.go:107-120 | The first line feed or carriage return, or none if there is neither |
| ServerSentEvents.Parser.DropLine | internal/serversentevents/parser.go:122-127 | A dropped line is counted and takes the data collected for its event with it |
| ServerSentEvents.Parser.ProcessLine | internal/serversentevents/parser.go:129-158 | The effect of one line on the event being collected, with the byte order mark, the one leading space and the bound of a joined event |
| ServerSentEvents.Parser.DispatchEvent | internal/serversentevents/parser.go:160-183 | An event is passed on unless it was dropped or is empty; [DONE] is terminal and is no chunk |
| ServerSentEvents.RunAppend | internal/serversentevents/parser.go:30-75 | Running over two byte strings in turn is running over their concatenation |
| ServerSentEvents.RunPlainLine | internal/serversentevents/parser.go:50-60 | Bytes without a terminator only extend the carried line, or have it dropped once |
| ServerSentEvents.PendingIrrelevant | internal/serversentevents/parser.go:31-38 | A pending line feed that does not come changes nothing |
| ServerSentEvents.RunValid | internal/serversentevents/parser.go:50-60 | Every run keeps the carried line within the bound, and nothing is carried while a line is dropped |
| ServerSentEvents.ChunkInvariance | internal/serversentevents/parser.go:30-75 | For every state and every way of cutting a byte string into buffers, the state and the OnEvent calls are those of feeding it whole, CRLF cut between buffers and over-long lines included |
| EventStreamLines.RunLines | internal/serversentevents/parser.go:30-158 | The automaton over encoded lines is reading, line by line, the lines that a reader can tell apart, whatever ended them |
| EventStreamLines.TerminatorInvariance | internal/serversentevents/parser.go:89-120 | Any two choices of LF, CRLF or CR per line that keep the lines apart give the same events and the same drop count |
| EventStreamLines.ReadAsWritten | internal/serversentevents/parser.go:89-120 | From a state between two lines, lines with any choice of terminators are read as they were written if and only if no empty LF line directly follows a CR line |
| EventStreamLines.TerminatorsMatter | internal/serversentevents/parser.go:89-120 | For any two payloads that fit alone and joined: written as two events they come back as two when all lines end in LF, and as one event of two lines when the first ends in CR |
| EventStreamLines.MarkAfterLongLine | internal/serversentevents/parser.go:63-66 | A first line that is too long does not count as seen: the byte order mark of the next one is still stripped |
| EventStreamLines.ReadPayload | internal/serversentevents/parser.go:129-183 | One payload encoded as data lines and a blank line comes back as one event exactly if it fits the bound; otherwise it is dropped |
| EventStreamLines.RoundTrip | internal/serversentevents/parser.go:129-183 | Parsing encoded payloads gives back exactly those that fit, in order, and counts a drop exactly if one does not fit (sections 9.2.5 and 9.2.6 of the WHATWG HTML Living Standard) |
| EventStreamMeaning.StreamMeaning | internal/serversentevents/parser.go:30-183 | For every byte string and every bound: the events, the drops and the chunks of the whole stream are those of an independent reading, in which lines that are neither empty nor begin with data: say nothing, one space after data: is skipped, an event is the joined values of the lines up to a blank one, and one that is too long or loses a line is dropped and counted |
| EventStreamMeaning.NoiseIgnored | internal/serversentevents/parser.go:138-140 | A line within the bound that is not empty and no data line, put anywhere after the first line that is not too long, changes neither the events nor the drop count nor anything else that the parser tells |
| EventStreamMeaning.AnyEncodingRead | internal/serversentevents/parser.go:138-158 | Payloads come back in order from any text that encodes them, with or without the space after data:, with any other lines between the data lines and with any terminators; exactly those whose lines fit are delivered |
| EventStreamMeaning.EncodedLines | internal/serversentevents/parser.go:89-120 | Written with terminators that keep them apart, the lines of a text are those that were written |
| LimitedText.LimitedStreamText.Append | internal/genai/genai.go:580-599 | Appending in place is appending the sanitised fragment up to the last rune boundary within the limit |
| LimitedText.LimitedStreamText.Set | internal/genai/genai.go:601-605 | Setting forgets what was there, the truncation included |
| LimitedText.CutValid | internal/genai/genai.go:592-598 | Cutting valid text at the last rune start within the room leaves two valid halves and loses at most three bytes of the room |
| LimitedText.BoundedText | internal/genai/genai.go:580-605 | Since the last set, truncated holds exactly if the sanitised fragments exceed the limit; until then the value is their concatenation; it is always valid UTF-8 (section 4 of RFC 3629) within the limit, and once cut it is a rune-aligned prefix of at least limit - 3 bytes, followed by rune-aligned pieces of the fragments after the one that was cut |
| LimitedText.PrefixExactly | internal/genai/genai.go:580-599 | The bounded text is a prefix of all that was appended if and only if no fragment that comes after the cut begins with a rune that still fits |
| LimitedText.NotAlwaysPrefix | internal/genai/genai.go:580-599 | A value for which the bounded text is not a prefix of what was appended |
| LimitedText.SanitisedValid | internal/genai/genai.go:581 | Sanitised text is valid UTF-8 |
| LimitedText.SanitisedIdentity | internal/genai/genai.go:581 | Sanitising valid text changes nothing |
| LimitedText.TruncateBounded | internal/genai/genai.go:459-470 | An error message is valid text of at most 256 bytes and an ellipsis, cut at a rune boundary |
| LimitedText.BoundedTraceBody | internal/proxy/attrs.go:441-450 | A traced body is the whole body, or a prefix of it that is valid if the body is and at most 3 bytes short of the bound |
| Ordering.SortIsSortOf | internal/genai/genai.go:930-954 | Whatever the order in which a map is ranged over, sorting its keys by a strict total order gives one sequence |
| Ordering.SortUnique | internal/genai/genai.go:930-954 | There is one sorted sequence of a set |
| StreamFinishing.KeyRankTotal | internal/genai/genai.go:930-954 | The comparator of finishMatching tells all keys apart |
| StreamFinishing.PartRankTotal | internal/genai/genai.go:1614-1627 | The comparator of finishResponseOutputKind tells the live parts of one output apart: they differ in contentIndex only |
| StreamFinishing.OutputRankTotal | internal/genai/genai.go:976-981 | The comparator of finishAll tells the live Responses outputs apart |
| StreamFinishing.FinishKeysClosed | internal/genai/genai.go:906-921 | Finishing keys one by one removes them all, records those that hold data, and gives their outputs in the order of the keys |
| StreamFinishing.FinishOutputKindClosed | internal/genai/genai.go:1607-1638 | Finishing an output of one kind removes all of its parts and merges those that hold data, in their order |
| StreamAccumulators.RangeOver | internal/genai/genai.go:924-929 | Ranging over a map in any order visits each key that matches once |
| StreamAccumulators.StreamAccumulator.constructor | internal/genai/genai.go:765-777 | A new accumulator is empty and its limit is at least 1 |
| StreamAccumulators.StreamAccumulator.ContainsToken | internal/genai/genai.go:787-797 | Some live part holds a token |
| StreamAccumulators.StreamAccumulator.MarkLimited | internal/genai/genai.go:803-807 | Only the limited mark changes |
| StreamAccumulators.StreamAccumulator.StateOf | internal/genai/genai.go:878-904 | A part is had unless its key or group has finished or a cap is hit, which marks the accumulator limited; a new part takes one unit of the budget and registers its group |
| StreamAccumulators.StreamAccumulator.Update | internal/genai/genai.go:1367-1410 | A part that can be had is edited; if it cannot, only the limited mark may change |
| StreamAccumulators.StreamAccumulator.ObserveShellCommand | internal/genai/genai.go:1464-1489 | A shell command of a tool part is set or appended to; a new one takes a unit of the budget or marks the accumulator limited |
| StreamAccumulators.StreamAccumulator.SetChoiceFinishReason | internal/genai/genai.go:992-998 | Every live part of the choice gets the reason, whatever the order of the loop over the map, and no other part changes |
| StreamAccumulators.StreamAccumulator.MarkResponseOutputStatus | internal/genai/genai.go:1591-1597 | Every live part of the output gets the status, whatever the order of the loop over the map, and no other part changes |
| StreamAccumulators.StreamAccumulator.FinishKey | internal/genai/genai.go:906-921 | The part is gone; if it held data its key and group are recorded as finished and its output carries the accumulator's marks |
| StreamAccumulators.StreamAccumulator.FinishMatching | internal/genai/genai.go:923-959 | The matching parts are finished in the one sorted order of their keys |
| StreamAccumulators.StreamAccumulator.FinishAll | internal/genai/genai.go:961-990 | All Responses outputs are finished in order of output and kind, then all other parts in the order of their keys |
| StreamAccumulators.StreamAccumulator.FinishChoice | internal/genai/genai.go:1000-1013 | A choice finishes once, within the cap; its parts take the reason and are finished complete |
| StreamAccumulators.StreamAccumulator.ObserveChat | internal/genai/genai.go:1097-1179 | The choices are observed in order, those that have finished excepted; the accumulator and the outputs are those of the actions that the choices ask for |
| StreamAccumulators.StreamAccumulator.ObserveChoice | internal/genai/genai.go:1099-1176 | One choice: its delta, then its text, then its finish reason, which ends it or is only noted when the event failed |
| StreamAccumulators.StreamAccumulator.ObserveDelta | internal/genai/genai.go:1105-1161 | Reasoning, content and refusal, the tool calls in order, then the older function call, each told to its own part |
| StreamAccumulators.StreamAccumulator.ObserveToolCall | internal/genai/genai.go:1128-1147 | The part of a tool call is had even if the call says nothing; a call that says something adds to name and arguments and replaces id and type |
| StreamAccumulators.StreamAccumulator.ObserveNative | internal/genai/genai.go:1181-1214 | An event without type and choices tells its reasoning and content, and a stop ends the one choice or is only noted when the event failed |
| StreamAccumulators.StreamAccumulator.ObserveResponses | internal/genai/genai.go:1216-1365 | A typed event does what its type asks for, then what a tool lifecycle status asks for, then settles the items of a final response; what each type asks for is StreamMeaning.TypeMeans, StreamEndings.ItemGivenOut, StreamEndings.ReportHeard and StreamClosing.FinalResponseGivesOut |
| StreamAccumulators.StreamAccumulator.ObserveKind | internal/genai/genai.go:1225-1339 | Each type of the switch does its own: appends a delta, settles a text or the arguments of a tool, adds or settles a part or an item, or ends an output; any other type does nothing |
| StreamAccumulators.StreamAccumulator.ObserveLifecycle | internal/genai/genai.go:1341-1356 | A lifecycle status changes a tool part that is live and creates none |
| StreamAccumulators.StreamAccumulator.ObserveFinalItems | internal/genai/genai.go:1358-1363 | The items of a final response are settled in order, each at its position |
| StreamAccumulators.StreamAccumulator.ObserveResponsePart | internal/genai/genai.go:1491-1528 | A part is reasoning or response by its type; text and refusal are set if it is definitive and appended if not, and an empty part that is not definitive is not even had |
| StreamAccumulators.StreamAccumulator.ObserveResponseSummaryPart | internal/genai/genai.go:1530-1546 | A summary part is had even if it is empty, and takes a status only if it is definitive |
| StreamAccumulators.StreamAccumulator.ObserveResponseItem | internal/genai/genai.go:1548-1589 | A message tells its contents, a reasoning item its contents and summaries, a tool item its ids and arguments; a definitive program item is marked completed |
| StreamAccumulators.StreamAccumulator.ObserveItemDone | internal/genai/genai.go:1312-1320 | An output ends: its item is settled first, its parts take the status of the item, and that status is the verdict |
| StreamAccumulators.StreamAccumulator.FinishResponseOutputKind | internal/genai/genai.go:1607-1638 | The parts of one output and kind are finished by content index, then by summary index, and merged |
| StreamAccumulators.StreamAccumulator.MergeResponseOutputs | internal/genai/genai.go:1640-1685 | The merged output joins the texts of the parts, starts with the first of them, and combines their verdicts and marks |
| StreamAccumulators.StreamAccumulator.Close | internal/genai/genai.go:813-820 | The end of the stream closes the accumulator, marks it limited if a payload had failed to decode, and finishes everything |
| StreamAccumulators.StreamAccumulator.Observe | internal/genai/genai.go:809-868 | One payload, decoded, undecodable or terminal, does what the specification of the accumulator says and keeps its invariant |
| StreamAccumulators.StreamAccumulator.Finish | internal/genai/genai.go:870-876 | The end of the body finishes everything as incomplete, once |
| StreamRuns.ReceiveSteps | internal/genai/genai.go:809-876 | Every call of Observe, MarkLimited and Finish keeps the invariant, emits outputs of new groups only and emits nothing after the end |
| StreamRuns.OneOutputPerGroup | internal/genai/genai.go:565-573 | Over every run there is at most one output for each group, at most 64 in all, each of bounded valid text, never both complete and failed and never complete and incomplete |
| StreamRuns.MarksStick | internal/genai/genai.go:917-919 | Once a cap was hit every output of a later call says so; once a payload failed to decode no Chat or native output of a later call is complete without saying so |
| StreamRuns.MarksStickWithinCall | internal/genai/genai.go:917-919 | The same within a call: a cap hit by some of its actions marks the outputs of those that follow |
| StreamRuns.MarksStickToTheEnd | internal/genai/genai.go:841-868 | And of an event that ends the stream: what hitting a cap in it leaves to the end is marked too |
| StreamRuns.SilentAfterEnd | internal/genai/genai.go:810-812 | After the end nothing becomes live and nothing is emitted, whatever is received |
| StreamRuns.CapsHold | internal/genai/genai.go:541-545 | Live parts, their shell commands and finished keys stay within createdParts and 128; groups and finished choices stay within 64; no live part belongs to a finished group; every live text is within its limit |
| StreamSafety.MergeVerdictMeaning | internal/genai/genai.go:1651-1681 | A merged output is complete exactly if all its parts are, and failed exactly if one is |
| StreamSafety.MergeOutputsOK | internal/genai/genai.go:1640-1685 | A merged output belongs to the group of its parts, is of bounded valid text, and is never both complete and failed |
| StreamSafety.FinishAllSafe | internal/genai/genai.go:961-990 | The end of a stream leaves nothing live, and keeps the caps and the uniqueness of groups |
| StreamParts.TokenSurvivesFinish | internal/genai/genai.go:654-726 | A part that holds a token holds data, and becomes an output that holds a token |
| StreamOrder.UpdateWithRoom | internal/genai/genai.go:878-904 | With room for the part and for its shell command, an update of either kind changes that part and touches nothing else |
| StreamOrder.InterleavingIndependence | internal/genai/genai.go:1097-1179 | While the caps are not reached, two sequences of updates that make the same changes to each part, texts and shell commands, each in its order, leave the same accumulator |
| StreamOrder.ArrivalOrderIrrelevant | internal/genai/genai.go:1097-1489 | The same for events that only add to parts, shell commands included, each with its own time: however they are interleaved, the accumulator is the same |
| StreamTexts.MergedText | internal/genai/genai.go:1640-1663 | Each text of a merged output is that of its parts joined in their order, within the limit |
| StreamTexts.JoinedInOrder | internal/genai/genai.go:1607-1638 | An output of several parts is those that hold data joined by content index and then by summary index, whatever the order of arrival |
| StreamContent.TextsAreWhatWasSaid | internal/genai/genai.go:1097-1335 | While the caps are not reached, the reasoning, content, refusal and arguments of every part, and the tool name of every Chat part, are what they were followed by exactly what the events said to that part, in their order and within the limit of that text, for all three protocols; what an event says is read off its type string and its fields, added items and parts included |
| StreamContent.FreshTexts | internal/genai/genai.go:1097-1335 | From the start of a stream each of these texts is all that was said to its part if that fits, and is marked truncated exactly if it does not |
| StreamContent.CommandsAreWhatWasSaid | internal/genai/genai.go:1464-1489 | While the caps are not reached, every shell command of every part is what it was followed by exactly the command deltas addressed to it, in their order and within the limit |
| StreamContent.GivenOutAsSaid | internal/genai/genai.go:1607-1663 | A text of a merged output is, unless the output is marked truncated, all that was said to its parts, joined by content index and then by summary index, whatever the order in which it was said |
| StreamContent.DoneSettlesText | internal/genai/genai.go:1248-1307 | Whatever was said before, one call of Observe with an event whose type ends a text, for each of the types that do, sets that text of that part to the value of the event, within the limit |
| StreamMeaning.PartsAreWhatWasHeard | internal/genai/genai.go:1097-1339 | While the caps are not reached, events that only tell leave every part, in all its fields, what it was with each event heard in turn, and give nothing out: which part, which text, appended or set, ids, types, names, start and status, by the type string and the fields of each event, for all three protocols |
| StreamMeaning.TypeMeans | internal/genai/genai.go:1225-1339 | For every type of the switch but the one that ends an output, what the event does to each part is read off the type string |
| StreamContent.NotHeard | internal/genai/genai.go:878-904 | What is told to a part that is not live has no effect once its output was given out, and none but the admission of a limit once 128 parts or 64 outputs are reached |
| StreamContent.CommandNotKept | internal/genai/genai.go:1472-1480 | A new command of a live tool is not kept once 128 parts and commands are reached; the tool is named and the limit admitted |
| StreamEndings.ItemGivenOut | internal/genai/genai.go:1312-1320 | An item that is done gives out its output: for each kind of it whose parts have something to report once the item has been heard in full, one output, which is what those parts come to with the status of the item; nothing else is given out and no other part changes |
| StreamEndings.OutputGivenOutAsIs | internal/genai/genai.go:1321-1323 | Without an item the output is given out complete, as it is |
| StreamEndings.ReportHeard | internal/genai/genai.go:1341-1356 | A type that reports a tool call of any type as completed, failed or incomplete changes the live part of that call in type, name, ids, status and message, and nothing else |
| StreamEndings.FinishedChoiceGivenOut | internal/genai/genai.go:1000-1013 | A choice that finishes gives out each of its parts that has something to report once the choice has been heard, complete and with the reason; no other part changes |
| StreamEndings.ChoicesApart | internal/genai/genai.go:1099-1103 | An event of several choices does what as many events of one choice do, numbered by their positions if they have no index |
| StreamClosing.MarkerGivesOut | internal/genai/genai.go:813-820 | The end marker gives out everything that has something to report as complete, each group once |
| StreamClosing.EndGivesOut | internal/genai/genai.go:870-876 | The end of the bytes gives out everything that has something to report as incomplete, each group once |
| StreamClosing.FinalResponseGivesOut | internal/genai/genai.go:1358-1363 | A final response gives out everything, once each of its items has been heard in full by the output at its position: as complete, failed or incomplete, as its type says |
| StreamClosing.ErrorGivesOut | internal/genai/genai.go:1758-1779 | An error event gives out everything as failed, with the first message that says what went wrong |
| StreamClosing.NativeFailureGivesOut | internal/genai/genai.go:1181-1214 | So does an error with no type, once the native parts have heard the event |
| StreamClosing.NativeStopGivesOut | internal/genai/genai.go:1202-1212 | A native answer that stops gives out everything as complete, the native parts with the reason for the stop |
| StreamClosing.MisfitGivesOut | internal/genai/genai.go:1781-1808 | JSON that is no event tells no part anything; if it still reports the end, everything is given out as limited, with the verdict of its type |
| StreamClosing.AnswerGivenOut | internal/genai/genai.go:809-876 | From a new accumulator, while the caps are not reached: after any events that only tell and the end marker or the end of the bytes, there is exactly one output for each group to which something was said, it is what the parts of that group were told, and there is no other |
| StreamReports.MergedReports | internal/genai/genai.go:1640-1685 | A merged output reports its parts: place and indexes, the earliest start, texts joined in order, of names and ids the last, complete if all are, failed if one is, the last message of a failure, and every mark |
| StreamReports.PartReports | internal/genai/genai.go:691-726 | So does the output of a part that is one of its own |
| StreamReports.SpeakingMeans | internal/genai/genai.go:640-652 | A part holds data exactly if one of the texts that its kind speaks by is not empty, or it is a tool with a command |
| StreamTokens.PartTokens | internal/genai/genai.go:654-669 | A part shows a token exactly if one of the texts that its kind speaks by is not empty, the type of a mere function excepted |
| StreamTokens.OutputTokens | internal/genai/genai.go:671-689 | So does an output, or if it admits that something was cut |
| StreamTokens.TokenIffSaid | internal/genai/genai.go:654-669 | Over every stream of deltas within the caps: a part of a message or of reasoning shows a token exactly if something was said to one of its texts |
| StreamTokens.FirstTellingShows | internal/genai/genai.go:684-689 | The first thing that a Responses event tells of a tool shows a token unless nothing but the mere type of a function is known |
| StreamTokens.FirstCallShows | internal/genai/genai.go:684-689 | So does the first delta of a Chat tool call |
| ShellCommands.CommandsRoundTrip | internal/genai/genai.go:728-751 | A reader of JSON strings and lists gets back exactly the commands that were put together, in their order, whatever they contain |
| ShellCommands.AssembledByIndex | internal/genai/genai.go:728-751 | The arguments of a tool call with commands are these by increasing index, within the limit, marked exactly if something was cut |
| StreamStatus.ReceiveHonest | internal/genai/genai.go:691-726 | After a decode failure a call gives no complete output without an admitted limit, unless its event is the excepted one, and leaves no live part marked completed |
| StreamStatus.DecodeFailureAdmitted | internal/genai/genai.go:906-921 | After a decode failure no output of any protocol is complete without admitting the limit, over every run in which no program item is reported done while in progress or queued |
| StreamStatus.NoneCompletedReachable | internal/genai/genai.go:1720-1725 | In no reachable state is a live part marked completed |
| StreamStatus.ProgramSlips | internal/genai/genai.go:1582-1584 | The exception is exact: after a decode failure, the call of Observe with such an event gives a complete output with no limit admitted if and only if, after the choices of the event, no cap was hit and the tool part of the item can be had and is neither failed nor incomplete |
| StreamStatus.ProgramSlipsFromTheStart | internal/genai/genai.go:1582-1584 | It happens, for every such event without choices: a run of one undecodable payload and the event, from a new accumulator |
| Sessions.SessionRegistry.constructor | internal/proxy/session.go:57-67 | A new registry is open and empty, with a positive idle time |
| Sessions.SessionRegistry.Acquire | internal/proxy/session.go:69-106 | A closed registry gives nothing; otherwise the session of the id is found, or created after an eviction, and used |
| Sessions.SessionRegistry.Release | internal/proxy/session.go:108-123 | The session found under the id loses a reference and is armed when it has none left |
| Sessions.SessionRegistry.ArmLocked | internal/proxy/session.go:125-131 | Only the timer of the session changes |
| Sessions.SessionRegistry.Expire | internal/proxy/session.go:133-145 | A callback ends the session exactly if it has no reference and has been idle long enough; otherwise it arms it again or does nothing (SessionEnds.IdleEndsExactly) |
| Sessions.SessionRegistry.EvictLocked | internal/proxy/session.go:147-163 | While the table is full, the idle sessions that were used least recently end, until there is room or no session is idle |
| Sessions.SessionRegistry.OldestIdle | internal/proxy/session.go:149-157 | The loop finds an idle session that none was used before, if there is an idle one |
| Sessions.SessionRegistry.FinishLocked | internal/proxy/session.go:165-183 | The session leaves the table and its span ends at its last use with its count, models and agent |
| Sessions.SessionRegistry.CloseAll | internal/proxy/session.go:185-192 | The registry is closed and every session ends, in whatever order |
| SessionRuns.StepInv | internal/proxy/session.go:69-192 | Every acquire, release, close and callback, at any time and for any id, keeps the account of sessions right |
| SessionRuns.ReleaseFindsItsSession | internal/proxy/session.go:108-115 | Until the registry is closed, a release decrements the very session that its acquire incremented although it looks it up by id, and touches no other |
| SessionRuns.LiveSessionsTracked | internal/proxy/session.go:69-131 | A live session has as many references as holders, a timer exactly if it has none, the time of its latest use, its count, and the models and agent of its requests |
| SessionRuns.RefsAreOutstanding | internal/proxy/session.go:92 | The references of all sessions together are the releases outstanding |
| SessionRuns.IdleEndsJustified | internal/proxy/session.go:133-145 | A session ends as idle only if nobody holds it and its latest use is at least the idle time ago, however stale the callback |
| SessionEnds.IdleEndsExactly | internal/proxy/session.go:133-145 | Over every run: a callback for the id of a live session that nobody holds and whose latest use is at least the idle time ago removes it and ends its span once, at that use, with its count, its models and its agent; any other callback ends nothing |
| SessionEnds.AcquiresExactly | internal/proxy/session.go:69-106 | Over every run, until the close: a request shares the live session of its id or starts a new one; only a full table makes others end, and no more of them than needed |
| SessionEnds.ReleaseEndsNone | internal/proxy/session.go:108-123 | Over every run: a release ends no session and makes none go |
| SessionEnds.ModelsMeaning | internal/proxy/session.go:40-45 | The models that a span ends with are distinct and named by its requests, and every model named is among them unless there are 32 already |
| SessionEnds.AgentMeaning | internal/proxy/session.go:98-100 | Its agent is the first that a request named |
| SessionRuns.EvictsLeastRecent | internal/proxy/session.go:147-163 | Eviction happens only when the table is full, and no idle session that is kept was used before one that is evicted |
| SessionRuns.LatestIsMaximum | internal/proxy/session.go:94-96 | The time of the latest use is the maximum of the starts and releases so far |
| SessionRuns.EverySpanEnds | internal/proxy/session.go:185-192 | Once the registry is closed, every session span ever started has ended exactly once, at the latest use of its session, with the count, models and agent of its requests |
| SessionRuns.ClosedForGood | internal/proxy/session.go:72-74 | After the close nothing starts, ends or changes any more |
| Handlers.Handler.AdmitRequest | internal/proxy/proxy.go:391-416 | A request is admitted exactly if nothing drains or closes and its class has a free slot; otherwise its context is cancelled |
| Handlers.Handler.Release | internal/proxy/proxy.go:416-425 | The request is no longer active, the last one closes the idle channel, the slot is free and the context cancelled |
| Handlers.Handler.BeginDrain | internal/proxy/proxy.go:82-86 | The drain flag is set |
| Handlers.Handler.BeginForcedClose | internal/proxy/proxy.go:88-101 | The first call sets the flag and cancels exactly what is active, with the cause of the forced close unless there is an earlier one; later calls change nothing |
| Handlers.AdmittedAlone | internal/proxy/proxy.go:391-416 | What admitRequest does is what its atomic steps do when not interrupted |
| Handlers.ReleasedAlone | internal/proxy/proxy.go:416-425 | What the release closure does is what its atomic steps do when not interrupted |
| Handlers.DrainedAlone | internal/proxy/proxy.go:82-86 | What BeginDrain does is what its atomic steps do when not interrupted |
| Handlers.ClosedAlone | internal/proxy/proxy.go:88-101 | What BeginForcedClose does is what its atomic steps do when not interrupted, in whatever order it cancels |
| Admission.NextInv | internal/proxy/proxy.go:82-118 | Every atomic step of every thread, in every interleaving, keeps the invariant of mutex, active set, idle channel, slots, flags and causes |
| Admission.NoneEscapes | internal/proxy/proxy.go:88-101 | Once the call of BeginForcedClose that won the swap has returned, every request that was admitted is released or cancelled, under every interleaving |
| Admission.NoneAdmittedLater | internal/proxy/proxy.go:399-403 | From then on no request becomes active, whatever the threads do |
| Admission.FirstCauseStays | internal/proxy/proxy.go:98-100 | The first cause of a cancellation stays, so that a client that went away keeps its cause |
| Admission.ChannelsCloseOnce | internal/proxy/proxy.go:411-421 | No idle channel is closed twice, and the current one is open exactly while a request is active |
| Admission.NoLostWakeup | internal/proxy/proxy.go:103-118 | A waiter blocked on an open channel waits for the current one, and something is active; one whose channel was closed looks again (Progress.WokenLooks) and gets its nil (Progress.WaitIdleReturns) |
| Progress.WokenLooks | internal/proxy/proxy.go:112-114 | A waiter blocked on a channel that was closed looks again on its next step, whatever the others do |
| Progress.OpenChannelWaits | internal/proxy/proxy.go:112-116 | One blocked on an open channel stays there, until its context ends and it returns the error |
| Progress.LookedAlone | internal/proxy/proxy.go:104-112 | One turn of the loop, not interrupted, returns nil if nothing is active and else waits for the current channel |
| Progress.WaitIdleReturns | internal/proxy/proxy.go:103-118 | In every reachable state in which nothing is active: a caller of WaitIdle that has not returned, blocked or not, has returned nil after at most six of its own steps if nobody else takes the mutex, and nothing else has changed |
| Progress.OwnStepGetsOn | internal/proxy/proxy.go:82-118 | In every reachable state, each step of a thread that neither has ended nor is kept by the mutex or an open channel brings it nearer to its end |
| Progress.NoDeadlock | internal/proxy/proxy.go:82-118 | From every reachable state all threads can come to their ends, with no timeout and no client going away |
| Progress.CancelledForAReason | internal/proxy/proxy.go:88-101 | Over every run: a request that has not ended is cancelled only by a client that went away or by the forced close |
| Admission.SlotsBounded | internal/proxy/proxy.go:404-425 | Each class stays within its capacity, and giving a slot back never blocks |
| Admission.NilMeansDrained | internal/proxy/proxy.go:103-118 | A nil result of a WaitIdle that looked after the drain began means that nothing is active or on its way in |
| Admission.DrainedForEver | internal/proxy/proxy.go:399-403 | ... and that this stays so for ever |
| Admission.WaiterAfterDrain | internal/proxy/proxy.go:103-118 | A waiter that looks after BeginDrain has returned looks at a draining proxy |
| Lifecycle.NextInv | internal/proxy/proxy.go:198-254 | Every step of requests, sessions and shutdownServer together keeps the invariant of the whole |
| Lifecycle.SessionTableBounded | internal/proxy/session.go:147-163 | The session table never holds more than 1024 sessions or, if that is more, than there are instrumented slots |
| Lifecycle.FlushIsLast | cmd/llamaproxy/main.go:139-171 | When the spans are flushed, the registry is closed for good, every session span has ended exactly once, and either nothing is active and nothing will be admitted, or every active request has been cancelled and no more will be admitted |
| Lifecycle.CallsInOrder | cmd/llamaproxy/main.go:139-171 | shutdownServer makes its calls in order, each when the one before has returned; it closes the connections exactly if Shutdown fails or WaitIdle returns an error, and nothing else moves it |
| Lifecycle.SessionsCloseAfterWaiting | cmd/llamaproxy/main.go:143-164 | Over every run: the sessions are closed only after a call of WaitIdle has returned, nil unless the connections were closed by force |
| Lifecycle.SpansAreFinal | cmd/llamaproxy/main.go:164-170 | Nothing that happens from then on starts or ends a session span |
| BodySplitting.BodySplitter.WalkMessages | internal/proxy/attrs.go:221-254 | The messages are visited in order, each under its role, without its own role field |
| BodySplitting.BodySplitter.Walk | internal/proxy/attrs.go:256-292 | The recursive walk emits the entries of the traversal, in its order, with its depth limit |
| BodySplitting.BodySplitter.Emit | internal/proxy/attrs.go:303-317 | A value is appended to its path within the caps on paths and values, or the limit is reported |
| BodySplitting.BodySplitter.EmitRaw | internal/proxy/attrs.go:294-301 | The compact text of a container is emitted and the limit reported |
| BodySplitting.SplitJSONBodyAttributes | internal/proxy/attrs.go:163-202 | A body is split if it is an object of 1 to 64 acceptable fields that gives at least one attribute; its scalar fields are attributes of their own; the attributes are in the order of their keys, the limit mark comes last |
| BodyGrouping.FieldsInOrder | internal/proxy/attrs.go:272 | The fields of an object are visited in the order of their names, each of them |
| BodyGrouping.SplitterGroups | internal/proxy/attrs.go:303-329 | For every sequence of entries the splitter holds the groups that an uncapped grouping by path gives, cut to the first 256 paths and the first 256 values of each |
| BodyGrouping.TallyMeaning | internal/proxy/attrs.go:303-317 | Uncapped, the group of a path is the sequence of its values in order, and paths stay in the order in which they came |
| BodyGrouping.LimitedExactly | internal/proxy/attrs.go:294-317 | The limit is reported exactly if something was emitted raw, a path was left out or a value was |
| BodyGrouping.VisitLeaves | internal/proxy/attrs.go:256-292 | A traversal that emits nothing raw emits every scalar leaf, as often as it occurs, and nothing else |
| BodyGrouping.NothingLost | internal/proxy/attrs.go:163-202 | A body split with no limit reported has every scalar leaf recorded under its path as often as it occurs, a message's own role excepted, and nothing else |
| BodyMeaning.VisitShows | internal/proxy/attrs.go:256-292 | For every value at every depth: its scalar leaves in order, the fields of an object by their names; a container deeper than eight levels, or an object with a name that is empty, longer than 128 bytes, of other characters or not unique, is shown whole |
| BodyMeaning.RoleMeans | internal/proxy/attrs.go:241-245 | The role of a message is the string of its role field if that could be the name of a field, and else default |
| BodyMeaning.BodyShows | internal/proxy/attrs.go:163-254 | What is emitted for a body is what an independent reading shows of its fields, in their order: messages each under its role, without the role |
| BodyMeaning.SplitsExactly | internal/proxy/attrs.go:163-202 | A body is split exactly if it is an object of 1 to 64 well-named fields of which one is a scalar or something is shown |
| BodyMeaning.RecordedInOrder | internal/proxy/attrs.go:163-202 | Unless a limit is reported every path holds exactly what is shown under it, in order |
| BodyMeaning.LimitReported | internal/proxy/attrs.go:294-317 | A limit is reported exactly if a container is shown whole, there are more than 256 paths, or a kept path has more than 256 values |
| BodyObservers.BodyObserver.constructor | internal/proxy/body.go:55-66 | A new observer has seen nothing and stands where no reads leave it |
| BodyObservers.BodyObserver.ObserveStreamPayload | internal/proxy/body.go:68-83 | An event of the parser goes to the accumulator, marked limited if a line was dropped before, then to the first-token check, then its outputs are reported |
| BodyObservers.BodyObserver.CheckFirstToken | internal/proxy/body.go:85-99 | The token is marked exactly if none was before, nothing was missed, and a live part or an output just given holds one; firstToken stays the time of the one that was marked |
| BodyObservers.BodyObserver.MarkFirstToken | internal/proxy/body.go:101-110 | The callback is made by the first call only |
| BodyObservers.BodyObserver.Read | internal/proxy/body.go:112-126 | A read notes its time, and the first of them the time of the first byte; that of a stream feeds the parser, observes the events it completes and leaves the observer where the reads so far bring it; one of a plain body collects it and marks the first byte as its token; one of an encoded body does neither |
| BodyObservers.BodyObserver.ReadEOF | internal/proxy/body.go:127-134 | The end of the body finishes the parser, observes the last event and gives the result of all reads, with first and last byte and first token |
| BodyObservers.BodyObserver.Done | internal/proxy/body.go:165-191 | There is one result: for a stream what the accumulator concludes after a late drop has been accounted for, with chunks, drops, last payload and done mark; for a plain body what was collected; for both the times of first byte, last byte and first token |
| BodyObservers.CollectedWhole | internal/proxy/body.go:146-163 | However it is cut into reads, a plain body is collected whole or, if it exceeds 1 MiB, not at all |
| Observation.RunLogged | internal/serversentevents/parser.go:160-183 | The parser's last payload and its done mark are those of the events it has passed on |
| Observation.WatchedOK | internal/proxy/body.go:68-83 | Every event keeps the account right: a closed accumulator has seen a terminal event, and without a decode failure everything up to it was decoded |
| Observation.FirstTokenReported | internal/proxy/body.go:85-110 | The first token is reported once at most: at the time of the first event after which a token shows with nothing missed, and not at all if there is none |
| Observation.NoTokenAfterGap | internal/proxy/body.go:85-88 | After a decode failure or a cap no token is reported any more |
| Observation.ReadsJoin | internal/proxy/body.go:146-152 | How the bytes that arrive at one time are cut into reads makes no difference to what is observed and reported |
| Observation.StreamAtEndAccounts | internal/proxy/body.go:112-134 | Whatever was read, in whatever pieces: the accumulator was given, in order and with the time of the read that completed it, each event that the parser makes of all the bytes, and nothing else |
| Outcomes.RequestState.RecordTimeToFirstToken | internal/proxy/state.go:214-228 | The first call alone counts, and only for a successful status |
| Outcomes.RequestState.RecordStreamOutput | internal/proxy/state.go:230-241 | An output is recorded with its outcome unless the request has ended |
| Outcomes.RequestState.End | internal/proxy/state.go:99-121 | The request ends once, after the outputs that were still open, with the one outcome that the facts, the result and the last payload deserve: each of the seven outcomes by its own condition |
| Outcomes.SuccessIsSound | internal/proxy/state.go:159-198 | For every list of reads, however the body ended: a 2xx, unencoded event stream is a success only if, in the events that the parser makes of all the bytes read, no line was dropped and some event ends the stream with every payload up to it decoded; and no cap was hit |
| Outcomes.SuccessExactly | internal/proxy/state.go:159-198 | For every list of reads, however the body ended: an unencoded event stream with a 2xx status deserves success if and only if nothing speaks against it, no line was dropped, no cap was hit, and of the events that the parser makes of all the bytes some event ends the stream with every payload up to it decoded |
| Outcomes.PlainSuccessExactly | internal/proxy/state.go:159-198 | A body that is no stream deserves success if and only if nothing speaks against it, its status is below 400, it has no encoding and it was collected whole |
| Outcomes.OneOutcome | internal/proxy/state.go:159-198 | A request deserves exactly one outcome: internal error exactly on a panic, shutdown exactly on a forced close without one, and the others by their own conditions in the order of the source |
| Outcomes.FirstTokenIsSound | internal/proxy/body.go:85-110 | For every list of reads: the first token of the result is the time of the read that completed the first event after which a token shows with nothing missed, and there is none if there is no such event |
| Outcomes.NoFalseSuccess | internal/proxy/state.go:243-258 | After a decode failure no Chat or native output is a success |
| Outcomes.NoFalseSuccessAtAll | internal/proxy/state.go:243-258 | Nor is one of the Responses protocol, the excepted program item apart |
| Outcomes.HonestMeansNoSuccess | internal/proxy/state.go:243-258 | With a status below 400, outputs claim no success exactly if each complete one admits a limit |
| Outcomes.OneSpanPerGroup | internal/proxy/body.go:68-83 | For every list of reads: the outputs reported while a body is read and those of its result are of distinct groups, 64 at most |

## Left out

- JSON text: payloads arrive decoded and classified (no JSON, JSON that fits no event, or an event, and whether it fits the two smaller types that decodeStreamTerminal and ParseResponse read), and a body arrives as a tree; the envelope fields that several decoders read are taken to agree.
- StreamContent.GivenOutAsSaid: not stated for the arguments of a tool with shell commands, which are written as JSON when the part finishes; what the commands hold is StreamContent.CommandsAreWhatWasSaid.
- The decoder of payloads: it is a parameter, required only to reject the empty text and to give a decoded event the envelope of its payload.
- The item id in streamOutputKey: it is empty in every key that the source makes.
- streamOutputState as an object of its own: a live part is a value that its map entry is replaced by, so that pointer identity is not modelled; its bounded texts are proved in place in LimitedText.LimitedStreamText.
- sessionState as an object of its own: a session is a value whose serial number stands for its identity.
- Accessors of the parser and the accumulator (Chunks, Last, Dropped, SawDone, Limited, ObservationGap, TerminalObserved): they return fields.
- ParseResponse and PeekRequest: only the parts of ParseResponse that decide an outcome are modelled (terminal, incomplete, failed).
- WaitIdle as a method: it blocks, and is modelled as the steps of a thread in Admission.
- Scheduling and fairness: a timeout of WaitIdle may happen at any time, and a thread need never be scheduled; what is proved is that a thread gets on whenever it is, and that no state is a deadlock. That shutdownServer ends is not stated beyond that.
- StreamMeaning.PartsAreWhatWasHeard: stated while the caps are not reached, as are the laws of what is given out; what happens at a cap is StreamContent.NotHeard and StreamContent.CommandNotKept, event by event.
- StreamEndings.ItemGivenOut: stated, like the other laws of what a typed event gives out, for events without choices, which no protocol combines with a type.
- Wall clock and timers: times are inputs, a timer is a flag, and its callback may run at any time for any id.
- ServeHTTP beyond the nesting of admission and session; headers, routing, configuration, the response writer, the buffer pool, RoundTrip and trace contexts.
- OpenTelemetry: spans are entries of lists (ended sessions, output spans, first-token spans, outcomes); attributes and exporters are left out.
- The conversion of split attributes to attribute values, number exactness in jsonNumberFieldValue, and the order of attributes that have the same key.
- jsonObjectFields and json.Compact on text: an object is splittable if its names are acceptable and distinct, and a container carries its compact text.
- headerAttributes, responseModelIdentifier, the phase spans and the error messages of a request: straight-line mappings.
- requestState's mutex and recordPanic, recordUpstreamFailure, responseStarted, bodyDone: they set fields that Outcomes.Facts collects.
- main's path for a server that fails to listen: it closes the sessions and flushes with no drain.

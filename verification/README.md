# WH Repeater: a verified model

The WH Repeater software receives amateur television on four tuners and an analogue input,
carries transport streams from a Raspberry Pi to a PC, chooses what to transmit, and drives
a Pluto transmitter and an RTMP stream. This project models its stateful core in Dafny and
proves what its parts keep over every run, every interleaving and every input.

Where the program changes objects step by step, the model is a class whose methods follow the
same branches and loops. Each method is proved to do what a function of the old state does,
and the laws are proved about that function.

| files | what they model |
|---|---|
| `Prelude.dfy` | bytes, integers, subsequences |
| `WireCodec.dfy` | the byte codec between the media process and its child |
| `MediaProtocol.dfy`, `MediaAgreement.dfy`, `MediaReplay.dfy`, `MediaProcess.dfy` | the parent of a crash-prone media child: cached payloads, agreement, and what a restart replays |
| `BlockingQueue.dfy` | the bounded queue between two threads, as a state machine over every interleaving |
| `Json.dfy`, `JsonParser.dfy`, `JsonGrammar.dfy`, `JsonRoundTrip.dfy`, `JsonUnique.dfy` | the JSON parser: exactly which texts it takes with which meaning, that printed layout trees are among them, and that a text belongs to one tree only |
| `Config.dfy`, `ConfigRoundTrip.dfy`, `ConfigSections.dfy`, `ConfigSmallSections.dfy`, `ConfigLists.dfy`, `ConfigReceivers.dfy`, `ConfigTheorem.dfy`, `ConfigComparison.dfy`, `ConfigMeaning.dfy`, `ConfigLayout.dfy` | the configuration reader and printer, what every member read means and how every one is printed, that the two are inverse, and what comparing printed texts tells |
| `AnnexB.dfy` | H.264 parameter set extraction (section B.1 of ITU-T H.264) |
| `Mqtt.dfy` | MQTT framing (sections 2.2.3 and 3.3 of MQTT 3.1.1) |
| `Morse.dfy` | Morse keying (Annex 1, Part I, section 2 of ITU-R M.1677-1) |
| `TsPackets.dfy`, `TsIngest.dfy`, `TsGatewaySink.dfy`, `PcGatewayInput.dfy`, `TransportBacklog.dfy`, `TsPath.dfy`, `TsCounting.dfy`, `TsDelivery.dfy` | the way of the packets from the tuner queues to the media child: what is kept, counted and delivered |
| `ScanScheduler.dfy`, `ScanRounds.dfy`, `LockWatch.dfy`, `ReceiverLoop.dfy` | scan rotation, the stale-lock watchdog, and the loop that joins them |
| `OutputClock.dfy`, `FallbackMuxer.dfy`, `OutputRun.dfy`, `OutputSubmission.dfy` | the output clock, audio lock and sample-and-hold of submitted video |
| `RtmpTimestamps.dfy` | re-basing of RTMP packet times |
| `PlutoSink.dfy`, `PlutoDelivery.dfy` | the transmitter: the order of its controls, which settings it is told, and which bytes leave |
| `PcGateway.dfy`, `PcSessions.dfy` | source arbitration, access sessions and notices |
| `Synthesiser.dfy` | fractional-N tuning and its register packing |

The outside world enters as parameters: clock readings, lock readings, counters, datagrams,
results of sends, deaths of the child, and which publishes had to be repeated. A run is any
finite sequence of such events, and the run theorems hold for all of them.

## Main results

- Media child: `MediaAgreement.AgreementAlways` (what is cached was told), `MediaReplay.RestartedChildHoldsTheOrders`
  (what a restarted child holds), `MediaAgreement.EndToneCacheExact` (the one cache that can be wrong, and when).
- Configuration: `JsonGrammar.ReadsExactlyTheGrammar`, `ConfigMeaning.ReadingMeans` and `ConfigLayout.PrintedText` say what
  is read and printed; `ConfigTheorem.ConfigRoundTrips` and `ConfigComparison.TextEqualityIsValueEquality` join them.
- Packets: `TsPath.PacketsArriveInOrder` and `TsPath.OneReceiverArrives` (nothing else arrives),
  `TsDelivery.EverythingArrives` (and it does arrive), `TsCounting.CountersTell`.
- Queue between threads: `BlockingQueue.EveryInterleaving`, `BlockingQueue.NeverDeadlocked`, `BlockingQueue.FinishedAppendsAreAccepted`.
- Scan and watchdog: `ScanScheduler.TunesExactlyWhenAllowed`, `ScanScheduler.EachTargetOnce`, `LockWatch.LockedExactly`,
  `ReceiverLoop.StalledLockIsLeft`.
- Output: `OutputRun.EveryWriteKeepsTime`, `OutputRun.ShowsNewestOrLast`, `OutputSubmission.SubmittedFallbackIsShown`,
  `RtmpTimestamps.TimesAlwaysGrow`.
- Transmitter: `PlutoSink.TransmitterIsSafe`, `PlutoDelivery.OrderedWritesAreSent`, `PlutoDelivery.EverySettingIsTold`.
- Arbitration: `PcGateway.FamilyStaysInCharge`, `PcSessions.FarewellTellsTheSession`.
- Formats: `AnnexB.ExtractsTheParameterSets`, `Mqtt.StreamRoundTrip`, `Morse.KeyingIsReadable`, `WireCodec.PayloadEquality`.

## Where the code does less than one would expect

- The end tone's cached payload survives a restart of the media child (src/media_process.cpp:594-597),
  so it can claim a tone the new child was never told. `MediaAgreement.EndToneCacheIsWrongInARun` gives
  a run, `MediaAgreement.EndToneCacheExact` and `MediaAgreement.RestartedTone` say exactly when the cache
  is right, and `MediaAgreement.NewNoticeTone` when a new notice leaves parent and child with the same tone.
- A notice beyond the child's buffer of 2 MiB is cut by the child's recv and ignored, while the parent
  caches it as told; `MediaAgreement.LongNoticeNeverArrives` says what child and parent then hold.
- The printer writes control characters as `\u00xx`, an escape the parser does not know. A
  configuration with such a character in a free text cannot be read back;
  `ConfigTheorem.ConfigRoundTrips` says that this is the only obstacle. Comparing printed texts is not
  affected: `ConfigComparison.TextEqualityIsValueEquality` holds for all texts.
- A channel too narrow for one kbit/s beside audio still gets 1 kbit/s of video, beyond what it carries;
  `ConfigRoundTrip.VideoAndAudioFillTheChannel` gives the exact condition.
- A topic of 65536 bytes or more has its length cut (src/pluto_sink.cpp:69-71);
  `Mqtt.PublishRoundTrip` says that this is the only way a short enough publish changes.
- The watchdog's suppression time never decides whether a receiver counts as locked
  (src/nim_controller.cpp:947-985); `LockWatch.LockedExactly` does not mention it.
- A session that ends because analogue takes over prepares a post-access notice that is
  overwritten in the same turn (src/daemon.cpp:1554-1568); only silence shows one.

## Model

| member | source | states |
|---|---|---|
| `WireCodec.StringRoundTrip` | src/media_process.cpp:81-87 | a string read back is the same string, followed by what followed it, exactly when its length fits 32 bits; a longer one has its length cut |
| `WireCodec.OptStringRoundTrip` | src/media_process.cpp:89-95 | the presence flag and the string read back |
| `WireCodec.TargetRoundTrip` | src/media_process.cpp:97-106 | a scan target reads back whole exactly when its texts fit, whatever bytes follow |
| `WireCodec.StatusRoundTrip` | src/media_process.cpp:108-128 | a receiver status reads back whole, measurements and all, exactly when its texts fit |
| `WireCodec.MeasurementsRoundTrip` | src/media_process.cpp:108-128 | the measurements of a status read back in the encoder's order, exactly when its two texts fit |
| `WireCodec.ActiveRoundTrip` | src/media_process.cpp:130-146 | reading the payload of an input, or of none, gives that input with MER, D-number and both counters cleared, and consumes exactly the bytes written, even with a suffix behind them; exactly when all texts fit |
| `WireCodec.DecActiveExtends` | src/media_process.cpp:252-263 | an input read from some bytes is read the same with more behind them, which are left |
| `WireCodec.PayloadEquality` | src/media_process.cpp:420-430 | two payloads are byte-equal exactly when the inputs agree in every member but MER, D-number and the two counters, which is what comparing cached payloads relies on |
| `WireCodec.PayloadReader.ReadU32` | src/media_process.cpp:176-186 | advances over four bytes and returns their little-endian value, or fails without reading past the end |
| `WireCodec.PayloadReader.ReadString` | src/media_process.cpp:193-202 | reads a length and that many bytes, or fails when they are not there |
| `WireCodec.PayloadReader.ReadScanTarget` | src/media_process.cpp:217-228 | the fields in the order of the encoder |
| `WireCodec.PayloadReader.ReadReceiverStatus` | src/media_process.cpp:230-250 | the fields in the order of the encoder |
| `WireCodec.ReadActive` | src/media_process.cpp:252-263 | the reader over the whole payload is the decoding function the round trips are about |
| `WireCodec.EncodeActive` | src/media_process.cpp:130-146 | the appending encoder produces the payload the round trips are about |
| `MediaProcessObject.MediaProcess.EnsureRunning` | src/media_process.cpp:554-560 | reaps a gone child and starts another, over any answers of waitpid |
| `MediaProcessObject.MediaProcess.SendMessage` | src/media_process.cpp:658-697 | accepted, full, closed and failed sends, with the one retry of essential messages and the restart of a closed child |
| `MediaProcessObject.MediaProcess.StartChild` | src/media_process.cpp:562-600 | clears the cached payloads but the end tone's, and replays the state |
| `MediaProcessObject.MediaProcess.ReplayState` | src/media_process.cpp:753-789 | every value is sent again and cached only if the send was accepted; what goes out is `MediaReplay.RestartTellsInOrder` |
| `MediaProcessObject.MediaProcess.Select` | src/media_process.cpp:420-430 | skipped when the cached payload is the new one; afterwards every cached payload but the end tone's is still the last the child was told |
| `MediaProcessObject.MediaProcess.SetBeaconAllowed` | src/media_process.cpp:432-442 | skipped when the cached payload is the new one; afterwards every cached payload but the end tone's is still the last the child was told |
| `MediaProcessObject.MediaProcess.SetAccessNotice` | src/media_process.cpp:444-460 | notice and end tone, each skipped by its own cached payload |
| `MediaProcessObject.MediaProcess.SetPreviewEnabled` | src/media_process.cpp:488-498 | skipped when the cached payload is the new one; afterwards every cached payload but the end tone's is still the last the child was told |
| `MediaProcessObject.MediaProcess.PlayFallbackVideo` | src/media_process.cpp:462-469 | path kept for replay and sent |
| `MediaProcessObject.MediaProcess.SeekFallbackVideo` | src/media_process.cpp:480-486 | a negative position becomes 0 |
| `MediaProcessObject.MediaProcess.DrainChildMessages` | src/media_process.cpp:699-739 | a closed channel reaps and restarts the child |
| `MediaReplay.OneSend` | src/media_process.cpp:658-697 | a send to a living child by the answer it meets: the message joins the channel, is refused, or the child is replaced and the new one is not sent it |
| `MediaReplay.RestartTellsInOrder` | src/media_process.cpp:753-789 | a restarted child is sent, each to its own answer, kinds 2, 3, 4, 13 and 9 with the parent's values, then kind 5 with the path when one is held, then kind 11 with the position when one is held as well, and nothing else |
| `MediaReplay.RestartTellsEverything` | src/media_process.cpp:562-789 | when no send is refused its channel is exactly these messages, with literal kinds and payloads |
| `MediaReplay.RunHoldsTheOrders` | src/media_process.cpp:420-498 | in every run of calls, failures, deaths and restarts the parent holds what was last asked of it: input, beacon, notice and tone, preview, video, and a position only of that video |
| `MediaReplay.RestartRestoresTheOrders` | src/media_process.cpp:562-789 | after any run a child replaced while nothing is refused is sent exactly the last orders |
| `MediaReplay.RestartedChildHoldsTheOrders` | src/media_process.cpp:306-397 | and holds them once it has read its socket, the input normalised, provided they fit its buffer |
| `MediaReplay.MalformedCrashes` | src/media_process.cpp:306-397 | which messages a living child does not survive: flags and a reconfiguration without a byte, a position of less than eight, a text shorter than it says, an input that cannot be read to its end; and no others |
| `MediaReplay.CutInputIsRefused` | src/media_process.cpp:252-263 | an input cut anywhere is refused, never taken for another |
| `MediaReplay.QuietVideoCommandsTell` | src/media_process.cpp:462-486 | a play, stop or seek to a living child whose socket accepts adds exactly its own message, with the path, nothing, or the position or 0 |
| `MediaReplay.QuietCommandsTell` | src/media_process.cpp:500-520 | a reconfiguration adds its flag, a tick and a transport chunk their own messages |
| `MediaReplay.DeadChildIsReplacedFirst` | src/media_process.cpp:554-560 | a child found dead is replaced first: the new one is told what the parent holds, and then the message |
| `MediaAgreement.SendKeeps` | src/media_process.cpp:658-697 | whatever a send meets, an accepted payload is the last of its kind in the current child's channel, and a refused one leaves nothing stale |
| `MediaAgreement.StartChildKeeps` | src/media_process.cpp:562-600 | a new child starts in agreement, whatever its replay meets |
| `MediaAgreement.AgreementAlways` | src/media_process.cpp:554-697 | in every run of calls, failed sends, deaths, reaps and restarts, each cached select, beacon, notice and preview payload is the last message of its kind accepted by the current child's channel |
| `MediaAgreement.SkippedSettersWereTold` | src/media_process.cpp:420-498 | a setter that sends nothing was right to: the current child had accepted that payload, and nothing of that kind since |
| `MediaAgreement.QuietSettersTell` | src/media_process.cpp:420-498 | a setter that meets no failure leaves its value cached and the last of its kind in the child's channel |
| `MediaAgreement.QuietNoticeTells` | src/media_process.cpp:444-460 | the same for a notice |
| `MediaAgreement.DrainedChildHoldsParentValues` | src/media_process.cpp:306-397 | in every run a child that has read its socket has not crashed on any message, and holds every value of the parent whose latest send was accepted and fits the child's buffer |
| `MediaAgreement.EndToneCacheExact` | src/media_process.cpp:562-600 | the end tone's cached payload is the last tone told to the current child exactly when that child was told one at all |
| `MediaAgreement.RestartedTone` | src/media_process.cpp:562-600 | after a restart during which the child lives, the end tone's cache is right exactly when it was empty or the fourth send, the replayed tone's, was accepted |
| `MediaAgreement.EndToneCacheCanBeWrong` | src/media_process.cpp:594-597 | a family of states in which the end tone's cache is wrong after a restart, and the next call sends nothing |
| `MediaAgreement.EndToneCacheIsWrongInARun` | src/media_process.cpp:594-597 | a run from the constructor that reaches such a state |
| `MediaAgreement.NewNoticeTone` | src/media_pipeline.cpp:7173-7187 | after an undisturbed call with a new text that fits the child's buffer, child and parent agree on the tone exactly when no tone is wanted or the cached one is not set: a new notice resets the child's tone, which the cache does not know |
| `MediaAgreement.LongNoticeNeverArrives` | src/media_process.cpp:353-397 | a notice beyond the child's buffer of 2 MiB never arrives although the parent takes it for told; and exactly when the tones then agree |
| `BlockingQueue.EveryInterleaving` | src/media_pipeline.cpp:1583-1641 | in every interleaving of one producer, one consumer and one stop, bytes read followed by bytes buffered are the bytes accepted, the buffer stays within its limit, and a sleeping thread has something to wait for or a wake-up coming |
| `BlockingQueue.EndOfStreamIsFinal` | src/media_pipeline.cpp:1605-1632 | once the end is reported nothing more is delivered or accepted |
| `BlockingQueue.StoppedReads` | src/media_pipeline.cpp:1605-1632 | after stop a reader gets what is left, in order, and then exactly the end |
| `BlockingQueue.NeverDeadlocked` | src/media_pipeline.cpp:1583-1641 | with both threads inside a call one of them can go on without a spurious wake-up |
| `BlockingQueue.CallsKeepTheirArguments` | src/media_pipeline.cpp:1585-1641 | in every run a call works on the data or size it was given however often it slept, what was offered is everything append was called with, and the queue is stopped exactly when the stopper took the lock |
| `BlockingQueue.CallsBegin` | src/media_pipeline.cpp:1585-1623 | a call begins with its own data from its start, or its own size; an append of nothing is over at once |
| `BlockingQueue.AppendNotifies` | src/media_pipeline.cpp:1599-1602 | the notification of an append lets it go on, or end when all is taken, and sends a sleeping reader back to its condition |
| `BlockingQueue.ReadNotifies` | src/media_pipeline.cpp:1620-1622 | the notification of a read ends it and sends a sleeping append back |
| `BlockingQueue.OthersNotify` | src/media_pipeline.cpp:1625-1632 | the stopper's notification sends both back and nothing else changes; a spurious wake-up sends back its own sleeper |
| `BlockingQueue.AppendTakesAChunk` | src/media_pipeline.cpp:1585-1603 | at any point of any run append takes the next 1,048,576 bytes of its data or what is left if the buffer then holds at most 33,554,432, ends when stopped, and else sleeps, with nothing else changed |
| `BlockingQueue.ReadTakesWhatWaits` | src/media_pipeline.cpp:1605-1623 | read returns the first bytes that wait, as many as it was asked for or as there are; from an empty buffer it reports the end once stopped and else sleeps |
| `BlockingQueue.FinishedAppendsAreAccepted` | src/media_pipeline.cpp:1585-1603 | before a stop everything append was called with is accepted when the call is over, and was read once the buffer is empty |
| `BlockingQueue.BlockingTsInput.TryAppend` | src/media_pipeline.cpp:1585-1603 | the section under the lock does what the state machine's step does |
| `BlockingQueue.BlockingTsInput.TryRead` | src/media_pipeline.cpp:1605-1623 | the section under the lock does what the state machine's step does, byte by byte |
| `JsonParserObject.JsonParser.Parse` | src/config.cpp:51-60 | the parser object computes the parsing function on its whole input |
| `JsonParserObject.JsonParser.ParseValue` | src/config.cpp:62-97 | one value, from the current position |
| `JsonParserObject.JsonParser.ParseString` | src/config.cpp:99-143 | a string with the six short escapes; any other escape and an open string fail |
| `JsonParserObject.JsonParser.ParseArray` | src/config.cpp:145-164 | items between commas |
| `JsonParserObject.JsonParser.ParseObject` | src/config.cpp:166-188 | members between commas; the first of equal keys wins |
| `JsonParserObject.JsonParser.ParseNumber` | src/config.cpp:190-213 | sign, digits and fraction, no exponent |
| `JsonParserObject.WriteString` | src/config.cpp:309-351 | the printer's escapes, character by character |
| `ConfigLayout.EscapesAre` | src/config.cpp:309-351 | each character's printed form: seven letters behind a backslash, 00 and two small hexadecimal digits of the code for the other controls, else the character itself |
| `JsonGrammar.ReadsExactlyTheGrammar` | src/config.cpp:51-246 | an input is accepted with a value exactly when it is a text of the grammar with space around it that means that value: the eight one-letter escapes, numbers with digits on either side of the point, space around every token, no trailing comma, the first of equal keys |
| `JsonGrammar.TextIsTaken` | src/config.cpp:62-97 | every text of the grammar is taken with its meaning, whatever space stands before it and whatever follows that does not continue a number |
| `JsonGrammar.ValueFound` | src/config.cpp:62-97 | whatever is taken as a value is space, a text of the grammar with that meaning, and a rest that does not continue a number |
| `JsonGrammar.DecimalIsScaled` | src/config.cpp:190-213 | a numeral times ten to the number of digits behind its point is the number its digits spell, negated behind a sign |
| `JsonRoundTrip.ValueReads` | src/config.cpp:62-97 | the printed text of any layout tree, with anything harmless behind it, reads as the tree's value |
| `JsonRoundTrip.ItemsRead` | src/config.cpp:145-164 | the same for the items of an array, by induction over them |
| `JsonRoundTrip.MembersRead` | src/config.cpp:166-188 | the same for the members of an object, by induction over them |
| `JsonRoundTrip.PrintedTextReads` | src/config.cpp:51-246 | parsing the printed text of any layout tree gives its value, or fails exactly when some string in it holds a control character without a short escape |
| `JsonUnique.TextsSplit` | src/config.cpp:309-351 | of two printed trees with any harmless text behind them, equal texts mean the same values under the same keys and the same rest, whatever characters their strings hold |
| `ConfigRoundTrip.ReadConfigIsValid` | src/config.cpp:620-1029 | every configuration the reader accepts obeys all clamps, vocabularies and limits; which value each member gets is `ConfigMeaning.ReadingMeans` |
| `ConfigMeaning.ReadingMeans` | src/config.cpp:620-1029 | the reader returns c exactly when every member of c is what its key says: a missing member keeps its literal default, a number is cut towards zero, a limited one is the value within literal limits, sizes are rounded down to even, ports are wrapped or refused, words are in their lists, and a wrong type or value anywhere refuses the whole |
| `ConfigMeaning.SilentTextGivesDefaults` | include/whrepeater/config.hpp:26-191 | a text that says nothing but that there are no receivers gives the literal initial value of every member |
| `ConfigMeaning.WithinIsNearest` | src/config.cpp:688-724 | the value within limits is in range, and no value in range is nearer to the number given |
| `ConfigMeaning.CodeRateIsItsName` | src/config.cpp:446-458 | a code rate's fraction is the one its name spells |
| `ConfigMeaning.BitsFollowTheName` | src/config.cpp:460-479 | DVB-S has two bits a symbol; otherwise a constellation has the bits of the number of points its name begins with |
| `ConfigRoundTrip.DefaultIsValid` | src/config.cpp:574-597 | the configuration without a file, with its four receivers, obeys all the reader's limits, and its rates of 333 and 237 kbit/s are those printing recomputes |
| `ConfigRoundTrip.RatesDoNotMatter` | src/config.cpp:549-572 | recomputing the two derived rates twice changes nothing |
| `ConfigRoundTrip.MuxRateIsTheChannelRate` | src/config.cpp:549-563 | the mux rate is the channel's bit rate in kbit/s, rounded down once, and never wraps |
| `ConfigRoundTrip.VideoAndAudioFillTheChannel` | src/config.cpp:549-572 | video and audio together fill the channel to its last whole kbit/s exactly when it carries at least one kbit/s beside audio; in a narrower one video gets 1 kbit/s, beyond what the channel carries |
| `ConfigRoundTrip.MembersHold` | src/config.cpp:166-188 | reading printed members under different keys gives a map that holds each of them, exactly when each can be read |
| `ConfigSections.PlutoReads` | src/config.cpp:644-745 | the printed transmitter section reads back, its rates recomputed |
| `ConfigLists.FallbackReads` | src/config.cpp:746-782 | the printed fallback section reads back, with the duration in whole seconds |
| `ConfigLists.AnalogueReads` | src/config.cpp:907-994 | the printed capture section reads back, the frame rate's fraction not overwritten by the rate |
| `ConfigReceivers.TargetReads` | src/config.cpp:511-547 | a printed target reads back for the receiver it belongs to, exactly when its label is clean |
| `ConfigReceivers.ReceiversRead` | src/config.cpp:996-1026 | all receivers and targets read back in order, exactly when all labels are clean |
| `ConfigTheorem.ConfigRoundTrips` | src/config.cpp:1031-1191 | for every valid configuration the printed text reads back as that configuration with the rates recomputed and the thresholds as printed; and it is refused exactly when some free text holds a control character without a short escape |
| `ConfigTheorem.AcceptedConfigRoundTrips` | src/config.cpp:620-1191 | every accepted configuration with clean texts can be printed and read, and from then on is a fixed point, text and value |
| `ConfigTheorem.DefaultReadsBack` | src/config.cpp:574-597 | the configuration without a file reads back as it is, with the thresholds as printed |
| `ConfigLayout.PrintedText` | src/config.cpp:1031-1191 | the printed text character by character: the literal keys in order, one to a line, each with its member's text, objects indented by two, targets on one line each, paths between commas, milliseconds cut to seconds, the rates recomputed; none when they cannot be |
| `ConfigComparison.TextEqualityIsValueEquality` | src/config.cpp:1031-1191 | two valid configurations print the same text exactly when they agree in every field, with the rates as recomputed and the thresholds as printed; no text is restricted |
| `ConfigComparison.PiManagedChangeIsNoticed` | src/daemon.cpp:650-666 | the two projections print the same text exactly when interval, gateway, receivers and printed thresholds are equal |
| `AnnexB.StartCodeAt` | src/media_pipeline.cpp:2284-2294 | a three- or four-byte start code at an offset |
| `AnnexB.FindStartCode` | src/media_pipeline.cpp:2296-2303 | the first start code at or behind a position |
| `AnnexB.ExtractParameterSets` | src/media_pipeline.cpp:2277-2334 | the scanning loop terminates on any bytes and extracts what the reference definition says |
| `AnnexB.UnitsOfStream` | src/media_pipeline.cpp:2277-2334 | units written with four-byte start codes are found again, none lost, split or joined, trailing zeros included |
| `AnnexB.TakenIsFirstPair` | src/media_pipeline.cpp:2305-2328 | what the scan takes is the first SPS and the first PPS in stream order |
| `AnnexB.ExtractedIsFirstPair` | src/media_pipeline.cpp:2305-2333 | from any bytes: the first SPS and PPS among the units, or nothing when either is missing |
| `AnnexB.ExtractsTheParameterSets` | src/media_pipeline.cpp:2277-2334 | for any list of non-empty units without 00 00 01, the result is exactly their first SPS and PPS |
| `AnnexB.ExtractionIsIdempotent` | src/media_pipeline.cpp:2277-2334 | extracting from the result gives the result |
| `ScanScheduler.Scheduler.TickOne` | src/scan_scheduler.cpp:41-70 | one receiver's cursor takes its step and at most one tune goes out |
| `ScanScheduler.Scheduler.DoTick` | src/scan_scheduler.cpp:38-72 | the receivers take their turns in order, each from the cursors the earlier ones left, also where they share an id |
| `ScanScheduler.UniqueIdsStepAlone` | src/scan_scheduler.cpp:38-72 | with unique ids each receiver takes its own step from the cursor it had, is told what that says, and no other cursor changes |
| `ScanRounds.FirstStatusCounts` | src/scan_scheduler.cpp:46-49 | a receiver counts as locked exactly when the first status with its id says so |
| `ScanRounds.RunDrivesEach` | src/scan_scheduler.cpp:38-72 | in every run of ticks with unique ids each scanning receiver's cursor is the one its own ticks lead to |
| `ScanRounds.RoundTellsTheTunes` | src/scan_scheduler.cpp:38-72 | in every run a tick tells a receiver to tune to a target exactly when it scans, its own ticks say it tunes now, and that is its target; and no receiver twice |
| `ScanRounds.FirstTickTunes` | src/scan_scheduler.cpp:38-72 | the first tick tunes exactly the receivers that are enabled, have a target and are not locked, each to its first target |
| `ScanScheduler.NthTuneGoesToTargetN` | src/scan_scheduler.cpp:64-68 | in every run the n-th tune goes to target n modulo the number of targets |
| `ScanScheduler.EachTargetOnce` | src/scan_scheduler.cpp:64-68 | in every run, of any consecutive ticks that hold as many tunes as there are targets, exactly one tunes to each target |
| `ScanScheduler.TunesExactlyWhenAllowed` | src/scan_scheduler.cpp:38-72 | a tick tunes exactly when the receiver is not locked, every loss of lock lies a hang time back and, after the first tune, every locked or tuning tick a dwell time |
| `LockWatch.Receiver.ValidTransportFresh` | src/nim_controller.cpp:947-985 | the watchdog's branches |
| `LockWatch.Receiver.Tune` | src/nim_controller.cpp:930-945 | tuning takes a new baseline and keeps the suppression time |
| `LockWatch.Receiver.PollStatus` | src/nim_controller.cpp:671-724 | a reported lock counts as lock only with fresh packets; a receiver never tuned is not polled |
| `LockWatch.LockedExactly` | src/nim_controller.cpp:671-724 | in every run a receiver shows as locked exactly when its demodulator reports lock and the packet counter was seen to move since tuning at most 9000 ms ago; the suppression time decides nothing |
| `LockWatch.LostStaysLost` | src/nim_controller.cpp:947-985 | a reported lock once counted as lost stays lost until the counter moves or the receiver is tuned |
| `LockWatch.SuppressionFollowsStaleness` | src/nim_controller.cpp:930-985 | in every run the suppression time is 0 from progress on, 5000 ms ahead of each poll that finds a reported lock stale by more than 1500 ms without, or 9000 ms after, progress since tuning, and otherwise kept, also by tuning |
| `LockWatch.ProgressIsMovement` | src/nim_controller.cpp:947-958 | in every run progress means that the counter differs from the one seen at the latest tuning or look |
| `ReceiverLoop.LoopDrivesWatch` | src/daemon.cpp:1126-1130 | the daemon's loop of poll, tick, poll drives the watchdog through exactly the events it sees |
| `ReceiverLoop.LoopDrivesScheduler` | src/daemon.cpp:1126-1130 | the same loop drives the scheduler through the ticks of its rounds, each with the lock the first poll left |
| `ReceiverLoop.LoopKeepsTheScan` | src/daemon.cpp:1126-1130 | in every run of the loop a round tunes exactly when lock, hang and dwell allow, and its n-th tune goes to target n modulo their number |
| `ReceiverLoop.StalledLockIsLeft` | src/daemon.cpp:1126-1130 | once packets stop the scheduler tunes again within 9000 ms, the longer of hang and dwell, and two gaps between rounds of the last progress, whatever the demodulator reports |
| `ReceiverLoop.LockedShowsProgress` | src/nim_controller.cpp:671-724 | a receiver the loop shows as locked was seen to make progress at most 9000 ms ago |
| `TsIngest.NimController.IngestPacket` | src/nim_controller.cpp:831-877 | status bits, counters, left-out null packets and the packet itself |
| `TsIngest.NimController.EnqueuePacket` | src/nim_controller.cpp:879-891 | a full queue drops its oldest packet and counts it |
| `TsIngest.NimController.DrainTransportPackets` | src/nim_controller.cpp:726-744 | up to the given number of packets from the front |
| `TsIngest.QueueKeepsTheNewest` | src/nim_controller.cpp:879-891 | what was queued and what came are, together, the dropped packets and the queue; the number dropped is the excess over 65536 |
| `TsCounting.FieldsRead` | src/nim_controller.cpp:831-877 | receiver, valid, restart and overflow flags, left-out nulls and both numbers are read from where they stand in a status word, whatever its other bits |
| `TsCounting.PacketAdds` | src/nim_controller.cpp:855-877 | a packet with sync byte and valid flag joins behind as many null packets, 47 1f ff 00 and then ff, as were left out; any other adds nothing |
| `TsCounting.CountersTell` | src/nim_controller.cpp:831-891 | after any run of packets each receiver's counters are the literal counts: packets with the left-out nulls, nulls, missing sync bytes, kept packets, restarts, breaks in the numbers; and overflows marked plus packets dropped |
| `TsCounting.PairCountersTell` | src/nim_controller.cpp:860-866 | the outgoing numbers' breaks are counted over both receivers of a pair, at the first |
| `TsGatewaySink.Gateway.Write` | src/ts_gateway_sink.cpp:74-94 | unaligned writes are refused and counted; bytes gather into datagrams of 1316 |
| `TsGatewaySink.Gateway.FlushDatagram` | src/ts_gateway_sink.cpp:121-156 | the counters add up what was sent |
| `TsGatewaySink.Gateway.SetActive` | src/ts_gateway_sink.cpp:65-72 | going inactive sends what has gathered |
| `TsGatewaySink.PacketJoins` | src/ts_gateway_sink.cpp:87-93 | a packet joins the datagram, which leaves exactly when it holds seven |
| `TsGatewaySink.WriteConserves` | src/ts_gateway_sink.cpp:74-156 | a packet fails exactly when it fills a datagram that the socket refuses, and then exactly that datagram is lost; otherwise the bytes sent and gathered are the bytes written |
| `TsGatewaySink.UnalignedIsRefused` | src/ts_gateway_sink.cpp:74-86 | a write that is not whole packets, or empty, sends and gathers nothing, and is counted unless empty |
| `TsGatewaySink.CountersAgree` | src/ts_gateway_sink.cpp:144-153 | the byte counter is 188 times the packet counter |
| `PcGatewayInput.Input.DoPump` | src/pc_gateway_input.cpp:66-110 | reads until nothing waits, counts, checks alignment and sync bytes, and splits into packets |
| `PcGatewayInput.SyncedPasses` | src/pc_gateway_input.cpp:86-108 | a datagram of whole synced packets passes, even cut to a smaller buffer, and yields its packets or the first of them |
| `PcGatewayInput.SyncedMeans` | src/pc_gateway_input.cpp:83-104 | a datagram is synced exactly when its length is a multiple of 188 and every 188th byte from the first is 47 |
| `PcGatewayInput.PumpTakesAll` | src/pc_gateway_input.cpp:66-110 | without an empty datagram a pump takes all that wait, writes the packets of the synced ones in order, and counts every datagram, the bytes read, the misfits, the unsynced and the packets |
| `PcGatewayInput.PumpEndsAtEmpty` | src/pc_gateway_input.cpp:66-82 | an empty datagram ends the pump uncounted; those behind it stay |
| `TransportBacklog.MediaBacklog.Write` | src/media_process.cpp:522-537 | appends, flushes and trims to the newest half |
| `TransportBacklog.MediaBacklog.FlushTransportBuffer` | src/media_process.cpp:741-751 | sends chunks until one is refused; how many and which is `TransportBacklog.FlushSendsChunks` |
| `TransportBacklog.FlushConserves` | src/media_process.cpp:741-751 | flushing moves whole packets and neither loses nor reorders any |
| `TransportBacklog.FlushSendsChunks` | src/media_process.cpp:741-751 | a flush sends the lesser of what the channel takes and the buffer's length over 63,920 rounded up; each chunk but the last has 63,920 bytes, the last 1 to 63,920; sent and kept bytes are the buffered ones in order; and the buffer is empty or exactly that many takes were used |
| `TransportBacklog.WriteSendsAll` | src/media_process.cpp:522-537 | a write whose takes suffice leaves nothing waiting and has sent everything in order |
| `TransportBacklog.TrimDropsOldest` | src/media_process.cpp:529-536 | trimming drops the oldest packets, whole |
| `TransportBacklog.TrimKeepsTheNewest` | src/media_process.cpp:529-536 | beyond 65,536 packets exactly the newest 32,768 are kept, else all |
| `TransportBacklog.WriteKeepsPackets` | src/media_process.cpp:522-537 | after each write at most 65536 packets are held, and packets are lost only when they would not be |
| `TsPath.StepKeeps` | src/ts_router.cpp:27-44 | every step of ingest, tuning, selection, pump, loss, reception and flush keeps order and alignment of all packets under way |
| `TsPath.PacketsArriveInOrder` | src/nim_controller.cpp:831-891 | in every run the child receives whole packets in the order in which they were drained, each receiver's in the order in which they were queued; all but the pending ones when nothing was lost |
| `TsPath.HarmlessStepIsWhole` | src/ts_gateway_sink.cpp:74-156 | a step that neither overflows, clears, refuses nor loses anything loses no packet, told by what stands before it |
| `TsPath.NothingIsLostOtherwise` | src/media_process.cpp:522-537 | a run of such steps keeps every packet |
| `TsPath.OneReceiverArrives` | src/ts_router.cpp:32-44 | while one receiver supplies everything, the child's packets are a subsequence of those queued for it, and all of them but the pending and queued ones when nothing was lost |
| `TsPath.EveryDatagramPasses` | src/pc_gateway_input.cpp:83-110 | every datagram on the wire is a non-empty multiple of 188 of at most 1316 bytes and passes the PC's checks; the backlog stays within 65536 packets |
| `TsDelivery.IngestingQueues` | src/nim_controller.cpp:831-891 | along the path a driver packet joins its receiver's queue behind its null packets, the excess over 65,536 going from the front |
| `TsDelivery.TuningClears` | src/nim_controller.cpp:930-945 | tuning empties that receiver's queue only |
| `TsDelivery.SelectingTakesEffect` | src/ts_router.cpp:27-30 | selecting takes effect at once, and selecting nothing sends the gathered rest |
| `TsDelivery.PumpTakesTheQueue` | src/ts_router.cpp:32-44 | a pump takes the whole queue of the active receiver, in order, whatever the sends meet |
| `TsDelivery.ReceptionMovesOne` | src/pc_gateway_input.cpp:66-110 | a reception moves the first datagram's packets to the backlog and loses nothing while there is room |
| `TsDelivery.FlushedRunDelivers` | src/media_process.cpp:741-751 | after any run a flush with enough takes leaves the child, when nothing was lost, with every drained packet that is not on the wire or in the datagram |
| `TsDelivery.EverythingArrives` | src/ts_router.cpp:32-44 | after any run that lost nothing, a receiver that is selected, pumped, deselected, received and flushed has its whole queue in the child, in order behind all that was drained before, as soon as it fits the backlog |
| `Mqtt.AppendRemainingLength` | src/pluto_sink.cpp:76-87 | the loop emits the length form the round trips are about |
| `Mqtt.EncodePublish` | src/pluto_sink.cpp:246-255 | header, length, topic length, topic, payload |
| `Mqtt.Reader.ReadRemaining` | src/pluto_mqtt_status.cpp:243-259 | sums seven-bit groups and gives up where a fifth byte would be needed |
| `Mqtt.Reader.Read` | src/pluto_mqtt_status.cpp:231-274 | one packet, or none when the input ends |
| `Mqtt.Reader.ReadMessages` | src/pluto_mqtt_status.cpp:366-383 | other packets and short bodies are skipped, publishes are split into topic and payload |
| `Mqtt.RemainingReads` | src/pluto_mqtt_status.cpp:243-259 | the length form reads back below 2^28, whatever follows |
| `Mqtt.PublishRoundTrip` | src/pluto_sink.cpp:246-255 | a publish packet comes back as sent exactly when its topic is shorter than 65536 bytes; a body of 2^28 bytes or more ends the reading |
| `Mqtt.StreamRoundTrip` | src/pluto_mqtt_status.cpp:366-383 | any run of publishes, with other packets between them, yields their topics and payloads in order |
| `Mqtt.BrokenStreamReads` | src/pluto_mqtt_status.cpp:231-274 | a connection that breaks off inside any packet yields the messages before it, whole and in order, and nothing of that one |
| `Mqtt.LengthIsShortest` | src/pluto_sink.cpp:76-87 | the length form is the shortest that reads as that length, in at most four bytes |
| `Mqtt.FourBytesDecide` | src/pluto_mqtt_status.cpp:243-259 | read or refused, a length is decided by its first four bytes |
| `Morse.MorseToneUnits` | src/media_pipeline.cpp:978-1008 | the keying loop produces the units of the keyed text |
| `Morse.KeyCode` | src/media_pipeline.cpp:997-1003 | marks of one and three units with one unit between them |
| `Morse.CodesDiffer` | src/media_pipeline.cpp:934-976 | no two characters share a code, and each code leads back to its character |
| `Morse.CodeReads` | src/media_pipeline.cpp:997-1003 | run lengths give back one character, and the gap behind it the number of white spaces |
| `Morse.KeyingIsReadable` | src/media_pipeline.cpp:934-1008 | for every text a receiver that knows only run lengths recovers the upper-case characters that have a code and the white space counted between them |
| `Morse.SameToneSameText` | src/media_pipeline.cpp:978-1008 | two texts sound the same exactly when they say the same |
| `Morse.CaseIsIgnored` | src/media_pipeline.cpp:934-936 | texts that differ in the case of their letters are keyed alike |
| `RtmpTimestamps.PersistentRtmpMuxer.Stamp` | src/media_pipeline.cpp:2569-2589 | the branches that choose the shift and stamp the packet |
| `RtmpTimestamps.PersistentRtmpMuxer.WritePacket` | src/media_pipeline.cpp:2542-2623 | packets are dropped while there is no connection, and a failed write closes it |
| `RtmpTimestamps.StampedTime` | src/media_pipeline.cpp:2569-2589 | a packet keeps its shifted time where that moves forward, else stands a duration behind the last; the shift never shrinks |
| `RtmpTimestamps.EveryOpenWriteSubmits` | src/media_pipeline.cpp:2542-2623 | in every run a packet goes out exactly when its stream exists and the connection is open or opens for it; it joins its own stream alone, its duration and the distance of its times kept |
| `RtmpTimestamps.SubmittedTime` | src/media_pipeline.cpp:2569-2589 | in every run the first time of a stream is not before 0, and a later packet keeps its shifted time, or stands its duration, at least 1, behind the last |
| `RtmpTimestamps.StampKeepsDistance` | src/media_pipeline.cpp:2577-2584 | PTS minus DTS is untouched |
| `RtmpTimestamps.ForwardPacketsKeepTheirDistance` | src/media_pipeline.cpp:2572-2576 | packets that follow each other forward in time keep their distance |
| `RtmpTimestamps.TimesAlwaysGrow` | src/media_pipeline.cpp:2542-2623 | in every run of writes, resets, failures and reconnects the submitted times of each stream are non-negative and strictly increasing |
| `RtmpTimestamps.OffsetsNeverShrink` | src/media_pipeline.cpp:2569-2576 | between any two moments of a run the shift never shrinks, once a packet was stamped |
| `OutputClock.AdvanceOutputFrameClock` | src/media_timing.cpp:29-37 | the next deadline is an interval on, or now if that has passed |
| `OutputClock.DeadlinesNeverBunch` | src/media_timing.cpp:29-37 | over whole runs deadlines lie an interval apart or more, and exactly one apart while no frame is late |
| `OutputClock.AudioGrows` | src/media_timing.cpp:50-55 | later frames never ask for less audio |
| `OutputClock.TargetIsTheShare` | src/media_timing.cpp:50-55 | the audio that belongs to a frame is its share of whole samples, rounded down, with rates below one counted as one |
| `FallbackMuxer.Output.WriteFrame` | src/media_pipeline.cpp:6243-6335 | the choice between submitted, held and generated pictures, frame by frame |
| `FallbackMuxer.Output.WriteHeldOrGenerated` | src/media_pipeline.cpp:6440-6465 | the rendered picture, else the held frame, else a generated one |
| `FallbackMuxer.Output.EncodeWithAudio` | src/media_pipeline.cpp:6759-6780 | the frame is numbered by the muxer, a rejected picture replaced, and the audio follows |
| `FallbackMuxer.Output.WriteAudioUntil` | src/media_pipeline.cpp:6895-6912 | the catch-up loop terminates |
| `FallbackMuxer.Output.SubmitVideoFrame` | src/media_pipeline.cpp:6069-6108 | a new source clears the old one's frames, fallback video queues at most two; what waits afterwards is `OutputSubmission.FallbackFrameWaits` and `OutputSubmission.OtherFrameWaits` |
| `FallbackMuxer.Output.BeginSubmittedSource` | src/media_pipeline.cpp:5996-6008 | a session starts at the next frame number |
| `FallbackMuxer.Output.EndSubmittedSource` | src/media_pipeline.cpp:6010-6024 | a session's frames and held picture go with it |
| `OutputRun.CatchUpReaches` | src/media_pipeline.cpp:6895-6912 | the loop ends at exactly the whole audio frames that fit |
| `OutputRun.EveryWriteKeepsTime` | src/media_pipeline.cpp:7568-7571 | in every run each write puts out exactly one video frame, numbered one above the last and as the worker counts, and with the audio ready the audio index is exactly S times the floor of the target over S |
| `OutputRun.RunKeepsClock` | src/media_pipeline.cpp:7853-7877 | within one muxer's life frame numbers count up from 0 without gap or repeat, over restarts of the source; a new muxer counts from 0 again |
| `OutputRun.ShowsNewestDue` | src/media_pipeline.cpp:6250-6280 | with at most two frames queued a write shows the newest frame that is due and leaves the later ones; if none is due it shows what is held |
| `OutputRun.ShowsNewestOrLast` | src/media_pipeline.cpp:6243-6335 | in every run a wanted write of fallback video shows the newest queued frame that is due, when none is due the last picture of the session again, and before the first picture black while frames wait, else the slate; a refused picture becomes black |
| `OutputSubmission.FallbackFrameWaits` | src/media_pipeline.cpp:6069-6108 | in every run a fallback frame the decoder's guard lets through is appended behind the session's waiting frames exactly when fewer than two wait, else dropped; a change of source leaves it alone in a new session |
| `OutputSubmission.OtherFrameWaits` | src/media_pipeline.cpp:6069-6108 | a frame of any other source is all that waits |
| `OutputSubmission.SessionsBeginAndEnd` | src/media_pipeline.cpp:5996-6024 | a source that begins starts a session at the next frame number with nothing waiting or held, and one that ends takes its session with it |
| `OutputSubmission.WriteLeavesTheLater` | src/media_pipeline.cpp:6243-6335 | a wanted and fresh write of fallback video takes the frames up to the newest due one; every other write leaves all |
| `OutputSubmission.GuardLetsTheLaterThrough` | src/media_pipeline.cpp:4291-4325 | the decoder lets a frame through exactly when it is later than all of the file before it |
| `OutputSubmission.SubmittedFallbackIsShown` | src/media_pipeline.cpp:6243-6335 | a fallback frame let through with room is what the next wanted and fresh write at or after its number shows |
| `OutputSubmission.OtherSourceShowsTheLast` | src/media_pipeline.cpp:6243-6335 | in every run a wanted and fresh write of any other source shows the frame submitted last in its session, or the slate when there was none |
| `OutputRun.FallbackVideoInOrder` | src/media_pipeline.cpp:4291-4325 | in every run, within a source session no frame is shown before its due number and the shown source times never go back, whatever times the file gives: the decoder's guard drops what does not move forward |
| `PlutoSink.Pluto.WriteMuxData` | src/pluto_sink.cpp:328-346 | configures first, drops bytes while not transmitting, and else sends full datagrams; which is `PlutoDelivery.WriteSendsFullDatagrams` |
| `PlutoSink.Pluto.SetTransmitEnabled` | src/pluto_sink.cpp:450-463 | no change does nothing; otherwise configure, drop waiting bytes, publish, remember |
| `PlutoSink.Pluto.ReconfigureTransmitter` | src/pluto_sink.cpp:465-476 | configures again and publishes the state |
| `PlutoSink.Pluto.ConfigureTransmitter` | src/pluto_sink.cpp:478-517 | the controls in their order, once |
| `PlutoSink.Pluto.PublishTransmitState` | src/pluto_sink.cpp:519-528 | run before unmute, mute before stop |
| `PlutoSink.Pluto.PublishControls` | src/pluto_sink.cpp:530-540 | a failed publish is repeated once |
| `PlutoSink.StepIsSafe` | src/pluto_sink.cpp:450-540 | every call keeps the trace safe, with any pattern of repeated publishes, and the last mute what the sink believes |
| `PlutoSink.TransmitterIsSafe` | src/pluto_sink.cpp:319-540 | at every point of every run the transmitter is unmuted only while its stream runs, settings of frequency, symbol rate, source and modulation go out only while it is muted, and bytes only while it is not |
| `PlutoSink.MuteMatchesState` | src/pluto_sink.cpp:450-476 | after every call the last published mute is what the sink believes |
| `PlutoSink.SilentWithoutMqtt` | src/pluto_sink.cpp:478-488 | without MQTT or a device id nothing is ever published |
| `PlutoSink.BytesLeaveOnlyWhenOrdered` | src/pluto_sink.cpp:319-476 | whatever the configuration, in every run bytes leave only in a write made while transmission is the last order, and closing sends the gathered rest only if it still is |
| `PlutoDelivery.WriteSendsFullDatagrams` | src/pluto_sink.cpp:328-346 | a write while transmitting extends the trace by datagrams of exactly 1316 bytes; their bytes and the new rest are the old rest and the data, and only set-up controls may come before them |
| `PlutoDelivery.OrderedWritesAreSent` | src/pluto_sink.cpp:328-346 | in every run, while transmission stays ordered, the bytes sent and gathered are those from before followed by every byte written since; all datagrams are full |
| `PlutoDelivery.EveryByteWrittenIsSent` | src/pluto_sink.cpp:319-346 | from the order after silence on, the bytes sent and gathered are exactly those written since, and closing sends the rest |
| `PlutoDelivery.NothingGathersUnordered` | src/pluto_sink.cpp:335-338 | in every run nothing is gathered while transmission is not ordered |
| `PlutoDelivery.EverySettingIsTold` | src/pluto_sink.cpp:478-517 | in every run that wrote or ordered anything, with MQTT and a device id, the Pluto was last told each setting exactly as configured, under literal keys, whichever publishes were repeated |
| `PlutoDelivery.SetUpInOrder` | src/pluto_sink.cpp:478-517 | without repeats a set-up publishes call sign, gain, mute, source settings and modulation in this order |
| `PlutoDelivery.SwitchInOrder` | src/pluto_sink.cpp:519-528 | without repeats switching publishes run 1, mute 0 or mute 1, run 0 |
| `PlutoDelivery.RepeatFollowsAtOnce` | src/pluto_sink.cpp:530-540 | a repeated publish follows the first at once, and only it is repeated |
| `PcGateway.Gateway.Debounce` | src/daemon.cpp:1459-1469 | raw lock counts after 1500 ms |
| `PcGateway.Gateway.Arbitrate` | src/daemon.cpp:1488-1520 | the family in charge is asked first |
| `PcGateway.Gateway.TakeTurn` | src/daemon.cpp:1455-1618 | one whole turn of the loop |
| `PcGateway.NothingActive` | src/daemon.cpp:1495-1520 | nothing is active exactly when both candidates are absent |
| `PcGateway.FamilyStaysInCharge` | src/daemon.cpp:1488-1618 | in every run a family stays in charge exactly as long as every turn finds a candidate of its own and no new configuration lets the gateway in before it; all that while its candidate is active and its session goes on with its start |
| `PcGateway.AnalogueNeedsStableLock` | src/daemon.cpp:1458-1469 | in every run the analogue source is a candidate exactly when usable and raw locked on every turn of a window of at least 1500 ms that ends now |
| `PcGateway.OneSessionAtATime` | src/daemon.cpp:1522-1618 | the two session flags are never both set, and one is set exactly while a source is active |
| `PcGateway.SessionCountsFromItsStart` | src/daemon.cpp:1525-1582 | a session counts from the turn in which its family took charge, so a farewell tells its length |
| `PcSessions.SessionRemembers` | src/daemon.cpp:1525-1582 | in every run a session remembers from its first turn when it began, the service and format told last, and its input: for the PC the last that named a receiver or else the first, for analogue the last |
| `PcSessions.FarewellTellsTheSession` | src/daemon.cpp:1588-1618 | when silence ends a session the farewell names that input, the time since its first turn, and the service and format told last, with the end tone, held for 10 s |
| `PcSessions.RunHolds` | src/daemon.cpp:1554-1618 | in every run a notice is held until 10 s after the last ending |
| `PcGateway.LiveExactlyWhileActive` | src/daemon.cpp:1522-1618 | in every run a turn leaves a live notice exactly when a source is active, naming its input, and the end tone exactly with a farewell |
| `PcGateway.FarewellIsHeld` | src/daemon.cpp:1588-1618 | a session that ends in silence yields one post-access notice, with its input, length, service and format, held for 10 s of silence and gone at the first silent turn after |
| `Synthesiser.ChargePumpForVco` | src/nim_controller.cpp:1288-1297 | the first table row whose upper end is not exceeded, else the last |
| `Synthesiser.ChargePumpFollowsTable` | src/nim_controller.cpp:135-143 | the code is that of the range between the upper ends of the table, the last one open |
| `Synthesiser.ChargePumpCodes` | src/nim_controller.cpp:135-143 | the seven codes by the oscillator frequency in kHz |
| `Synthesiser.HighPassFilterForFrequency` | src/nim_controller.cpp:1299-1306 | the last filter step that still covers the frequency |
| `Synthesiser.Tuner.SetTunerFrequency` | src/nim_controller.cpp:1221-1247 | programs the six registers of one tuner, from 0x02 or from 0x0c, and no other register |
| `Synthesiser.PackRoundTrip` | src/nim_controller.cpp:1232-1240 | unpacking gives back N in nine bits, F in eighteen and the charge pump code |
| `Synthesiser.SynthesiserUndershoots` | src/nim_controller.cpp:1221-1229 | N and F approach the scaled oscillator frequency from below by less than 30000 / 2^18 kHz |
| `Synthesiser.RegistersRecoverTuning` | src/nim_controller.cpp:1221-1240 | the registers hold N, F and the code exactly when the frequency is below 3,840,000 kHz |
| `Synthesiser.VcoStaysInRange` | src/nim_controller.cpp:1274-1286 | the divider keeps the oscillator within 2,380,000 to 4,784,000 kHz exactly for 148,750 to 2,392,000 kHz |

## Left out

- MediaProcessObject.MediaProcess.DrainChildMessages: messages from the child (stream information, fallback video status) are not read, because they feed displays only; what is modelled is the closed channel at the end.
- JsonParserObject.JsonParser.ParseNumber: a number beyond the range of a double is read exactly, where `stod` throws.
- TsGatewaySink.Gateway.Write: all datagrams that fill during one write share one outcome; the callers write one packet at a time, which fills at most one.
- FallbackMuxer.Output.SubmitVideoFrame: the wait for room in the queue is one step that finds room or drops the frame, so a source change during the wait is not modelled.
- Fork, exec, sockets, GPIO, I2C transport and file access: only their outcomes enter. Fork and socketpair always succeed; a child's termination is an answer of waitpid or of a send.
- Partial sends to the child: the channel carries whole messages, and a message beyond its size limit is refused.
- The parent's `mode_`, which only feeds displays.
- `tick`, `write` and `stopChild` of the media process beside their messages: the messages are steps of the protocol, and the backlog is `TransportBacklog`.
- The value of a frame, its overlay, slate or audio samples: pictures are opaque, with a time.
- Exceptions from encoders, clones and allocations in the output path: a write either completes or is not made.
- 64-bit overflow of frame numbers, sample counts, packet times and counters: they are unbounded here.
- Rescaling of RTMP packets to the stream's time base: times and durations are those after rescaling.
- Floating point in the two selection thresholds: the printed decimal is a parameter, and a magnitude printed with an exponent, which the parser refuses, is outside `ConfigTheorem.ConfigRoundTrips`.
- Conversions of numbers outside the integer range, undefined in the original: the reader reports an error.
- UDP datagrams that arrive twice or out of order: the network only loses datagrams. Datagrams the PC discards while analogue is in charge count as lost.
- A send address that is no IPv4 address: the gateway sink counts it as an error; in the Pluto sink, where it throws, addresses are valid.
- The receive dump file, the preview mirror, statistics logs and move operations.
- Exceptions out of `tune`, which reports hardware faults through the status instead.
- The daemon loop of the local transcoder, with its hang time for analogue: `PcGateway` is the PC gateway's loop.
- MER scaling, which the source marks as a placeholder, and the texts of notices.
- `api_server`, `gateway_status_client`, the web pages, `signal_arbitrator`, `hardware_ptt`, `ident` and `ts_gateway_inspect`: request plumbing, nearly stateless parts and a diagnostic.

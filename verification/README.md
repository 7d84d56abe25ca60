# The h2c client connection, modelled and verified in Dafny

This project models the client side of an HTTP/2 connection as `http2client` implements it: the connection object, the
streams it holds, the stream state machine of RFC 7540 (section 5.1), flow control in both directions (sections 5.2 and
6.9), stream ids (section 5.1.1), the push cache (section 8.2), PING matching (section 6.7), the monitoring report, and the
frame codec (section 4.1 and sections 6.1 to 6.9). It proves what holds after every event of every run, whatever order Go
chooses when it ranges over a map.

`dafny verify dfyconfig.toml` checks everything.

## How the model is built

| layer | files | what it is |
|---|---|---|
| values | `Wrappers`, `Frames` | frames, crash outcomes, fixed-width integers as subset types with wrap-around written out |
| specification | `StreamState`, `StreamSpec`, `ConnectionSpec` | one function per operation, from an old state to a new one or to a crash |
| program | `Engine`, `EngineLemmas`, `Visits`, `Monitoring` | the classes `Stream`, `Connection` and `Loop`, whose methods assign to fields and loop as the Go code does, each proved to do what its specification function says |
| runs | `Runs`, `Actions`, `Ledger`, `StreamLemmas`, `RequestLemmas` | events, steps, runs; the invariant that every step keeps |
| effects | `ReplyTheorems`, `CommandTheorems`, `EventTheorems`, `InputTheorems` | what every event does to the wire, the streams, the commands and the settings, written out with literal frames, codes and numbers, without the functions of the specification that compute it; what the connection knows as a function of the events |
| theorems | `WireTheorems`, `SendTheorems`, `UploadTheorems`, `HonestLemmas`, `DownloadTheorems`, `PromiseTheorems`, `CrashTheorems`, `CompletionTheorems`, `ReceiveTheorems`, `RefillTheorems`, `IdTheorems`, `PushTheorems`, `PingTheorems`, `LifecycleTheorems` | what holds over whole runs |
| failures | `FailureRuns` | concrete runs in which a law of the documentation fails |
| codec | `Conversions`, `Bits`, `Bytes`, `FrameCodec`, `CodecTheorems`, `FormatTheorems` | bytes, flags, frames and the byte stream; the wire format in numbers |

A run is any sequence of received frames, HTTP commands, PING commands, monitoring commands and shutdowns, since the event
loop handles one event at a time. `Engine.Loop.Run` ties the two halves together: for every list of events the imperative
program goes through the states of a run of the model, so every theorem about runs is a theorem about the program.

A panic, an endless loop and a slice expression out of range end the process. They are outcomes (`Crash`), not excluded
inputs, and the theorems say exactly when they occur. Where a law fails in the code, the model keeps the code, a lemma
gives an input or a run that shows it, and another says when the law holds:

* a reset of a stream that has DATA frames waiting leaves them in its queue, and credit that arrives later makes `MustBeIn`
  panic (run: `FailureRuns.ResetThenCreditPanics`; exact conditions on the state before: `CrashTheorems.StepStrands`,
  `StreamCreditPanics`, `ConnectionCreditPanics`; no such queue is harmless: `StrandedCanPanic`);
* a request body is cut exactly when its chunks can be counted in uint32 (runs for every frame size:
  `FailureRuns.UncuttableBodyEndsTheRun`; exact condition: `RequestLemmas.CuttingIsExact`, which is weaker than "length
  plus chunk size below 2^32");
* HEADERS without END_HEADERS complete a command twice, unless they close the stream by themselves (run:
  `FailureRuns.CutHeadersCompleteTwice`; exact condition: `StreamLemmas.ReceiveFrameCompletes`);
* a DATA frame with END_STREAM that the connection-level drain sends can close its stream without completing the command
  (run: `FailureRuns.DrainClosesInSilence`; exact condition: `StreamLemmas.DrainCloses`; the flag `silentClose` in
  `CompletionTheorems.CompletedExactlyOnClose` and `SilentForEver`);
* `newStream` hands out an illegal id exactly when only even ids are in use, or 2^32 - 1 is (`IdTheorems.NextIdIsFresh`,
  `IdTheorems.EvenIdIsTakenOver`);
* a promise under an id that is in use caches the stream that has the id, under the request headers it has already, and
  closes it; a promise whose header block is cut short caches a stream without request headers, which answers no GET
  (run: `FailureRuns.OwnStreamIsCached`; exact headers of every cache entry: `PromiseTheorems.CacheEntryIsPromised`);
* PRIORITY, RST_STREAM and GOAWAY are encoded without a frame header, so what is written for them is no frame
  (`CodecTheorems.FrameRoundTrip`, `CodecTheorems.HeaderlessIsUnreadable`).

Ghost state records what the program does not: the DATA frames submitted and written on each stream, the credit received,
every state a stream was in, the completions of each command, the ids issued, the insertions into the push cache and the
PING commands issued and answered. Where a theorem could hold of the ghost state alone, another ties that state to what can
be seen from outside: the frames written to the DATA frames of the log (`WireTheorems.LogCarriesData`), the credit to the
WINDOW_UPDATE frames received (`InputTheorems.ServerIsBelieved`, `UploadTheorems.CreditIsWhatCame`), a close in silence to
the credit that caused it (`EventTheorems.SilenceIsCredit`).

## Model

| member | source | states |
|---|---|---|
| SendTheorems.NoLostWakeUp | http2client/internal/connection/connection.go:350-355 | in every state of every run, a frame that waits on a stream of the map exceeds or equals the stream window or the connection window, for every visiting order of every drain |
| SendTheorems.CreditConservation | http2client/internal/stream/stream.go:197-211 | the bytes of the DATA frames that the log has for a stream and its window left add up to its window at creation and all its increments, and those of all DATA frames in the log and the connection window to 65535 and the connection's increments; no stream window is negative and the connection window is at least 1 |
| SendTheorems.UploadInOrder | http2client/internal/connection/connection.go:128-150 | for every stream and body, the DATA frames that the log has for the stream, followed by those that wait, carry its id and the part of the body that its uint32 length covers, which is the whole body if and only if it is below 2^32 bytes; END_STREAM is on the last frame only, and once it is in the log everything is; where no other object had the id, these are all DATA frames of the log with that id |
| SendTheorems.GreedyPrefix | http2client/internal/stream/stream.go:186-235 | with any number of sending streams, the DATA frames that the log has for a stream are the longest prefix of what it submitted whose total stays strictly below its own credit and the connection credit the others left |
| SendTheorems.CreditTotalsDecide | http2client/internal/stream/stream.go:226-235 | two runs in which a stream was handed the same frames, and in which the smaller of its own credit and the connection credit that the other streams left is the same total, have the same DATA frames for it in the log, however the credit was split and ordered |
| SendTheorems.EnoughCreditDrains | http2client/internal/connection/connection.go:350-367 | with a stream credit above its submitted bytes and a connection credit above all submitted bytes, the queue is empty |
| WireTheorems.LogCarriesData | http2client/internal/stream/stream.go:186-195 | in every state of every run and for every id, the DATA frames of the log with that id are, in order, those that the streams with that id have written, oldest object first, and all DATA frames of the log have the bytes that all streams have written |
| WireTheorems.SentIsWritten | http2client/internal/stream/stream.go:186-195 | the part of those frames that belongs to one stream object is what it has written, and is all of them where no other object had the id |
| UploadTheorems.RequestOnTheWire | http2client/internal/connection/connection.go:128-136 | the step that issues an id adds to the log exactly one HEADERS frame, with that id, END_STREAM if and only if the body is empty, END_HEADERS, no priority and the command's headers, and after it DATA frames of that id only |
| UploadTheorems.RequestIsUploaded | http2client/internal/connection/connection.go:128-150 | at any later time, while the id is not issued again: that HEADERS frame is where the request was made, and the DATA frames of the id since then, followed by those that wait, carry the command's body (the part its uint32 length covers), END_STREAM last, in full frames of the size the server had announced before the request |
| UploadTheorems.RequestSpendsCredit | http2client/internal/stream/stream.go:186-235 | at any later time, those frames are the longest prefix that stays strictly below the window announced before the request plus the increments received for its id, and below 65535 plus the increments received for the connection less all other DATA in the log; what is left of both windows is the difference |
| UploadTheorems.CreditIsWhatCame | http2client/internal/stream/stream.go:207-211 | over any stretch of a run in which its id is not issued again, the credit of a stream grows by the increments of the WINDOW_UPDATE frames received for its id |
| InputTheorems.StepPosts | http2client/internal/connection/connection.go:320-355 | what an event does to frame size, first windows, credit, receive window and shutdown flag of the connection, with settings 4 and 5, 16384 and 65535 as numbers |
| InputTheorems.ServerIsBelieved | http2client/internal/connection/connection.go:330-348 | in every state frame size and first window are those announced last, 16384 and 65535 before any, credit and data accounted are the sums over the frames received, and the connection is shut down if and only if there was a GOAWAY for stream 0 or a request to shut down |
| InputTheorems.FirstWindows | http2client/internal/connection/connection.go:386-414 | a stream starts with the send window announced last when it came into being and with a receive window of 65535 |
| InputTheorems.EveryRunStartsAlike | http2client/internal/connection/connection.go:185-208 | every run starts with empty maps, windows of 65535, frame size 16384 and one SETTINGS frame written, which stays first in the log |
| Runs.StepKeeps | http2client/internal/eventloop/loop.go:58-78 | every event that does not crash keeps references, streams, uploads, credit and settledness in order, and only extends histories |
| Runs.RunKeeps | http2client/internal/eventloop/loop.go:58-78 | the invariant holds in every state of every run |
| Runs.RunGrows | http2client/internal/eventloop/loop.go:58-78 | over a run no stream object loses its id, its command, its first window or any of its history |
| Runs.DrainAllKeeps | http2client/internal/connection/connection.go:350-355 | in whatever order the streams are visited, every visited stream ends up settled, and a crash needs a queue left on a closed stream |
| Runs.HandleForStreamKeeps | http2client/internal/connection/connection.go:261-272 | a frame for a stream crashes the client if and only if it is the credit that wakes a queue a reset left behind; otherwise the invariant is kept |
| Runs.DoRequestKeeps | http2client/internal/connection/connection.go:128-136 | a request crashes only where its body cannot be cut, always does for such bodies below 2^32 bytes, and otherwise keeps the invariant |
| StreamLemmas.ProcessPendingKeeps | http2client/internal/stream/stream.go:226-235 | the drain never re-appends the frame it took, stops only where the head does not fit, and panics if and only if a reset left a head that fits |
| StreamLemmas.DrainCloses | http2client/internal/stream/stream.go:226-235 | a drain closes the stream if and only if it is half-closed (remote), END_STREAM waits in its queue and both windows exceed all the bytes that wait |
| StreamLemmas.HeadMayBeSent | http2client/internal/streamstate/streamstate.go:73-88 | a queue on a stream that is not closed implies OPEN or half-closed (remote), and END_STREAM only on its last frame |
| StreamLemmas.AfterDataKeeps | http2client/internal/stream/stream.go:186-195 | a DATA frame sent on an open stream is appended to the log, and both windows shrink by its size, exactly if nothing waits and both windows exceed it; otherwise it is queued at the end; it is never dropped and never out of order |
| StreamLemmas.ReceiveFrameKeeps | http2client/internal/stream/stream.go:94-121 | for every frame in every state: the exact crash condition, and the stream invariant otherwise |
| StreamLemmas.ReceiveFrameStrands | http2client/internal/stream/stream.go:156-163 | a received frame leaves a queue behind on a closed stream if and only if it resets the stream while frames wait |
| StreamLemmas.ReceiveFrameCompletes | http2client/internal/stream/stream.go:118-134 | a received frame completes the command once, and only on closing, if and only if it is not an accepted header block cut short, for a stream with a command, that does not itself close the stream; then it completes it exactly twice |
| RequestLemmas.CuttingIsExact | http2client/internal/connection/connection.go:138-150 | the uint32 loop cuts the body exactly, in order, END_STREAM last, if and only if the body is below 2^32 bytes, the chunk size is positive and the last chunk ends below 2^32; otherwise it loops for ever or panics, as stated |
| RequestLemmas.ChunksCut | http2client/internal/connection/connection.go:138-150 | whenever the loop ends, from whatever chunk, it has cut exactly the bytes its uint32 total covers |
| RequestLemmas.ChunksSized | http2client/internal/connection/connection.go:138-150 | whenever the loop ends, all frames but the last have exactly the chunk size, and the last has from 1 byte to the chunk size |
| RequestLemmas.ZeroChunksNeverEnd | http2client/internal/connection/connection.go:143 | with chunk size 0 the loop guard never becomes false |
| RequestLemmas.SendAllKeeps | http2client/internal/connection/connection.go:143-149 | the frames of a cut body are all accepted in order, without a panic |
| CrashTheorems.StepStrands | http2client/internal/stream/stream.go:156-163 | an event leaves a queue on a closed stream if and only if it resets a stream on which frames wait, which can be read off the connection beforehand |
| CrashTheorems.StepDoesNotPanic | http2client/internal/streamstate/streamstate.go:131-135 | while closed streams have empty queues, no event makes MustBeIn fail |
| CrashTheorems.NoIllegalState | http2client/internal/streamstate/streamstate.go:131-135 | a run in which no stream is reset while frames wait on it never panics in MustBeIn at its next event, whatever that is |
| CrashTheorems.StreamCreditPanics | http2client/internal/stream/stream.go:207-211 | a frame for a stream panics if and only if it is credit that wakes what a reset left behind |
| CrashTheorems.ConnectionCreditPanics | http2client/internal/connection/connection.go:350-355 | in some visiting order the credit makes the client panic if and only if, on the state before, a reset left a frame on a stream of the map that fits its window and the increased connection window |
| CrashTheorems.StrandedCanPanic | http2client/internal/stream/stream.go:226-235 | from any state with frames left behind on a closed stream, one WINDOW_UPDATE for the stream, or that and one for the connection, makes the client panic, provided such increments can exceed the first frame |
| FailureRuns.ResetThenCreditPanics | http2client/internal/stream/stream.go:226-235 | a run of four events, SETTINGS, POST, RST_STREAM, WINDOW_UPDATE, that ends in the panic |
| FailureRuns.CutHeadersCompleteTwice | http2client/internal/stream/stream.go:118-134 | a run of two events, a request and HEADERS without END_HEADERS, after which the command has been completed twice |
| FailureRuns.DrainClosesInSilence | http2client/internal/connection/connection.go:350-355 | a run of four events, SETTINGS, POST, the response, WINDOW_UPDATE for the connection, after which the stream is closed and its command was never completed |
| FailureRuns.OwnStreamIsCached | http2client/internal/connection/connection.go:288-306 | a run of two events, a request and the promise of any GET under the id of that request, after which the stream is closed and cached under the client's own request headers |
| FailureRuns.UncuttableBodyEndsTheRun | http2client/internal/connection/connection.go:138-150 | after SETTINGS with any frame size, a POST of any body below 2^32 bytes ends the process if and only if the body cannot be cut: in an endless loop for frame size 0, in a panic otherwise |
| CompletionTheorems.CompletedExactlyOnClose | http2client/internal/stream/stream.go:257-269 | where headers are complete and commands executed once, a bound command has been completed exactly once if its stream is closed, unless the connection-level drain closed it, and otherwise never |
| CompletionTheorems.SilentForEver | http2client/internal/connection/connection.go:350-355 | the command of a stream closed by the connection-level drain is not completed at any later time of the run |
| CompletionTheorems.CompletedAtMostOnce | http2client/internal/connection/connection.go:87-118 | no command is completed twice, bound or not |
| CompletionTheorems.BoundOnce | http2client/internal/stream/stream.go:291-300 | a stream keeps its first command for ever and no other stream has it |
| ReceiveTheorems.StreamIsolation | http2client/internal/stream/stream.go:94-134 | the response a started stream accumulates over any stretch of a run is that of the frames addressed to it, in order, and independent of everything else |
| ReceiveTheorems.ReceiveIntake | http2client/internal/streamstate/streamstate.go:31-71 | what a frame adds to the response depends on the frame and on whether the remote end is still open, not on the state of the upload |
| DownloadTheorems.DownloadIsComplete | http2client/internal/stream/stream.go:94-134 | for every request of every run, what its stream has collected is the fold of the frames addressed to it since the request, and once it is closed, without an RST_STREAM received or sent for it since and not by credit for the connection, its command was completed with exactly these headers and this body |
| DownloadTheorems.DownloadIsTheAnswer | http2client/internal/stream/stream.go:257-269 | where commands are executed once and headers are complete, every completion of that command is that response |
| DownloadTheorems.CompletedWithWhatCame | http2client/internal/stream/stream.go:257-269 | in every state, the command of a closed stream, for whose id no RST_STREAM was received or sent and which credit for the connection has not closed, was completed with the headers and body the stream now holds, promised streams included |
| DownloadTheorems.ResetIsReported | http2client/internal/stream/stream.go:136-142 | an RST_STREAM received for a stream with a command that is neither idle nor closed appends exactly one completion, the failure with the server's code, writes nothing, and, where commands are executed once and headers are complete, the command has no other completion at any later time |
| DownloadTheorems.RefusalIsReported | http2client/internal/stream/stream.go:156-163 | whenever the log gains an RST_STREAM, a frame for that stream was out of turn (code 5), or a header block cut short or a promise of something other than a GET (code 7); the stream was not closed and is now, and its command is told the failure with that code, and nothing else where commands are executed once and headers are complete |
| EventTheorems.EveryEventHasItsEffect | http2client/internal/eventloop/loop.go:58-78 | in every run every event has the effect written out for it: the frames appended to the log, the completions, the stream it reaches, the maps; everything else is as before |
| EventTheorems.NoResetNoError | http2client/internal/stream/stream.go:136-163 | over any stretch of a run in which no RST_STREAM for its id is received or sent, a stream without an error stays without one |
| EventTheorems.SilenceIsCredit | http2client/internal/connection/connection.go:350-355 | a stream has closed without a word to its command if and only if a WINDOW_UPDATE for the connection has closed it |
| ReplyTheorems.ReceivedIsAnswered | http2client/internal/stream/stream.go:94-163 | a received frame other than WINDOW_UPDATE, in every state: the RST_STREAM (5 or 7) or WINDOW_UPDATE written, if any, the completions with their results, the new state, the headers and the body, and nothing else |
| ReplyTheorems.CreditIsAnswered | http2client/internal/stream/stream.go:207-235 | WINDOW_UPDATE for a stream releases DATA frames and nothing else, leaves what was received alone, and completes the command with the response if it closes the stream |
| ReplyTheorems.FrameHasEffect | http2client/internal/connection/connection.go:261-286 | the same on the connection: the stream of the map or a new idle one, the connection's own WINDOW_UPDATE below 16384, RST_STREAM for an idle stream ignored |
| ReplyTheorems.PromiseHasEffect | http2client/internal/connection/connection.go:288-306 | a promise on a stream that is open or half-closed (local) reserves the promised stream with its headers; a GET is cached, anything else refused with code 7, a promised stream in use refused with code 5; any other promise changes nothing |
| ReplyTheorems.ConnectionAnswers | http2client/internal/connection/connection.go:228-251 | SETTINGS and PING for the connection, and PING commands, write exactly the acknowledgement or PING they call for, with the pending map and the next payload to match, and leave streams, cache and commands alone; other events of the connection write nothing |
| ReplyTheorems.CreditForAll | http2client/internal/connection/connection.go:350-355 | WINDOW_UPDATE for the connection releases DATA frames and nothing else, and completes no command |
| CommandTheorems.CommandHasEffect | http2client/internal/connection/connection.go:87-136 | a GET is answered from the push cache if and only if an entry has method GET and the command's path, on the stream of such an entry; otherwise a GET, PUT or POST is sent, once, and a command with another method or none is turned down; each with its completions, its frames and its change of the maps |
| CommandTheorems.FirstHeader | http2client/internal/connection/connection.go:308-315 | a header is looked up as the value of the first one with the name, or empty |
| RefillTheorems.WindowsRefilled | http2client/internal/connection/connection.go:320-328 | over any run the receive windows of the connection and of every stream stay between 16384 and 65535, bytes received and window left are 65535 and the increments sent, and the WINDOW_UPDATE frames in the log carry exactly those increments, each from 1 to 2^31-1 |
| RefillTheorems.AccountRefills | http2client/internal/stream/stream.go:216-224 | the same for one DATA frame on one stream |
| IdTheorems.NextIdIsFresh | http2client/internal/connection/connection.go:400-427 | the id chosen is odd, unused and above all odd ids if and only if the map is empty or holds an odd id, and 2^32-1 is not in use; it is then 1, or 2 more than an id in use, and it is 1 where 2^32-1 is in use |
| IdTheorems.EvenIdsMisleadTheCounter | http2client/internal/connection/connection.go:402-410 | where only even ids are in use the zeros in the slice make the choice 2 |
| IdTheorems.IdsIncrease | http2client/internal/connection/connection.go:400-414 | ids issued over a run are odd, strictly increasing and all in use |
| IdTheorems.EntriesAreKept | http2client/internal/connection/connection.go:386-414 | while ids can be allocated, an id in use leads to the same stream object for ever and is not issued again |
| IdTheorems.FirstRequestDecides | http2client/internal/connection/connection.go:400-414 | for a whole run it is enough that the first request finds an empty map or an odd id, and that 2^32-1 is not in use at the end |
| IdTheorems.FreshIdsIsolate | http2client/internal/connection/connection.go:261-277 | with fresh ids stream isolation holds for every started stream of the map, promises of its own id excluded |
| IdTheorems.EvenIdIsTakenOver | http2client/internal/connection/connection.go:400-414 | a run in which a request takes id 2 from a stream that a frame had created |
| PushTheorems.CacheMirrorsStreams | http2client/internal/connection/connection.go:288-306 | with fresh ids every cache entry is the object that the stream map holds for that id |
| PushTheorems.PromisesAreUsedOnce | http2client/internal/connection/connection.go:105-118 | GETs answered from the cache never exceed the insertions, per id, with one insertion left for an entry still there |
| PromiseTheorems.CacheEntryIsPromised | http2client/internal/connection/connection.go:288-306 | in every state, every cache entry goes back to the promise of a GET, on a stream open or half-closed (local) then, and its stream has the headers of that promise if the promised id was unused then and the block complete, none if it was cut short, and those it had before if the id was in use |
| PromiseTheorems.GetIsAnsweredByPromise | http2client/internal/connection/connection.go:105-118 | a GET answered from the cache gets the stream of such a promise, which was of the same path if the promised id was unused and the block complete |
| PingTheorems.PendingPingsAreExact | http2client/internal/connection/connection.go:178-183 | before the payload wraps, the pending map holds exactly the payloads issued and not answered, with their commands, all below the next payload |
| PingTheorems.PingsCompleteOnce | http2client/internal/connection/connection.go:232-242 | no PING command is completed twice |
| PingTheorems.OnlyAnAckCompletes | http2client/internal/connection/connection.go:232-242 | a PING command is completed by the acknowledgement that carries its payload and by no other event |
| PingTheorems.WrappedPayloadForgets | http2client/internal/connection/connection.go:178-183 | after 2^64 PINGs the next one replaces a command that still waits under payload 0 |
| LifecycleTheorems.LifecycleIsMonotone | http2client/internal/streamstate/streamstate.go:31-109 | over any run every state a stream was in follows the diagram of RFC 7540, section 5.1, but for a reset while idle; ranks never fall, CLOSED is final, RESERVED_LOCAL never occurs |
| LifecycleTheorems.IdleStreamsCloseByRefusal | http2client/internal/streamstate/streamstate.go:97-108 | which frames close an idle stream, exactly |
| StreamState.IncomingWalks | http2client/internal/streamstate/streamstate.go:31-71 | every frame received moves along the diagram, or is refused, exactly in the states listed |
| StreamState.OutgoingWalks | http2client/internal/streamstate/streamstate.go:73-109 | every frame sent moves along the diagram |
| StreamState.WalkRises | http2client/internal/streamstate/streamstate.go:11-19 | along any walk ranks rise with every change and CLOSED is final |
| Actions.StepActs | http2client/internal/connection/connection.go:219-306 | every event is a sequence of small actions that belong to it and together have its effect |
| Engine.Loop.Run | http2client/internal/eventloop/loop.go:58-78 | for every list of events the program goes through a run of the model that starts with a new connection, in which the invariant holds, and panics only where the model does |
| Engine.Loop.Handle | http2client/internal/eventloop/loop.go:60-71 | one event is one step of the model, for a legal visiting order |
| Engine.Stream.constructor | http2client/internal/stream/stream.go:78-92 | a new stream is idle, empty, and has the given windows |
| Engine.Stream.HandleIncomingFrame | http2client/internal/streamstate/streamstate.go:31-71 | the states set one after the other, or a STREAM_CLOSED error that changes nothing |
| Engine.Stream.HandleOutgoingFrame | http2client/internal/streamstate/streamstate.go:73-109 | the states set one after the other, or the panic of MustBeIn |
| Engine.Stream.SendFrame | http2client/internal/stream/stream.go:165-182 | new stream, writer and completions as specified, or the specified panic |
| Engine.Stream.SendDataFrame | http2client/internal/stream/stream.go:186-195 | the frame is appended to the log and both windows reduced, or it is appended to the queue, or the panic |
| Engine.Stream.CloseWithError | http2client/internal/stream/stream.go:156-163 | RST_STREAM and the command's failure for a stream that is not closed, nothing for one that is |
| Engine.Stream.ProcessPendingDataFrames | http2client/internal/stream/stream.go:226-235 | the loop has the effect of the recursive drain, panics included, and completes no command |
| Engine.Stream.FlowControlForIncomingDataFrame | http2client/internal/stream/stream.go:216-224 | the receive window and the WINDOW_UPDATE, if any, as specified |
| Engine.Stream.ReceiveFrame | http2client/internal/stream/stream.go:94-121 | new stream, writer and completions as specified, or the specified panic; a reset of a stream that is not closed tells its command the server's code |
| Engine.Stream.FinalizeCommand | http2client/internal/stream/stream.go:257-269 | the command of the stream, if any, is completed with its error or with the response collected |
| Engine.Stream.AssociateWithCommand | http2client/internal/stream/stream.go:291-300 | the command is bound, and completed if the stream is closed, unless there is one already |
| Engine.Connection.constructor | http2client/internal/connection/connection.go:185-208 | a new connection has no streams, has written nothing, and has the initial windows of 65535 |
| Engine.Loop.constructor | http2client/internal/connection/connection.go:82-84 | the loop starts with a new connection that has written its SETTINGS frame |
| Engine.Connection.ExecuteHttpCommand | http2client/internal/connection/connection.go:87-103 | new state of connection and streams as specified, for some order of the push cache |
| Engine.Connection.ExecuteGetCommand | http2client/internal/connection/connection.go:105-118 | a matching promise is taken out of the cache and bound, and a request is sent where there is none |
| Engine.Connection.FindStreamCreatedWithPushPromise | http2client/internal/connection/connection.go:167-176 | the match visited last, if any: a stream of the cache with method GET and the path that is looked for |
| Engine.Connection.DoRequest | http2client/internal/connection/connection.go:128-136 | a new stream has sent its headers and body as specified, or the specified panic; the log has gained the HEADERS frame of the request and then only DATA |
| Engine.Connection.SendDataFrames | http2client/internal/connection/connection.go:138-150 | on a stream in any state, the uint32 loop sends each chunk before it cuts the next, and ends in the specified state, panic or endless loop |
| EngineLemmas.SendFromIsSendChunks | http2client/internal/connection/connection.go:143-149 | on an open stream cutting and sending in turn is cutting everything first and then sending it, panics included |
| Engine.Connection.NextStreamId | http2client/internal/connection/connection.go:400-411 | the slice padded with zeros and its maximum yield the id specified on the set of ids |
| Engine.Connection.MaxOf | http2client/internal/connection/connection.go:416-427 | an element that none exceeds, and 0 for no elements |
| Engine.Connection.GetOrCreateStream | http2client/internal/connection/connection.go:386-393 | the stream of the map, new and entered if there was none |
| Engine.Connection.HandleWindowUpdateFrame | http2client/internal/connection/connection.go:350-355 | the credit is added and every stream of the map drained once, in some order |
| Engine.Connection.HandleIncomingPushPromiseFrame | http2client/internal/connection/connection.go:288-306 | promised stream created, promised, and refused or cached as specified |
| Engine.Connection.HandleFrameForStream | http2client/internal/connection/connection.go:261-286 | routing by frame type, idle streams not reset |
| Engine.Connection.HandleFrameForConnection | http2client/internal/connection/connection.go:228-251 | effect by frame type, nothing for the other types |
| Engine.Connection.HandleIncomingFrame | http2client/internal/connection/connection.go:219-226 | routing by stream id 0 |
| Engine.Connection.HandleSettingsFrame | http2client/internal/connection/connection.go:330-348 | the two settings the client knows are stored as sent, and an acknowledgement written |
| Engine.Connection.FlowControlForIncomingDataFrame | http2client/internal/connection/connection.go:320-328 | the receive window and the WINDOW_UPDATE, if any, as specified |
| Engine.Connection.ExecutePingCommand | http2client/internal/connection/connection.go:178-183 | the command waits under the payload that is written, and the next payload is one more modulo 2^64 |
| Engine.Connection.HandlePingFrame | http2client/internal/connection/connection.go:232-242 | the acknowledged command leaves the map, and a PING is answered |
| Engine.Connection.ExecuteMonitoringCommand | http2client/internal/connection/connection.go:159-165 | in whatever order the map is visited, the report has every stream once, in strictly increasing order of ids, with its state and cache flag |
| Monitoring.ReportIsDetermined | http2client/internal/connection/connection.go:159-165 | two reports on the same connection are equal, have one entry per stream in strictly increasing order of ids, and every entry tells method, path and state of its stream and whether its id is in the push cache |
| Monitoring.MonitoringCommandResult.AddStreamInfo | http2client/internal/eventloop/commands/monitoringCmd.go:43-52 | the slice is sorted afterwards and has gained the new entry and nothing else |
| Monitoring.AddingReports | http2client/internal/eventloop/commands/monitoringCmd.go:43-64 | adding a stream not yet visited turns a report on the visited streams into one on one stream more |
| Monitoring.Sort | http2client/internal/eventloop/commands/monitoringCmd.go:51-64 | sorted by stream id, and a permutation, by Less and Swap alone |
| Bytes.Uint32IgnoreFirstBit | http2client/frames/decodingUtil.go:12-19 | for bytes of any length, the big-endian value of the last four modulo 2^31 |
| Bytes.UnpackPacked | http2client/frames/frame.go:56-71 | unpacking what was packed into k bytes gives the number modulo 256^k |
| Bits.ClearFirstBit | http2client/frames/decodingUtil.go:17 | masking with 0x7F is the remainder modulo 128 |
| FrameCodec.EncodeHeader | http2client/frames/frame.go:56-71 | the reused 4-byte buffer yields 24 bits of length, type, flags and id |
| FrameCodec.DecodeSettingsPayload | http2client/frames/settingsFrame.go:70-85 | the index loop finds the settings of the payload, the last value of a repeated one, or None for an unknown one |
| FrameCodec.EncodeSettings | http2client/frames/settingsFrame.go:108-121 | in some order of the map, every setting once |
| FrameCodec.EncodeData | http2client/frames/dataFrame.go:44-58 | header with type 0x00, the END_STREAM flag 0x01 and the length, then the data |
| FrameCodec.EncodePing | http2client/frames/pingFrame.go:41-58 | header with type 0x06 and the ACK flag 0x01, then eight bytes of payload |
| FrameCodec.EncodeWindowUpdate | http2client/frames/windowUpdateFrame.go:32-40 | header with type 0x08 and without flags, then four bytes of increment |
| CodecTheorems.HeaderRoundTrip | http2client/frames/frame.go:56-87 | a decoded header has the type and the flags encoded, the length modulo 2^24 and the id modulo 2^31 |
| CodecTheorems.FrameRoundTrip | http2client/internal/connection/connection.go:450-466 | for every frame of every type, reading what Encode wrote gives the frame back and no bytes more if and only if it is not PRIORITY, RST_STREAM or GOAWAY, has a payload below 2^24 bytes and 31-bit ids and increments, known settings, no Priority flag, and id 0 if PING |
| CodecTheorems.StreamRoundTrip | http2client/internal/connection/connection.go:450-466 | for every list of such frames and every order of their settings, reading frame after frame from the concatenated encodings gives the list and consumes every byte |
| CodecTheorems.SettingsRoundTrip | http2client/frames/settingsFrame.go:70-121 | settings written in any order parse to the settings written, or to an error if one is unknown |
| CodecTheorems.HeaderlessIsUnreadable | http2client/frames/rstStreamFrame.go:31-35 | PRIORITY, RST_STREAM and GOAWAY are encoded to fewer bytes than a frame header has |
| CodecTheorems.ReadIsBounded | http2client/internal/connection/connection.go:450-466 | every frame read has a 31-bit id, and DATA fewer than 2^24 bytes |
| CodecTheorems.PaddingIsInvisible | http2client/frames/frame.go:97-104 | DATA, HEADERS and PUSH_PROMISE with padding of 0 to 255 bytes decode to what they do without, errors included |
| CodecTheorems.StripPaddingExact | http2client/frames/frame.go:97-104 | stripping undoes padding and accepts nothing else |
| CodecTheorems.PriorityIsInvisible | http2client/frames/headersFrame.go:35-73 | a priority section changes the Priority flag only if a header block follows, and is an error if none does |
| CodecTheorems.DecodePanics | http2client/frames/pushPromiseFrame.go:31-52 | decoding panics if and only if a padded frame has no payload or a promise no promised id |
| FormatTheorems.BytesWritten | http2client/frames/frame.go:12-71 | every frame type byte by byte: three bytes of length, the type (0x00, 0x01, 0x04, 0x05, 0x06, 0x08), the flags 0x01 and 0x04, four bytes of id, and the payload, each number most significant byte first; PRIORITY, RST_STREAM and GOAWAY without a header |
| FormatTheorems.SettingsWritten | http2client/frames/settingsFrame.go:108-121 | setting k of the payload is two bytes of its number and four of its value |
| FormatTheorems.BytesRead | http2client/internal/connection/connection.go:450-466 | a frame is read from nine bytes of header, length in three, type, flags, 31 bits of id, and as many bytes of payload as the length says; nothing is read from fewer |
| FormatTheorems.ContentRead | http2client/frames/headersFrame.go:35-73 | types 0x00, 0x01 and 0x05 without padding: flags 0x01 and 0x04, data, header block, 31 bits of promised id |
| FormatTheorems.FixedRead | http2client/frames/windowUpdateFrame.go:21-26 | types 0x02, 0x03, 0x06, 0x07 and 0x08: the frame that their bytes stand for, or an error exactly for the lengths and ids the code rejects; no type above 0x08 |
| FormatTheorems.SettingsRead | http2client/frames/settingsFrame.go:70-85 | type 0x04: settings 1 to 6 in groups of six bytes, the last value of a repeated one, flag 0x01 as ACK, or an error exactly for a length that is no multiple of six or an unknown number |

## Left out

- HPACK: header blocks are coded by two functions over a table, of which the round trips assume that decoding inverts encoding.
- TLS, sockets, the client preface, frame filters, logging and timeouts; writing a frame appends it to a log, reading takes bytes from a sequence. A write is recorded as the frame, also for RST_STREAM, whose bytes on the wire lack a header.
- Goroutines and channels: a run is the sequence of events in the order in which the loop takes them. The reader goroutine, its `Shutdown` on a read error and `conn.Close` are not modelled.
- int64 overflow: windows are unbounded integers; int64 would need more than 2^32 increments to overflow.
- `conn.error()`: the field `err` of the connection is never set, so the check at the head of ExecuteHttpCommand never fires.
- Commands are values with an id; their completion is recorded in a log, and their callback and response object are not modelled. Error texts are reduced to who closed the stream and with which code.
- The encoders of HEADERS and PUSH_PROMISE, and all decoders but the settings loop and `uint32_ignoreFirstBit`, are functions on byte sequences.
- Memory addresses of buffers: sharing of the header-block buffer and of slices between frames is not modelled.
- Section 6.9.2 of RFC 7540 (adjusting open windows when SETTINGS_INITIAL_WINDOW_SIZE changes), CONTINUATION and sending GOAWAY: the client does not implement them. Conservation is relative to the window a stream had at its creation.
- HEADERS received in state idle leave the stream idle in the code; the diagram of section 5.1 would open it. The theorems follow the code.
- Name tables, the command-line parser, the daemon, rpc, the dumper, wiretap, URLs and custom headers: they build commands or print frames, and neither read nor change streams, windows, ids or the frames in flight.
- RefillTheorems.WindowsRefilled: asks for DATA payloads below 2^24 bytes, which CodecTheorems.ReadIsBounded shows of every frame read.

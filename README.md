# Real-time transcription pipeline, modelled in Dafny

This project models the transcription pipeline of a small web application. The
browser records audio and measures its energy. It sends chunks above a speech
threshold over a WebSocket. The server forwards each chunk to a mock streaming
transcription engine. The engine answers each long-enough chunk with the next
word of a fixed script. The browser assembles these words into a live caption
and a history of finished utterances.

Modules:

- `Protocol` (protocol.dfy) holds the shared values: bytes, `Option`, the
  `{text, isFinal}` increment, parsed text frames and binary/text frames.
- `Engine` (engine.dfy) is the mock engine `streamToGemini` of
  backend/gemini.js.
  - It is modelled as a class `MockEngine` with the closure variables
    `isActive` and `wordIndex`, plus a counter of pending timer callbacks.
  - Every callback has the same 80 ms delay and reads the state only when it
    fires, so firing one is an explicit step, taken in FIFO order.
  - Its methods are proved against the pure steps `WriteStep`, `FireStep` and
    `EndStep`. The lemmas are about `Run` over arbitrary input traces.
- `Server` (server.dfy) is the per-connection session `handleConnection` of
  backend/ws.js.
  - It is modelled as a class `Session` holding the flag `isSessionActive`,
    the engine and the log of messages passed to `ws.send`.
  - The socket's `readyState` is an input.
- `Vad` (vad.dfy) covers the energy reading of `setupVAD`'s `analyze` loop and
  the chunk gate of `ondataavailable`.
  - The loop is a method over an `array` of frequency bins.
  - The average is kept exactly as the pair `(sum, bins)`.
  - "Average above 20" is the integer test `sum > 20 * bins`.
- `Captions` (captions.dfy) is the caption assembler.
  - `(liveText, history)` is updated by `handleTranscriptData`, by the
    `ws.onmessage` filter and by the finalization in `stopTranscription`.
  - It includes ECMAScript `String.prototype.trim`.
- `Frontend` (frontend.dfy) is the `Transcription` component as a class. It
  holds the energy ref, the caption state and the log of chunks sent, with
  trace lemmas over its event steps.
- `Pipeline` (pipeline.dfy) joins server and client: long chunks on a fresh
  connection come back as script increments and are assembled into captions.

## Model

| member | source | states |
|---|---|---|
| Engine.IncrementAt | backend/gemini.js:38-46 | the increment for a cursor: its text is never empty and ends with the appended space, and it is final whenever the advanced cursor is a multiple of five |
| Engine.WriteStep | backend/gemini.js:20-56 | one more pending callback exactly when the engine is active and the buffer present and at least 100 bytes long; flag, cursor and script unchanged |
| Engine.FireStep | backend/gemini.js:34-48 | one callback is consumed; it emits exactly when the engine is active, and then the text is non-empty and the cursor advances by one, otherwise the cursor stays |
| Engine.EndStep | backend/gemini.js:57-59 | the engine is inactive; cursor, pending callbacks and script unchanged |
| Engine.FinalityRule | backend/gemini.js:38-41 | an increment is final exactly when its text ends in ". " or the advanced cursor is a multiple of five |
| Engine.FinalWithinFive | backend/gemini.js:39-41 | among any five consecutive emissions (cursor positions) at least one is final |
| Engine.RejectedWriteChangesNothing | backend/gemini.js:52-56 | a write with an absent buffer, on an ended engine, or with fewer than 100 bytes changes nothing and schedules nothing |
| Engine.EndIdempotent | backend/gemini.js:57-59 | `end()` deactivates, and calling it twice is the same as once |
| Engine.RunEmitsScript | backend/gemini.js:34-46 | for any inputs, the engine emits the script in order from its cursor, the cursor advances by exactly the number of emissions, and the script never changes |
| Engine.EmissionsBoundedByWrites | backend/gemini.js:20-56 | emissions plus pending callbacks never exceed the initial pending callbacks plus the writes the engine accepted, each judged in the state it met |
| Engine.NothingAfterEnd | backend/gemini.js:35-39 | once ended, no input re-activates the engine, emits, moves the cursor or schedules a callback |
| Engine.MockEngine.constructor | backend/gemini.js:8-18 | a new engine is active, at word 0 of the mock script, with no timer pending |
| Engine.MockEngine.Write | backend/gemini.js:52-56 | the new state is `WriteStep`: one more pending callback exactly when the buffer is accepted |
| Engine.MockEngine.ProcessChunk | backend/gemini.js:20-49 | the inactive and short-buffer guards, then one scheduled callback |
| Engine.MockEngine.Fire | backend/gemini.js:34-48 | the oldest callback runs: while active it returns the increment for the cursor and advances it by one; otherwise it returns nothing and the cursor stays |
| Engine.MockEngine.End | backend/gemini.js:57-59 | deactivates and leaves cursor and pending callbacks as they are |
| Server.MessageStep | backend/ws.js:22-41 | an inactive session ignores every frame; no frame sends anything or moves the engine's cursor; the session becomes inactive only on a stop frame, and then the engine is ended |
| Server.Deliver | backend/ws.js:11-19 | session and engine unchanged; the log is unchanged or gains this message, and only when the socket is open, the session active and the text non-empty |
| Server.Terminate | backend/ws.js:43-52 | the session is inactive and the engine ended; log, cursor and pending callbacks unchanged |
| Server.StepSends | backend/ws.js:11-52 | one event sends at most the increment at the engine's cursor, and only by advancing the cursor |
| Server.SentInScriptOrder | backend/ws.js:11-19 | the log after any events is the old log followed by the script increments at the cursors `DeliveredAt`, unaltered |
| Server.DeliveredInOrder | backend/ws.js:11-19 | those cursors strictly increase and lie between the engine's start and end cursor: nothing is reordered or repeated |
| Server.FireStep | backend/ws.js:11-19 | a pending engine callback fires: one callback consumed, the cursor advances exactly when the engine is active, and the log gains the increment at the cursor exactly when the socket is open, the session active and the engine active |
| Server.StepKeepsInv | backend/ws.js:22-52 | every event keeps "session inactive implies engine ended" |
| Server.BinaryForwarded | backend/ws.js:25-28 | a binary frame on an active session keeps it active, sends nothing, leaves the engine's flag, cursor and script, and schedules one callback exactly when the engine is active and the frame holds at least 100 bytes |
| Server.IgnoredTextFrame | backend/ws.js:29-40 | a text frame that fails to parse or has another `type` changes nothing |
| Server.StopCloseErrorAgree | backend/ws.js:32-52 | stop, close and error have the same effect: inactive session, ended engine, nothing sent; repeating them is harmless |
| Server.DeliverSpec | backend/ws.js:11-19 | a message is sent exactly when the socket is open, the session active and the text non-empty, and it carries `text` and `isFinal` unchanged |
| Server.InactiveIsTerminal | backend/ws.js:8-52 | once inactive, no later event re-activates the session or its engine, sends anything, or advances the engine |
| Server.NoLateDelivery | backend/ws.js:11-19 | after stop, close or error, nothing more is sent even when callbacks scheduled earlier still fire |
| Server.SentAreScriptIncrements | backend/ws.js:11-19 | the log only grows, and each new message is a non-empty script increment taken between the engine's start and end cursor |
| Server.SentBoundedByFrames | backend/ws.js:22-28 | messages sent plus pending callbacks never exceed the initial ones plus the long binary frames |
| Server.Session.constructor | backend/ws.js:7-20 | a new session is active with a fresh engine and nothing sent, and satisfies the session invariant |
| Server.Session.OnMessage | backend/ws.js:22-41 | the new state is `MessageStep`: ignored while inactive, binary forwarded, a stop frame terminates, other text ignored; the invariant "inactive session, ended engine" is kept (as by every method of the class) |
| Server.Session.OnClose | backend/ws.js:43-46 | the session is inactive and the engine ended; nothing is sent |
| Server.Session.OnError | backend/ws.js:48-52 | the same effect as a close |
| Server.Session.OnData | backend/ws.js:11-19 | the new state is `Deliver`; the log is unchanged or gains exactly this non-empty message |
| Server.Session.FireTimer | backend/ws.js:11-20 | the oldest engine callback fires and its output goes through the outbound filter |
| Vad.AboveThreshold | frontend/src/components/Transcription.jsx:102 | the integer test agrees with the mean: with bins present it holds exactly when the real average `sum / bins` is above 20 |
| Vad.Reading | frontend/src/components/Transcription.jsx:60-64 | the reading of a window counts its bins and its sum lies between 0 and 255 per bin |
| Vad.Gate | frontend/src/components/Transcription.jsx:99-108 | a chunk handed to `ws.send` is the recorded chunk, non-empty, on an open socket; nothing passes while the energy is not above 20 |
| Vad.Sum | frontend/src/components/Transcription.jsx:60-63 | the sum of the bins lies between 0 and 255 per bin |
| Vad.MeasureEnergy | frontend/src/components/Transcription.jsx:54-67 | the loop computes the exact reading `Sum(bins) / bins` of the array, an average in [0, 255] |
| Vad.SumBoundedByMax | frontend/src/components/Transcription.jsx:60-64 | bins all at most a bound sum to at most that bound per bin |
| Vad.QuietWindowIsSilence | frontend/src/components/Transcription.jsx:59-67 | a window with no bin above 20 never reads as speech |
| Vad.GateDecision | frontend/src/components/Transcription.jsx:99-108 | a chunk is sent exactly when the socket is open, it is non-empty and the energy is above 20, and then unchanged; silence and the reset reading never pass |
| Captions.Trim | frontend/src/components/Transcription.jsx:159 | `trim()` is empty exactly when the string is all whitespace, and otherwise neither starts nor ends with whitespace |
| Captions.HandleTranscriptData | frontend/src/components/Transcription.jsx:165-175 | empty text changes nothing; the history keeps its entries and gains at most one |
| Captions.OnMessage | frontend/src/components/Transcription.jsx:115-124 | the captions change only for a parsed `'transcription'` frame with non-empty text |
| Captions.FinalizeOnStop | frontend/src/components/Transcription.jsx:158-162 | a blank live text changes nothing; the history keeps its entries and gains at most one |
| Captions.TrimStart | frontend/src/components/Transcription.jsx:159 | the result is a suffix, everything dropped is whitespace, and it does not start with whitespace |
| Captions.TrimEnd | frontend/src/components/Transcription.jsx:159 | the result is a prefix, everything dropped is whitespace, and it does not end with whitespace |
| Captions.OnMessageFilter | frontend/src/components/Transcription.jsx:115-124 | an unparsable frame, another `type`, or empty text leaves the captions unchanged |
| Captions.HandleTranscriptDataSpec | frontend/src/components/Transcription.jsx:165-175 | a non-final event appends its text to the live text and keeps the history; a final event appends exactly `liveText + text` and clears the live text |
| Captions.FinalizeOnStopSpec | frontend/src/components/Transcription.jsx:158-162 | on stop a non-blank live text is committed trimmed as one entry and cleared; a blank one leaves both fields; stopping twice equals stopping once |
| Captions.AssembleAppend | frontend/src/components/Transcription.jsx:165-175 | handling two event sequences in turn is handling their concatenation |
| Captions.AssembleConservesText | frontend/src/components/Transcription.jsx:165-175 | no text is lost, duplicated or reordered: the joined history plus live text grows by exactly the fragments, in order |
| Captions.AssembleHistoryGrows | frontend/src/components/Transcription.jsx:169-174 | the history grows only at the end, by one entry per final event, and old entries are never modified |
| Captions.LiveTextAccumulates | frontend/src/components/Transcription.jsx:172-173 | without a final event the fragments accumulate in the live text |
| Captions.LiveTextSinceLastFinal | frontend/src/components/Transcription.jsx:169-173 | after a final event the live text holds exactly the later fragments, and the last entry is that utterance |
| Captions.OneUtterance | frontend/src/components/Transcription.jsx:165-175 | non-final fragments closed by a final one become exactly one entry: the live text and all fragments joined |
| Captions.ExampleThreeFragments | frontend/src/components/Transcription.jsx:165-175 | `t1`, `t2` then final `t3` give the single entry "t1t2t3" |
| Captions.ExampleStopCommits | frontend/src/components/Transcription.jsx:158-162 | `t1` followed by a manual stop gives the single entry "t1" |
| Frontend.SampleStep | frontend/src/components/Transcription.jsx:54-67 | captions and sent chunks unchanged; without recording nothing changes; while recording the reading covers the window's bins, with a sum in range |
| Frontend.ChunkStep | frontend/src/components/Transcription.jsx:94-109 | the energy and captions are unchanged; the chunk is sent, unchanged, only on an open socket, non-empty, above the threshold |
| Frontend.StopStep | frontend/src/components/Transcription.jsx:133-163 | the reading is no longer above the threshold, nothing is sent, a blank live text leaves the captions, and the history gains at most one entry |
| Frontend.StepSends | frontend/src/components/Transcription.jsx:99-108 | one event sends nothing or exactly the non-empty chunk it offers |
| Frontend.HistoryOnlyGrows | frontend/src/components/Transcription.jsx:158-175 | over any events the history only grows at the end |
| Frontend.GateClosedUntilSpeech | frontend/src/components/Transcription.jsx:99-103 | while no recording frame reads above the threshold, no chunk is sent |
| Frontend.SentChunksWereOffered | frontend/src/components/Transcription.jsx:99-108 | every chunk sent was offered, non-empty, on an open socket, and is sent unchanged, at most once per offer |
| Frontend.StopClosesGate | frontend/src/components/Transcription.jsx:142 | stop resets the reading to 0, so the next chunk is dropped |
| Frontend.NothingSentBeforeSpeech | frontend/src/components/Transcription.jsx:15-19 | from mount, nothing is sent before a recording frame reads above 20 |
| Frontend.Transcription.constructor | frontend/src/components/Transcription.jsx:3-19 | energy 0, empty live text and history, nothing sent |
| Frontend.Transcription.Analyze | frontend/src/components/Transcription.jsx:54-70 | while recording, the energy ref becomes the reading of the new window |
| Frontend.Transcription.OnDataAvailable | frontend/src/components/Transcription.jsx:94-109 | the new state is the gated send `ChunkStep` |
| Frontend.Transcription.OnWsMessage | frontend/src/components/Transcription.jsx:115-124 | the captions become `OnMessage` of the parsed frame; nothing else changes |
| Frontend.Transcription.HandleTranscriptData | frontend/src/components/Transcription.jsx:165-175 | the captions become `HandleTranscriptData` of the event; nothing else changes |
| Frontend.Transcription.Stop | frontend/src/components/Transcription.jsx:133-163 | energy reset to 0 and live text finalized as `FinalizeOnStop` |
| Pipeline.LongFramesSchedule | backend/ws.js:22-28 | on an active session each long binary frame schedules exactly one engine callback |
| Pipeline.FireOpen | backend/ws.js:11-19 | a callback on an active session with an open socket sends the next script increment |
| Pipeline.CallbacksSendScript | backend/gemini.js:34-48 | `n` pending callbacks on an open, active session send the next `n` script increments in order |
| Pipeline.ServerAnswersEachChunk | backend/gemini.js:20-48 | on a fresh session, `n` long chunks followed by their callbacks send the first `n` script increments |
| Pipeline.ReceivedAssembles | frontend/src/components/Transcription.jsx:115-124 | receiving transcription messages is assembling their increments in order |
| Pipeline.ChunksMakeOneEntry | frontend/src/components/Transcription.jsx:165-175 | `n` chunks answered with only the last increment final give one history entry of the `n` texts joined, and no live text |
| Pipeline.OnlyFifthIsFinal | backend/gemini.js:13-41 | of the mock script's first five increments only the fifth is final |
| Pipeline.FiveChunksOneEntry | backend/gemini.js:13-48 | five long chunks on a new connection give the client one history entry with the five texts in order |
| Pipeline.LoudChunksSent | frontend/src/components/Transcription.jsx:99-104 | with the reading above 20 and the socket open, every non-empty chunk is sent exactly as recorded |
| Pipeline.SpeechToCaptions | frontend/src/components/Transcription.jsx:94-124 | one loud recording frame, then five long chunks: the client sends them unchanged, and a new connection answers them so that the client ends with one entry of the first five script texts |

## Left out

- React plumbing is not modelled: hooks, effects, auto-scroll, JSX and styling.
- React's closure capture is not modelled. The handler `ws.onmessage` is bound
  once, when transcription starts, so the running component reads `liveText`
  at frontend/src/components/Transcription.jsx:170 as it was in that render,
  normally "". A final event therefore commits only that value plus its own
  text, and line 171 then clears the fragments gathered by line 173. The
  events `t1`, `t2`, final `t3` end as `["t3"]` in the running component. The
  model passes the current `liveText` instead. `Captions.AssembleConservesText`,
  `Captions.OneUtterance`, `Captions.ExampleThreeFragments` and the pipeline
  lemmas hold of the model with the current `liveText`, not of the running
  component.
- The stop step reads the current `liveText` when recording is stopped. The
  re-render runs `stopTranscription` from the effect body at
  frontend/src/components/Transcription.jsx:33, which belongs to the current
  render, so `Captions.FinalizeOnStop` and `Frontend.StopStep` match it. Only
  the effect cleanup at line 37 reads the stale value. It runs first, and it is
  the only call on unmount. That stale read is not modelled.
- WebSocket, MediaRecorder, AudioContext and the analyser are inputs:
  - socket `readyState` is a boolean;
  - recorded chunks are byte sequences;
  - frequency data is an array of bytes.
- The closing of the socket, the recorder and the audio context in
  `stopTranscription` is not modelled. Only the energy reset and the caption
  finalization are.
- `JSON.parse`/`JSON.stringify` are not modelled. A text frame arrives
  already parsed (`None` when parsing throws). A `'transcription'` object's
  `text` is a string, with a missing or falsy field read as empty.
- Timing is replaced by explicit events: `setTimeout`, `requestAnimationFrame`
  and the 100 ms recorder slices. Callbacks fire in FIFO order, which the single
  fixed 80 ms delay justifies.
- The floating-point mean is not computed. The exact pair `(sum, bins)` and
  the integer comparison stand in for `average > 20`.
- `wordIndex` is an unbounded integer. JavaScript number precision beyond
  2^53 is not modelled.
- The truthiness test of `data` itself at backend/ws.js:13 is not modelled:
  the engine always passes an object.
- frontend/src/App.jsx (permissions, button wiring) is not part of this model.
- frontend/src/components/CircularVisualizer.jsx (canvas drawing) is not part
  of this model.
- backend/server.js (HTTP and WebSocket server bootstrap) is not part of this
  model.
- Logging (`console.*`) is not modelled.

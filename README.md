# Local-or-offload inference router, modelled in Dafny

This project models the core of an Android app that classifies an image
either on the device, through a TensorFlow Lite interpreter on the CPU
(with XNNPACK), the GPU delegate or the NNAPI delegate, or by offloading it
over MQTT to a remote worker and waiting for the matching reply.

The modules follow the source files:

| module | source | what it holds |
|---|---|---|
| `Text` | `InferenceEngine.kt` helpers | Kotlin `trim`, `isBlank`, `lowercase` (ASCII) and decimal rendering |
| `AssetLoader` | `InferenceEngine.kt` | label cleaning: trim every line, drop empty ones |
| `TopK` | `InferenceEngine.kt` | `topK`: stable descending sort, `take(k)`, label or `class_<i>` |
| `InferenceEngine` | `InferenceEngine.kt` | delegate modes, the GPU and NNAPI builders, the interpreter lifecycle as a state function `Build` and the class `Engine` proved against it, `run` |
| `ImageUtils` | `ImageUtils.kt` | `centerCrop`, channel extraction, the float buffer and the NHWC fill loop |
| `MqttConfig` | `MqttConfig.kt` | topic names and client-id generation |
| `MqttOffloadClient` | `MqttOffloadClient.kt` | the pending table as a state machine over events, the class `OffloadClient` proved against it, and the whole `inferImage` |
| `LocalEngineFacade` | `LocalEngineFacadeImpl.kt` | the result envelope, a reader that inverts it, and the facade class |
| `ExecutionManager` | `ExecutionManager.kt` | `runTask` dispatch |

`Wrappers` (Option, Result) and `JsonValue` (a JSON value) are shared helpers.

Native and library calls are oracles: whether each TFLite constructor, each
Paho call and the interpreter construction succeed, the interpreter's output
vector, the clock readings, the random UUIDs, the Base64 text of the image
and the parsed form of an inbound message are all inputs. Every native object
the engine creates gets a fresh handle number, and the engine state logs each
`close()` it issues, so that "what was closed" and "what is handed out" can
be compared.

Behaviours of the code as written that the model keeps and proves:

- A failed rebuild leaves a closed interpreter in place. `buildInterpreter`
  closes the live interpreter before it builds the new one, but it does not
  clear `interpRef`. So when the `Interpreter(...)` constructor throws, the
  closed interpreter stays in `interpRef` with the old mode, and the next
  request for the old mode returns it
  (`InferenceEngine.ClosedInterpreterHandedOutAfterFailedRebuild`). A
  `run` in the old mode then fails: reading the output tensor of the closed
  interpreter throws (`InferenceEngine.RunAfterFailedRebuildFails`).
- A failed publish leaks a table entry. Setting the message's QoS and
  `mqtt.publish` both sit outside the `try`/`finally` in `inferImage`. So
  when a QoS outside 0..2 is rejected or the publish throws, the id stays in
  `pending` with a slot nobody awaits
  (`MqttOffloadClient.PublishFailureLeavesEntry`).
- A missing `GpuDelegateFactory` class returns null. The comment on
  `buildGpuDelegateOrNull` says the legacy `GpuDelegate()` is tried then.
  In the code, the failing `Class.forName` reaches the outermost `catch`,
  which returns null. The model follows the code (`InferenceEngine.BuildGpuDelegate`).
- Responses go to `device/responses/<clientId>`, not to a bare
  `responses/<clientId>`. The request id is removed in the `finally` on
  every exit of the await, not only on timeout. The interpreter is rebuilt
  only when the delegate mode changes. In each case the model follows the
  code.

## Model

| member | source | states |
|---|---|---|
| Text.IsWhitespace | app/src/main/java/com/example/android_local_infer/infer/InferenceEngine.kt:206 | Kotlin's `Char.isWhitespace`: Java's whitespace or space-separator code points |
| Text.IsBlank | app/src/main/java/com/example/android_local_infer/offload/MqttOffloadClient.kt:52 | `isBlank`: empty or whitespace only |
| Text.Trim | app/src/main/java/com/example/android_local_infer/infer/InferenceEngine.kt:206 | `trim()` is the trailing trim of the leading trim; its properties are in `Text.TrimIsMaximalInnerSlice` |
| Text.Lower | app/src/main/java/com/example/android_local_infer/infer/InferenceEngine.kt:22 | `lowercase()`: same length, each ASCII capital replaced by its small letter, everything else kept |
| Text.TrimStart | app/src/main/java/com/example/android_local_infer/infer/InferenceEngine.kt:206 | the result is a suffix of the line that does not start with whitespace, and everything dropped is whitespace |
| Text.TrimEnd | app/src/main/java/com/example/android_local_infer/infer/InferenceEngine.kt:206 | the result is a prefix of the line that does not end with whitespace, and everything dropped is whitespace |
| Text.TrimIsMaximalInnerSlice | app/src/main/java/com/example/android_local_infer/infer/InferenceEngine.kt:206 | `trim` yields a contiguous slice with only whitespace around it, and neither end of that slice is whitespace |
| Text.TrimEmptyIffBlank | app/src/main/java/com/example/android_local_infer/infer/InferenceEngine.kt:206-207 | a trimmed line is empty exactly when the line is blank |
| Text.LowerIsCaseInsensitive | app/src/main/java/com/example/android_local_infer/infer/InferenceEngine.kt:22 | `lowercase()` equals a lower-case word exactly when the name spells that word in any mixture of cases |
| Text.Decimal | app/src/main/java/com/example/android_local_infer/infer/InferenceEngine.kt:216 | the index is written as a non-empty string of decimal digits whose value is the index, with no leading zero |
| Text.DecimalInjective | app/src/main/java/com/example/android_local_infer/infer/InferenceEngine.kt:216 | distinct indices are written differently |
| AssetLoader.TrimAll | app/src/main/java/com/example/android_local_infer/infer/InferenceEngine.kt:206 | one trimmed line per input line, in order |
| AssetLoader.DropEmpty | app/src/main/java/com/example/android_local_infer/infer/InferenceEngine.kt:207 | `filter { it.isNotEmpty() }`: never longer than its input; `AssetLoader.DropEmptyKeepsOrder` says exactly which lines it keeps |
| AssetLoader.CleanLabels | app/src/main/java/com/example/android_local_infer/infer/InferenceEngine.kt:204-207 | `loadLabels`: at most one label per line, none empty; `AssetLoader.CleanLabelsFollowLines` says which |
| AssetLoader.NonEmptyPositions | app/src/main/java/com/example/android_local_infer/infer/InferenceEngine.kt:207 | the positions of the non-empty lines, strictly increasing, and every non-empty line is among them |
| AssetLoader.DropEmptyKeepsOrder | app/src/main/java/com/example/android_local_infer/infer/InferenceEngine.kt:207 | the filter keeps exactly the non-empty lines, in their original order |
| AssetLoader.CleanLabelsFollowLines | app/src/main/java/com/example/android_local_infer/infer/InferenceEngine.kt:204-207 | label j is the trimmed form of the j-th non-blank line; a line is kept exactly when it is not blank |
| AssetLoader.CleanLabelsAreTrimmed | app/src/main/java/com/example/android_local_infer/infer/InferenceEngine.kt:206-207 | every label is non-empty and has no whitespace at either end |
| TopK.Insert | app/src/main/java/com/example/android_local_infer/infer/InferenceEngine.kt:212-213 | inserting an index into a stably descending list keeps it stably descending and adds exactly that index |
| TopK.SortedIndices | app/src/main/java/com/example/android_local_infer/infer/InferenceEngine.kt:212-213 | `sortedByDescending` over indices: each index below n exactly once, higher scores first, ties in index order |
| TopK.LabelFor | app/src/main/java/com/example/android_local_infer/infer/InferenceEngine.kt:216 | the label at the index when there is one; otherwise `class_` followed by digits that read back as the index |
| TopK.TopK | app/src/main/java/com/example/android_local_infer/infer/InferenceEngine.kt:210-219 | `take(k)` fails exactly when k is negative |
| TopK.TopKRanking | app/src/main/java/com/example/android_local_infer/infer/InferenceEngine.kt:211-218 | min(k, n) distinct entries, stably descending; every chosen index is ahead of every unchosen one; each entry is (label or `class_<i>`, score) |
| TopK.TopKScoresNonIncreasing | app/src/main/java/com/example/android_local_infer/infer/InferenceEngine.kt:213 | scores do not increase along the result |
| TopK.FallbackLabelsDistinct | app/src/main/java/com/example/android_local_infer/infer/InferenceEngine.kt:216 | two indices past the label list get different `class_<i>` names |
| MqttConfig.ResponseTopic | app/src/main/java/com/example/android_local_infer/offload/MqttConfig.kt:8-10 | the topic is the responses base, a slash, then the client id |
| MqttConfig.ResponseTopicRoundTrip | app/src/main/java/com/example/android_local_infer/offload/MqttConfig.kt:10 | the client id is recovered from its response topic |
| MqttConfig.ResponseTopicInjective | app/src/main/java/com/example/android_local_infer/offload/MqttConfig.kt:10 | distinct clients get distinct response topics |
| MqttConfig.RemoveDashes | app/src/main/java/com/example/android_local_infer/offload/MqttConfig.kt:16 | `replace("-", "")` leaves no dash and never lengthens the string |
| MqttConfig.RemoveDashesAppend | app/src/main/java/com/example/android_local_infer/offload/MqttConfig.kt:16 | dash removal distributes over concatenation |
| MqttConfig.RemoveDashesNoDash | app/src/main/java/com/example/android_local_infer/offload/MqttConfig.kt:16 | a string without dashes is unchanged |
| MqttConfig.DashFreeUuid | app/src/main/java/com/example/android_local_infer/offload/MqttConfig.kt:16 | a canonical UUID without its dashes is 32 lower-case hex digits |
| MqttConfig.Take | app/src/main/java/com/example/android_local_infer/offload/MqttConfig.kt:16 | `take(n)` is the first min(n, length) characters |
| MqttConfig.NewDeviceClientId | app/src/main/java/com/example/android_local_infer/offload/MqttConfig.kt:15-18 | `device-` followed by at most three characters, none a dash |
| MqttConfig.DeviceClientIdShape | app/src/main/java/com/example/android_local_infer/offload/MqttConfig.kt:15-18 | the client id is `device-` plus the UUID's first three hex digits, ten characters long |
| InferenceEngine.FromName | app/src/main/java/com/example/android_local_infer/infer/InferenceEngine.kt:22-26 | NNAPI exactly when the name is "nnapi" ignoring case, GPU exactly for "gpu", CPU for every other name |
| InferenceEngine.ModeTag | app/src/main/java/com/example/android_local_infer/exec/LocalEngineFacadeImpl.kt:44 | the lower-case tag of each mode; `LocalEngineFacade.ModeTagIsLoweredName` ties it to the enum name |
| InferenceEngine.FromNameOfTag | app/src/main/java/com/example/android_local_infer/infer/InferenceEngine.kt:20-26 | parsing a mode's lower-case tag gives the mode back |
| InferenceEngine.BuildGpuDelegate | app/src/main/java/com/example/android_local_infer/infer/InferenceEngine.kt:90-137 | a delegate exists exactly when the compatibility list and the factory class load and the GPU is supported, and one of Factory(RuntimeFlavor), Factory(Options) or the legacy constructor succeeds, tried in that order |
| InferenceEngine.BuildNnapiDelegate | app/src/main/java/com/example/android_local_infer/infer/InferenceEngine.kt:139-157 | the Options constructor, else the plain one, else none |
| InferenceEngine.TornDown | app/src/main/java/com/example/android_local_infer/infer/InferenceEngine.kt:45-49 | the handles a rebuild closes: exactly the live interpreter's, the NNAPI delegate's, and the GPU delegate's when it is closeable |
| InferenceEngine.Build | app/src/main/java/com/example/android_local_infer/infer/InferenceEngine.kt:42-87 | same mode reuses the live interpreter unchanged; otherwise the old interpreter and delegates are closed, the NNAPI field holds what the NNAPI builder returns in NNAPI mode and nothing otherwise, likewise for GPU, and the interpreter gets XNNPACK, min(processors, 4) threads and exactly those delegates; a throwing constructor keeps the old `interpRef` and `current`; handle invariant kept |
| InferenceEngine.RequestedDelegateAttached | app/src/main/java/com/example/android_local_infer/infer/InferenceEngine.kt:59-81 | in GPU or NNAPI mode with a builder that succeeds, the new interpreter carries exactly that builder's delegate; in CPU mode none |
| InferenceEngine.FreshInterpreterIsLive | app/src/main/java/com/example/android_local_infer/infer/InferenceEngine.kt:42-86 | a newly built interpreter is not one already closed |
| InferenceEngine.FallbackToCpu | app/src/main/java/com/example/android_local_infer/infer/InferenceEngine.kt:59-86 | an unavailable delegate is a silent fallback to CPU with XNNPACK, and the requested mode is recorded |
| InferenceEngine.RebuildSameModeIsNoOp | app/src/main/java/com/example/android_local_infer/infer/InferenceEngine.kt:43-44 | a second build for the same mode returns the same interpreter and changes nothing |
| InferenceEngine.ClosedInterpreterHandedOutAfterFailedRebuild | app/src/main/java/com/example/android_local_infer/infer/InferenceEngine.kt:43-85 | after a failed rebuild, the closed interpreter is returned for the old mode |
| InferenceEngine.Infer | app/src/main/java/com/example/android_local_infer/infer/InferenceEngine.kt:164-190 | fails with the build's error when the build throws; fails as closed when the interpreter handed back has already been closed (`getOutputTensor`); otherwise succeeds exactly when k >= 0; the ranking is `topK` of the output vector with the engine's labels (min(k, n) entries); the timings are the preprocess and infer intervals and their sum as total |
| InferenceEngine.RunAfterFailedRebuildFails | app/src/main/java/com/example/android_local_infer/infer/InferenceEngine.kt:164-173 | after a failed rebuild into a new mode, the next run in the old mode fails because its interpreter is closed |
| InferenceEngine.Engine.constructor | app/src/main/java/com/example/android_local_infer/infer/InferenceEngine.kt:30-38 | labels are the cleaned label lines; no interpreter, CPU mode, no delegates |
| InferenceEngine.Engine.BuildInterpreter | app/src/main/java/com/example/android_local_infer/infer/InferenceEngine.kt:42-87 | the fields and result are those of `Build` on the old state |
| InferenceEngine.Engine.TearDown | app/src/main/java/com/example/android_local_infer/infer/InferenceEngine.kt:45-51 | closes the old interpreter and delegates, clears both delegate fields, leaves the rest |
| InferenceEngine.Engine.Run | app/src/main/java/com/example/android_local_infer/infer/InferenceEngine.kt:164-190 | the fields and result are those of `Infer` on the old state |
| ImageUtils.CenterCrop | app/src/main/java/com/example/android_local_infer/infer/ImageUtils.kt:45-52 | a square bitmap is returned as is; otherwise a min(w, h) square inside the bitmap, flush with two sides and centred along the longer one |
| ImageUtils.Red | app/src/main/java/com/example/android_local_infer/infer/ImageUtils.kt:31 | the red byte, in 0..255, for negative colours too |
| ImageUtils.Green | app/src/main/java/com/example/android_local_infer/infer/ImageUtils.kt:32 | the green byte, in 0..255 |
| ImageUtils.Blue | app/src/main/java/com/example/android_local_infer/infer/ImageUtils.kt:33 | the blue byte, in 0..255 |
| ImageUtils.ChannelsOfArgb | app/src/main/java/com/example/android_local_infer/infer/ImageUtils.kt:30-33 | extracting the channels of a packed ARGB colour gives back its red, green and blue |
| ImageUtils.Packed | app/src/main/java/com/example/android_local_infer/infer/ImageUtils.kt:28-38 | three values per pixel |
| ImageUtils.PackedAt | app/src/main/java/com/example/android_local_infer/infer/ImageUtils.kt:30-36 | pixel i's channel ch is at offset 3i + ch |
| ImageUtils.PackedIsNhwc | app/src/main/java/com/example/android_local_infer/infer/ImageUtils.kt:25-38 | pixel (x, y) of a W-wide image has channel ch at offset (yW + x)·3 + ch |
| ImageUtils.FloatBuffer.Allocate | app/src/main/java/com/example/android_local_infer/infer/ImageUtils.kt:22 | a fresh buffer of the given byte capacity at position 0 |
| ImageUtils.FloatBuffer.PutFloat | app/src/main/java/com/example/android_local_infer/infer/ImageUtils.kt:34-36 | writes one float at the position and advances it by four bytes |
| ImageUtils.FloatBuffer.Rewind | app/src/main/java/com/example/android_local_infer/infer/ImageUtils.kt:39 | position back to 0, contents kept |
| ImageUtils.PutPixel | app/src/main/java/com/example/android_local_infer/infer/ImageUtils.kt:30-36 | writes red, green, blue of one pixel at the next three slots |
| ImageUtils.PutRow | app/src/main/java/com/example/android_local_infer/infer/ImageUtils.kt:29-37 | one row of pixels appended in order |
| ImageUtils.Preprocess | app/src/main/java/com/example/android_local_infer/infer/ImageUtils.kt:15-43 | a buffer of 4·W·H·3 bytes, filled completely and rewound, holding the pixels in NHWC order |
| MqttOffloadClient.RespTopic | app/src/main/java/com/example/android_local_infer/offload/MqttOffloadClient.kt:30 | the per-client response topic; `MqttOffloadClient.TopicsAgreeWithConfig` ties it to `MqttTopics` |
| MqttOffloadClient.DefaultClientId | app/src/main/java/com/example/android_local_infer/offload/MqttOffloadClient.kt:18 | the constructor's default client id from a UUID; `MqttOffloadClient.IdShapes` gives its shape |
| MqttOffloadClient.NewRequestId | app/src/main/java/com/example/android_local_infer/offload/MqttOffloadClient.kt:83 | a request id is the UUID without dashes; `MqttOffloadClient.IdShapes` gives its shape |
| MqttOffloadClient.ValidQos | app/src/main/java/com/example/android_local_infer/offload/MqttOffloadClient.kt:98-101 | the QoS levels `MqttMessage` accepts: 0, 1 and 2 |
| MqttOffloadClient.RequestJson | app/src/main/java/com/example/android_local_infer/offload/MqttOffloadClient.kt:87-93 | the request object has exactly the five fields `client_id`, `request_id`, `payload_type`, `image_b64`, `model_name` |
| MqttOffloadClient.CancelPending | app/src/main/java/com/example/android_local_infer/offload/MqttOffloadClient.kt:71 | as many slots as before; the pending active ones cancelled, the rest kept (stated through `MqttOffloadClient.OnDisconnect`) |
| MqttOffloadClient.TopicsAgreeWithConfig | app/src/main/java/com/example/android_local_infer/offload/MqttOffloadClient.kt:28-31 | the client's request and response topics are the ones `MqttTopics` defines |
| MqttOffloadClient.IdShapes | app/src/main/java/com/example/android_local_infer/offload/MqttOffloadClient.kt:18 | the default client id is the one `ClientIdFactory` makes; request ids are 32 lower-case hex digits |
| MqttOffloadClient.OnConnect | app/src/main/java/com/example/android_local_infer/offload/MqttOffloadClient.kt:33-66 | no-op when flagged connected and up; else succeeds exactly when connect and subscribe do, subscribing to the client's response topic at QoS 1 before setting the flag; a failure changes nothing; the table, slots and publications are untouched |
| MqttOffloadClient.OnConnectionLost | app/src/main/java/com/example/android_local_infer/offload/MqttOffloadClient.kt:44-46 | only the flag is cleared; pending requests keep waiting |
| MqttOffloadClient.Complete | app/src/main/java/com/example/android_local_infer/offload/MqttOffloadClient.kt:53 | `complete` resolves an active slot with the body; a slot already resolved keeps its value |
| MqttOffloadClient.OnMessage | app/src/main/java/com/example/android_local_infer/offload/MqttOffloadClient.kt:48-55 | null, unparseable, blank-id and unknown-id messages change nothing; otherwise the entry is removed and only its slot is completed with the body |
| MqttOffloadClient.OnDisconnect | app/src/main/java/com/example/android_local_infer/offload/MqttOffloadClient.kt:68-73 | flag cleared, every pending slot cancelled, all other slots untouched, table emptied |
| MqttOffloadClient.OnSubmit | app/src/main/java/com/example/android_local_infer/offload/MqttOffloadClient.kt:81-103 | reconnects when needed; a connect failure changes nothing; otherwise a fresh active slot is registered under the id, then a QoS outside 0..2 fails with the entry kept, then a failing publish fails with the entry kept; success publishes the request with the given QoS. Connect fails exactly when the transport needs a reconnect and connect or subscribe fails; success exactly when the connection holds, the QoS is in 0..2 and the publish goes through. Short of a connect failure the new state is the old slots plus one active slot, the subscriptions after the reconnect (or as before), and the publications plus the request on success (as before otherwise) |
| MqttOffloadClient.OnFinish | app/src/main/java/com/example/android_local_infer/offload/MqttOffloadClient.kt:105-109 | the response if completed, a cancellation if cancelled, a timeout if still active; the id leaves the table in every case, and nothing else in the state changes |
| MqttOffloadClient.Apply | app/src/main/java/com/example/android_local_infer/offload/MqttOffloadClient.kt:33-110 | every event keeps the table invariant and never changes a resolved slot |
| MqttOffloadClient.ApplyAll | app/src/main/java/com/example/android_local_infer/offload/MqttOffloadClient.kt:33-110 | any stream of events keeps the table invariant |
| MqttOffloadClient.ResolvedOnce | app/src/main/java/com/example/android_local_infer/offload/MqttOffloadClient.kt:48-73 | along any stream of events, a completed or cancelled slot keeps its resolution |
| MqttOffloadClient.FirstResolutionWins | app/src/main/java/com/example/android_local_infer/offload/MqttOffloadClient.kt:53-106 | once resolved, the await reports that first resolution whatever happens later |
| MqttOffloadClient.LateResponseIsDropped | app/src/main/java/com/example/android_local_infer/offload/MqttOffloadClient.kt:52-53 | a response for an id not in the table is dropped |
| MqttOffloadClient.DuplicateResponseIsNoOp | app/src/main/java/com/example/android_local_infer/offload/MqttOffloadClient.kt:48-55 | delivering the same message twice is the same as once |
| MqttOffloadClient.ResponseAfterTimeoutIsDropped | app/src/main/java/com/example/android_local_infer/offload/MqttOffloadClient.kt:105-109 | after a timeout, a response for that request changes nothing |
| MqttOffloadClient.PublishFailureLeavesEntry | app/src/main/java/com/example/android_local_infer/offload/MqttOffloadClient.kt:95-109 | when the QoS is invalid or publish throws, the caller gets that error but the id stays pending with an active slot, even across a lost connection |
| MqttOffloadClient.SubmitRegistersBeforePublish | app/src/main/java/com/example/android_local_infer/offload/MqttOffloadClient.kt:87-103 | a published request goes to `device/requests` with exactly the five fields, carries the registered id, whose slot is active |
| MqttOffloadClient.OnInterruption | app/src/main/java/com/example/android_local_infer/offload/MqttOffloadClient.kt:43-73 | a message, lost connection or disconnect during the await keeps the invariant and never changes a resolved slot |
| MqttOffloadClient.Deliver | app/src/main/java/com/example/android_local_infer/offload/MqttOffloadClient.kt:43-73 | the same for any sequence of them |
| MqttOffloadClient.AwaitedSlotResolution | app/src/main/java/com/example/android_local_infer/offload/MqttOffloadClient.kt:48-73 | the awaited slot ends as the first matching response or the first disconnect made it, and stays pending if neither came |
| MqttOffloadClient.OnInferImage | app/src/main/java/com/example/android_local_infer/offload/MqttOffloadClient.kt:75-110 | `inferImage` keeps the table invariant |
| MqttOffloadClient.InferImageOutcome | app/src/main/java/com/example/android_local_infer/offload/MqttOffloadClient.kt:75-110 | exactly one outcome: the connect or publish error, else the first matching response, a cancellation or a timeout; afterwards the id is not pending |
| MqttOffloadClient.OffloadClient.constructor | app/src/main/java/com/example/android_local_infer/offload/MqttOffloadClient.kt:15-26 | not connected, empty table, nothing subscribed or published |
| MqttOffloadClient.OffloadClient.Connect | app/src/main/java/com/example/android_local_infer/offload/MqttOffloadClient.kt:33-66 | fields and result are those of `OnConnect` |
| MqttOffloadClient.OffloadClient.ConnectionLost | app/src/main/java/com/example/android_local_infer/offload/MqttOffloadClient.kt:44-46 | fields are those of `OnConnectionLost` |
| MqttOffloadClient.OffloadClient.MessageArrived | app/src/main/java/com/example/android_local_infer/offload/MqttOffloadClient.kt:48-55 | fields are those of `OnMessage` |
| MqttOffloadClient.OffloadClient.Disconnect | app/src/main/java/com/example/android_local_infer/offload/MqttOffloadClient.kt:68-73 | the loop over the table leaves the fields of `OnDisconnect` |
| MqttOffloadClient.OffloadClient.PublishRequest | app/src/main/java/com/example/android_local_infer/offload/MqttOffloadClient.kt:81-103 | fields and result are those of `OnSubmit` |
| MqttOffloadClient.OffloadClient.AwaitResponse | app/src/main/java/com/example/android_local_infer/offload/MqttOffloadClient.kt:105-109 | fields and result are those of `OnFinish` |
| MqttOffloadClient.OffloadClient.Interrupt | app/src/main/java/com/example/android_local_infer/offload/MqttOffloadClient.kt:43-73 | fields are those of `OnInterruption` |
| MqttOffloadClient.OffloadClient.InferImage | app/src/main/java/com/example/android_local_infer/offload/MqttOffloadClient.kt:75-110 | fields and result are those of `OnInferImage` |
| LocalEngineFacade.ModeName | app/src/main/java/com/example/android_local_infer/infer/InferenceEngine.kt:20 | the enum constant's name, upper-case letters only; `LocalEngineFacade.ModeTagIsLoweredName` lowers it to the tag |
| LocalEngineFacade.RankedJson | app/src/main/java/com/example/android_local_infer/exec/LocalEngineFacadeImpl.kt:30-33 | an object with exactly `label` and `prob`, from which the entry reads back |
| LocalEngineFacade.TopJson | app/src/main/java/com/example/android_local_infer/exec/LocalEngineFacadeImpl.kt:28-35 | one object per ranked entry, in order, each reading back as that entry |
| LocalEngineFacade.TimingJson | app/src/main/java/com/example/android_local_infer/exec/LocalEngineFacadeImpl.kt:37-40 | exactly the timing keys, reading back as the timing map |
| LocalEngineFacade.Envelope | app/src/main/java/com/example/android_local_infer/exec/LocalEngineFacadeImpl.kt:28-52 | the reply object; its shape is stated by `LocalEngineFacade.EnvelopeShape` and its inverse by `LocalEngineFacade.EnvelopeRoundTrip` |
| LocalEngineFacade.ModeTagIsLoweredName | app/src/main/java/com/example/android_local_infer/exec/LocalEngineFacadeImpl.kt:44 | `mode.name.lowercase()` is the mode's tag: "cpu", "nnapi" or "gpu" |
| LocalEngineFacade.EnvelopeShape | app/src/main/java/com/example/android_local_infer/exec/LocalEngineFacadeImpl.kt:28-52 | `ok` true; `mode` the requested mode's tag; one `{label, prob}` per entry in order; `timing_ms` with exactly the timing keys; `top1_*` present exactly when non-empty and equal to the first entry |
| LocalEngineFacade.EnvelopeRoundTrip | app/src/main/java/com/example/android_local_infer/exec/LocalEngineFacadeImpl.kt:28-52 | reading the envelope back gives the requested mode, the ranking and the timings |
| LocalEngineFacade.Reply | app/src/main/java/com/example/android_local_infer/exec/LocalEngineFacadeImpl.kt:24-52 | an envelope exactly when the engine run succeeds, reading back as the mode and the run's result; otherwise the engine's error passed on |
| LocalEngineFacade.LocalReplyShape | app/src/main/java/com/example/android_local_infer/exec/LocalEngineFacadeImpl.kt:24-52 | an envelope comes back exactly when the interpreter is built or reused, is not closed, and k >= 0, and the engine's error is passed on otherwise; it then has min(k, n) entries and the three timings |
| LocalEngineFacade.BuildEnvelope | app/src/main/java/com/example/android_local_infer/exec/LocalEngineFacadeImpl.kt:28-52 | the two loops and the final object build exactly the envelope |
| LocalEngineFacade.Facade.constructor | app/src/main/java/com/example/android_local_infer/exec/LocalEngineFacadeImpl.kt:10-13 | keeps the engine and k |
| LocalEngineFacade.Facade.WithDefaultTopK | app/src/main/java/com/example/android_local_infer/exec/LocalEngineFacadeImpl.kt:12 | k defaults to 5 |
| LocalEngineFacade.Facade.RunLocal | app/src/main/java/com/example/android_local_infer/exec/LocalEngineFacadeImpl.kt:24-53 | runs the engine with the facade's k and answers with its envelope or its failure |
| LocalEngineFacade.Facade.InferOnCpu | app/src/main/java/com/example/android_local_infer/exec/LocalEngineFacadeImpl.kt:15-16 | runs in CPU mode |
| LocalEngineFacade.Facade.InferOnGpu | app/src/main/java/com/example/android_local_infer/exec/LocalEngineFacadeImpl.kt:18-19 | runs in GPU mode |
| LocalEngineFacade.Facade.InferOnNpu | app/src/main/java/com/example/android_local_infer/exec/LocalEngineFacadeImpl.kt:21-22 | runs in NNAPI mode |
| ExecutionManager.Dispatch | app/src/main/java/com/example/android_local_infer/exec/ExecutionManager.kt:19-27 | the `when` over the four modes; stated by `ExecutionManager.DispatchIsOneToOne` and `ExecutionManager.LocalModesIgnoreModel` |
| ExecutionManager.DispatchIsOneToOne | app/src/main/java/com/example/android_local_infer/exec/ExecutionManager.kt:19-27 | each mode makes its own call; only OFFLOAD leaves the device, with QoS 1 (a valid level) and a 60 s timeout |
| ExecutionManager.LocalModesIgnoreModel | app/src/main/java/com/example/android_local_infer/exec/ExecutionManager.kt:24-26 | a local mode does not consult the model |
| ExecutionManager.EntryMode | app/src/main/java/com/example/android_local_infer/exec/LocalEngineFacadeImpl.kt:15-22 | `inferOnCpu`, `inferOnGpu` and `inferOnNpu` run the engine in CPU, GPU and NNAPI mode, one entry point per mode |
| ExecutionManager.LocalTags | app/src/main/java/com/example/android_local_infer/exec/ExecutionManager.kt:24-26 | CPU and GPU report "cpu" and "gpu", NPU reports "nnapi"; each tag parses back to its engine mode |
| ExecutionManager.Manager.constructor | app/src/main/java/com/example/android_local_infer/exec/ExecutionManager.kt:9-12 | holds the two collaborators |
| ExecutionManager.Manager.RunTask | app/src/main/java/com/example/android_local_infer/exec/ExecutionManager.kt:14-28 | OFFLOAD runs `inferImage` with the model's name and the defaults and leaves the engine unchanged; a local mode runs the matching facade entry and leaves the offload client unchanged |

## Left out

- TopK.TopK: scores are integers, an ordered stand-in for `Float`; NaN, negative zero and float comparison are not modelled.
- InferenceEngine.Infer: the timings are given reals; `total` is their exact sum, without IEEE rounding or the nanosecond-to-millisecond division.
- InferenceEngine.Engine.Run: the interpreter's output vector is an input, so `run` does not call `Preprocess`; `imageBytes` is not inspected, and a throwing `Interpreter.run`, or a `getOutputTensor` throwing for any reason other than a closed interpreter, is not modelled.
- InferenceEngine.Build: `availableProcessors()` is an input; interpreter options other than XNNPACK, threads and delegates are not modelled.
- InferenceEngine.BuildNnapiDelegate: the `setAllowFp16`/`setUseNnapiCpu` calls, whose failures are swallowed, are not modelled.
- ImageUtils.Preprocess: bitmap decoding and scaling are left out, so it takes the scaled pixel array; it stores channel values 0..255 where the source stores them divided by 255.0f; byte order is not modelled, and the buffer holds one slot per 4-byte float.
- ImageUtils.FloatBuffer.PutFloat: requires room for the float; the `BufferOverflowException` path is left out because the buffer is sized exactly for the image.
- Text.Lower: ASCII case mapping only; Kotlin's Unicode lowercasing of other letters is not modelled.
- AssetLoader: opening and memory-mapping the model file and reading the labels file are I/O; the labels file is given as its lines.
- MqttOffloadClient: the Paho transport is an oracle. Connect options, callback registration, the broker URI, Paho's automatic reconnect and its resubscription are left out.
- MqttOffloadClient: threads, `ConcurrentHashMap` atomicity and the `withTimeout` timer are left out. Concurrent callbacks are a sequence of events, and the timeout is the await ending with the slot still active.
- MqttOffloadClient.OnSubmit: Paho's `IllegalArgumentException` for a bad QoS is the `InvalidQos` error; other throws while building the request (Base64, JSON) are not modelled.
- MqttOffloadClient.OnFinish: a caller cancelled while awaiting leaves by the same `finally` and is reported as a timeout.
- MqttOffloadClient.OnDisconnect: the transport-level `mqtt.disconnect()` and its swallowed errors are not modelled.
- Base64 encoding, JSON serialisation and JSON parsing are library calls: the Base64 text and the parsed inbound message are inputs.
- UUIDs are random: the UUID string is an input.
- The model configuration's definition is not part of this model; only its `name` is used.
- The HTTP server, the activity, the application class and logging are not part of this model.
- LocalEngineFacade.RankedJson: `prob` is written as an integer because scores are integers here.

# web-audio-engine core in Dafny

A model of four parts of the web-audio-engine repository, with proofs of what they promise:

- **The offline rendering scheduler** (`OfflineRendering`, offline_audio_context.dfy):
  - An `OfflineAudioContext` class holds `_writeIndex`, the suspend deadline, the pending suspend and render promises, and the padded working buffer (an `array2`, channel by frame).
  - `Step` is one tick of the rendering `loop`. It renders at most 128 blocks, checks the suspend deadline before each block, and then suspends, finishes, or stays queued.
  - Promises are numbered as they are created. Resolving one, changing state and dispatching "complete" are recorded, in order, in a ghost event sequence.
  - The graph's output is a fixed function `graph(channel, frame)` and `impl.currentTime` is a function `clock(framesRendered)`.
  - The scheduler invariant keeps every frame before `_writeIndex` equal to that output and every later frame zero. So the delivered buffer is exactly the first `length` frames of the output, whatever suspend/resume history led to it.
- **The output port connection set** (`NodeOutput`, audio_node_output.dfy):
  - `AudioNodeOutput` keeps a duplicate-free list of `(node, index)` input handles.
  - Every call it makes on an input (connectFrom, disconnectFrom, enableFrom, disableFrom, updateNumberOfChannels) is recorded in a ghost notice sequence. So is `pull`'s call of processIfNecessary on its node. Its other calls on the node and the bus are not recorded (see "Left out").
  - `Disconnect` keeps the source's reverse scan with splicing.
- **The audio-data normaliser** (`AudioDataUtil`, audio_data_util.dfy):
  - JavaScript values are a tagged `Value` datatype. A property that is missing or has the wrong runtime type is `None`.
  - `ToAudioData` returns a `Result`, because `new Array(n)` throws a RangeError on an invalid channel count.
- **The PeriodicWave tables** (`Waves`, periodic_wave.dfy): the table lengths, the name tags, the all-zero real part, `imag[0] = 0`, the parity pattern of the square and sawtooth tables, and the constructor's flag inversion.

`JsNumbers` (js_numbers.dfy) models `x|0` as 32-bit two's-complement truncation. `Wrappers` (wrappers.dfy) holds `Option` and `Result`.

For a kind that is not a basic waveform, generateBasicWaveform (src/impl/PeriodicWave.js:62-66) replaces both tables with `[0]` and names the wave "custom". `Waves.BasicWaveform` does the same.

## Model

| member | source | states |
|---|---|---|
| JsNumbers.ToInt32 | src/impl/core/AudioNodeOutput.js:13 | bitwise OR with 0: the result lies in [-2^31, 2^31), is congruent to x modulo 2^32, and equals x when x is already in range |
| AudioDataUtil.IsAudioData | src/util/audioDataUtil.js:3-17 | each guard rejects on its own: a falsy value; a sample rate that is missing, not a number or not finite; a channelData that is not an array; a channelData with an element that is not a Float32Array |
| AudioDataUtil.IsAudioBuffer | src/util/audioDataUtil.js:39-53 | a falsy value is not buffer-like, and neither is a value whose numberOfChannels or sampleRate is not a number or whose getChannelData is not a function |
| AudioDataUtil.IsArrayLength | src/util/audioDataUtil.js:31 | `new Array(n)` accepts a length only when it is a whole number in [0, 2^32); NaN, the infinities and negative numbers throw |
| AudioDataUtil.ToAudioData | src/util/audioDataUtil.js:19-37 | every record returned has one channel entry per channel and the length of channel 0 (0 with no channels); it fails exactly on an AudioBuffer-like value that is not audio data and whose channel count is not a valid array length; audio data keeps its sample rate and its channel arrays in order; an AudioBuffer-like value gives `getChannelData(ch)` for each channel; anything else gives the empty record {0, 0, 0, []} |
| AudioDataUtil.RecordNormalises | src/util/audioDataUtil.js:3-27 | a record with a finite sample rate passes isAudioData, and normalising it recomputes the channel count and length from its channel arrays and keeps everything else |
| AudioDataUtil.ToAudioDataIdempotent | src/util/audioDataUtil.js:20-27 | normalising a normalised record with a finite sample rate gives the same record again |
| AudioDataUtil.AudioBuffer.constructor | src/util/audioDataUtil.js:58 | the new buffer holds empty audio data at the requested sample rate |
| AudioDataUtil.ToAudioBuffer | src/util/audioDataUtil.js:55-67 | fails exactly when toAudioData fails, with the same error; otherwise a fresh buffer whose audio data is exactly the four fields of the normalised record |
| Waves.NegOnePow | src/impl/PeriodicWave.js:44 | `Math.pow(-1, k)` for a whole k is +1 for even k and -1 for odd k |
| Waves.SawtoothCoefficient | src/impl/PeriodicWave.js:43-45 | imag[0] is 0; at n > 0 the harmonic has magnitude 2/(n pi) and is positive at odd n and negative at even n |
| Waves.TriangleCoefficient | src/impl/PeriodicWave.js:50-52 | imag[0] is 0; at n > 0 the harmonic has the sign of sin(n pi / 2), and it is zero exactly when that sine is zero |
| Waves.SquareCoefficient | src/impl/PeriodicWave.js:57-59 | zero at even n (including 0) and 4/(n pi) at odd n |
| Waves.BasicWaveform | src/impl/PeriodicWave.js:32-68 | for every kind, real and imag have equal non-zero length, imag[0] = 0 and real is all zeros; "sine" gives imag [0, 1]; sawtooth, triangle and square give 2048 entries named after the kind; square is 0 at even n and 4/(n pi) at odd n; sawtooth is positive at odd n and negative at even n > 0; any other kind gives [0], [0], "custom" |
| Waves.PeriodicWave.constructor | src/impl/PeriodicWave.js:4-14 | the tables are stored as given, the name is "custom", and `_constants` is the negation of the constraints option |
| Waves.PeriodicWave.GenerateBasicWaveform | src/impl/PeriodicWave.js:32-68 | replaces real, imag and name wholesale with the tables of BasicWaveform for the kind, leaves `_constants` alone, and keeps the two tables the same length |
| NodeOutput.Matches | src/impl/core/AudioNodeOutput.js:83-86 | with no arguments every input is selected; with one, only inputs of that node; with two, only inputs of that node with that index |
| NodeOutput.Keep | src/impl/core/AudioNodeOutput.js:88-95 | the list left by a disconnect is no longer than before and holds no input the filter selects |
| NodeOutput.DisconnectNotices | src/impl/core/AudioNodeOutput.js:88-95 | every call a disconnect makes is a disconnectFrom on an input the filter selects, and there are no more calls than inputs |
| NodeOutput.DisconnectNoticesCount | src/impl/core/AudioNodeOutput.js:88-95 | a disconnect makes exactly as many calls as it removes inputs |
| NodeOutput.Broadcast | src/impl/core/AudioNodeOutput.js:34-36 | a forEach makes one call per connected input, in list order, each the same call on that input |
| NodeOutput.DistinctCount | src/impl/core/AudioNodeOutput.js:40-42 | a duplicate-free list has as many distinct entries as it has entries |
| NodeOutput.AnyMatch | src/impl/core/AudioNodeOutput.js:102-105 | `some` with the filter holds iff some listed input matches it |
| NodeOutput.KeepMembers | src/impl/core/AudioNodeOutput.js:88-95 | the inputs left after a disconnect are exactly the listed inputs the filter does not select |
| NodeOutput.KeepAppend | src/impl/core/AudioNodeOutput.js:88-95 | the inputs left keep their original relative order (removal distributes over concatenation) |
| NodeOutput.KeepNone | src/impl/core/AudioNodeOutput.js:88-95 | when no input matches, the list is left unchanged |
| NodeOutput.ScanStep | src/impl/core/AudioNodeOutput.js:89-94 | one step of the reverse scan at position i removes s[i] exactly when it matches, leaving the list the scan has reached so far |
| NodeOutput.ScanNotice | src/impl/core/AudioNodeOutput.js:88-92 | the disconnectFrom of that step, if any, comes after those of all later positions |
| NodeOutput.KeepNoDuplicates | src/impl/core/AudioNodeOutput.js:93 | splicing matches out of a duplicate-free list leaves it duplicate-free |
| NodeOutput.DisconnectNoticesOnce | src/impl/core/AudioNodeOutput.js:91-92 | every removed input receives exactly one disconnectFrom; no kept input and nothing else receives one |
| NodeOutput.BroadcastOnce | src/impl/core/AudioNodeOutput.js:34-36 | a forEach call over a duplicate-free list reaches each connected input exactly once and nothing else |
| NodeOutput.IndexOf | src/impl/core/AudioNodeOutput.js:75 | `indexOf`: -1 iff the input is absent, otherwise the position of its first occurrence |
| NodeOutput.AudioBus.constructor | src/impl/core/AudioNodeOutput.js:14 | the bus starts with the requested channel count |
| NodeOutput.AudioNodeOutput.constructor | src/impl/core/AudioNodeOutput.js:5-17 | a new port has no connections, the index truncated to a 32-bit integer, the given enabled flag and a fresh bus with the requested channel count |
| NodeOutput.AudioNodeOutput.GetNumberOfConnections | src/impl/core/AudioNodeOutput.js:40-42 | the list length equals the number of distinct connected inputs |
| NodeOutput.AudioNodeOutput.IsConnectedTo | src/impl/core/AudioNodeOutput.js:98-109 | with one or two arguments: true iff some connected input matches the node (and index); with any other argument count: false |
| NodeOutput.AudioNodeOutput.SetNumberOfChannels | src/impl/core/AudioNodeOutput.js:27-38 | the bus takes the new count; only a change of count notifies every connected input, in list order, with updateNumberOfChannels; the connections and the flag are unchanged |
| NodeOutput.AudioNodeOutput.Enable | src/impl/core/AudioNodeOutput.js:48-56 | the port ends enabled; only a change of state notifies every connected input with enableFrom; the connections are unchanged |
| NodeOutput.AudioNodeOutput.Disable | src/impl/core/AudioNodeOutput.js:58-66 | the port ends disabled; only a change of state notifies every connected input with disableFrom; the connections are unchanged |
| NodeOutput.AudioNodeOutput.Connect | src/impl/core/AudioNodeOutput.js:72-79 | the connected set gains the target and nothing else; a target already present changes nothing and is not notified; a new one is appended and receives one connectFrom; the list stays duplicate-free |
| NodeOutput.AudioNodeOutput.Disconnect | src/impl/core/AudioNodeOutput.js:81-96 | the list becomes the non-matching inputs in their original order; the connected set loses exactly the matching inputs; afterwards isConnectedTo(filter) is false; the matching inputs receive disconnectFrom from last to first; the list stays duplicate-free |
| NodeOutput.AudioNodeOutput.Pull | src/impl/core/AudioNodeOutput.js:111-114 | asks the owning node to process the block, then returns the port's own bus; nothing else changes |
| OfflineRendering.Reached | src/context/OfflineAudioContext.js:156 | the deadline Infinity is never reached; a finite deadline is reached exactly when the current time is at or past it |
| OfflineRendering.ClampLength | src/context/OfflineAudioContext.js:17 | the length truncated to a 32-bit integer, then clamped at 0: the result is below 2^31, equals an in-range length and is 0 for a negative 32-bit length |
| OfflineRendering.PaddedLength | src/context/OfflineAudioContext.js:109 | the padded length is a multiple of the block size, at least the requested length and less than a block more |
| OfflineRendering.TickBlocks | src/context/OfflineAudioContext.js:152-153 | a tick may render at most 128 blocks and never more than the blocks left, and it renders one of those two numbers |
| OfflineRendering.BlocksRun | src/context/OfflineAudioContext.js:155-163 | a tick renders no more blocks than it may |
| OfflineRendering.NoDeadlineRendersAll | src/context/OfflineAudioContext.js:155-163 | with no suspend pending (deadline Infinity), a tick renders every block it may |
| OfflineRendering.SuspendAtZeroStopsAtOnce | src/context/OfflineAudioContext.js:156-158 | with deadline 0 and a non-negative current time, a tick renders no block |
| OfflineRendering.BlocksRunStops | src/context/OfflineAudioContext.js:156-158 | a tick that stops short stops at a block whose start time has reached the deadline |
| OfflineRendering.BlocksRunBeforeDeadline | src/context/OfflineAudioContext.js:156-161 | every block a tick renders starts before the deadline |
| OfflineRendering.BlockStartAligned | src/context/OfflineAudioContext.js:161 | advancing by whole blocks from a block boundary stays on a block boundary |
| OfflineRendering.BlocksFit | src/context/OfflineAudioContext.js:152-155 | the blocks a tick may render fit within the padded buffer |
| OfflineRendering.CreateRenderingAudioData | src/context/OfflineAudioContext.js:108-114 | a fresh buffer with one channel per output channel, each of the padded length and all zero |
| OfflineRendering.OfflineAudioContext.constructor | src/context/OfflineAudioContext.js:15-34 | the requested length is clamped; nothing is pending, allocated or queued; the deadline is Infinity; nothing has been written |
| OfflineRendering.OfflineAudioContext.ChannelData | src/context/OfflineAudioContext.js:128-131 | the view has one channel per output channel, each `_audioData.length` frames long |
| OfflineRendering.OfflineAudioContext.Render | src/context/OfflineAudioContext.js:173-175 | enters "running" (which queues a tick) and records the state change |
| OfflineRendering.OfflineAudioContext.Resume | src/context/OfflineAudioContext.js:54-59 | always resolves; restarts the loop only from "suspended" with rendering started, otherwise changes nothing |
| OfflineRendering.OfflineAudioContext.Suspend | src/context/OfflineAudioContext.js:65-77 | the deadline always becomes max(0, time); an already pending suspend promise is returned unchanged; otherwise exactly one new promise is created |
| OfflineRendering.OfflineAudioContext.Close | src/context/OfflineAudioContext.js:83-85 | always rejects |
| OfflineRendering.OfflineAudioContext.StartRendering | src/context/OfflineAudioContext.js:90-105 | the first call creates the one rendering promise, allocates the padded zero buffer and starts running; every later call returns that promise and changes nothing |
| OfflineRendering.OfflineAudioContext.SuspendRendering | src/context/OfflineAudioContext.js:116-123 | with a suspend pending: resolves it, then enters "suspended", and the deadline returns to Infinity with nothing pending; otherwise nothing changes |
| OfflineRendering.OfflineAudioContext.TrimmedIsExpected | src/context/OfflineAudioContext.js:128-131 | once every frame is rendered, the trimmed channels are the first `length` frames of the graph's output |
| OfflineRendering.OfflineAudioContext.DoneRendering | src/context/OfflineAudioContext.js:125-140 | trims to `length`, enters "closed", dispatches one "complete" carrying the expected buffer, resolves the rendering promise with that buffer and clears its resolver |
| OfflineRendering.OfflineAudioContext.ProcessBlock | src/context/OfflineAudioContext.js:160 | writes the graph's output into exactly one more block of every channel |
| OfflineRendering.OfflineAudioContext.RenderBlocks | src/context/OfflineAudioContext.js:155-163 | renders the blocks that BlocksRun counts, advancing the cursor by one block per block rendered, without passing the padded length |
| OfflineRendering.OfflineAudioContext.RenderBatch | src/context/OfflineAudioContext.js:155-164 | runs the for-loop of one tick and stores the new write index; the scheduler invariant is kept |
| OfflineRendering.RenderNineFrames | src/context/OfflineAudioContext.js:90-171 | a worked render: two channels of 9 frames in blocks of 8 get a 16-frame working buffer; one tick with no suspend pending closes the context; the delivered channels are 9 frames of the graph's output |
| OfflineRendering.OfflineAudioContext.Step | src/context/OfflineAudioContext.js:151-171 | one tick: the write index advances by exactly the blocks rendered; stopping short means a suspend was pending and is resolved, then the state is "suspended"; reaching the padded length means completion with the expected buffer; otherwise the state stays "running" with the next tick queued; the scheduler invariant is kept |

The scheduler invariant `OfflineAudioContext.Valid` requires the following:

- The deadline is finite exactly when a suspend is pending.
- The buffer exists exactly when the rendering promise does.
- `writeIndex` is a block boundary within the padded buffer.
- Frames before `writeIndex` hold the graph's output and the rest are zero.
- The render resolver is held until "closed".
- After "closed", `writeIndex` equals the padded length and `_audioData.length` equals `length`.

## Left out

- The host's task queue (`setImmediate`) and Promise machinery are not modelled. A tick is queued exactly when rendering has started and the state is "running". `Step` is one run of that tick, and promises are ids.
- `impl.process` and `impl.currentTime` are not modelled as code. They are a fixed function `graph(channel, frame)` and a function `clock(frames)`. Changes to the graph while a render is in progress are therefore not modelled.
- The trimmed channels are `subarray` views of the working buffer in the source. The model copies them into the delivered record, so the aliasing is not modelled.
- The `oncomplete` getter and setter and the event-listener plumbing of the base context are not part of this model.
- `util.toValidNumberOfChannels`, `util.toValidSampleRate`, `util.toNumber` and `defineProp` are not part of this model. The constructor takes an already valid channel count and sample rate.
- `suspend` takes a real time. A NaN time, which never reaches `currentTime`, is not modelled.
- `OfflineRendering.OfflineAudioContext.Suspend` takes a finite time. `suspend(Infinity)` stores the deadline Infinity together with a new pending promise; the invariant `Valid` ties a pending promise to a finite deadline, so this state is not modelled.
- `OfflineRendering.ClampLength` takes an integer length. The truncation of a fractional or non-finite length by `|0` is not modelled.
- The state the base context starts in is `Initial`. Its name and behaviour come from code that is not part of this model.
- `OfflineRendering.BlocksRun`: its own contract states only the bound. Which blocks it renders is stated by `BlocksRunStops` and `BlocksRunBeforeDeadline`.
- AudioBus mixing, channel interpretation, sample contents and `zeros()` are not part of this model. The bus is its channel count.
- The AudioNodeInput methods are not modelled. They appear only as recorded notices.
- `destination.getInput(i)` is a handle `(node, i)`. An out-of-range input index is not modelled.
- `NodeOutput.AudioNodeOutput.constructor` takes an integer index. `index|0` also truncates a fractional index and turns `undefined` into 0; that is not modelled.
- `setNumberOfChannels` also calls `node.getChannelInterpretation()` and `_audioBus.setNumberOfChannels(n, interpretation)`. These calls are not recorded as notices; only the new channel count of the bus is modelled.
- `toAudioData` returns the caller's own `channelData` array, and `toAudioBuffer` installs that same array in the buffer. Channel data are sequence values here, so this sharing of one array is not modelled.
- `enabled` and `constraints` are booleans. The truthiness coercion of arbitrary JavaScript values by `!!` and `!` is not modelled.
- The PeriodicWave `context` field is not modelled.
- `getReal`, `getImag` and `getConstraints` are modelled as plain getter functions with no contract.
- `getName`, `getAudioBus`, `getNumberOfChannels` and `isEnabled` are also plain getter functions with no contract.
- Coefficients are real numbers with `Pi` a constant, and `Math.sin` is a parameter. Float64 evaluation, rounding into Float32Array and the triangle table's zeros at even n (not exact in floating point) are not modelled.
- Samples are reals. Float32 rounding of rendered samples is not modelled.
- `toAudioBuffer` constructs the buffer with the AudioBuffer API class, which is not part of this model. The buffer is a small class holding its audio data. The `_impl || audioBuffer` choice is not modelled.
- `src/api/AudioListener.js` only forwards to its implementation and is not part of this model.

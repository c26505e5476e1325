/** The offline rendering scheduler (src/context/OfflineAudioContext.js):
    a session that renders the graph block by block into a working buffer,
    a bounded batch of blocks per tick of the host's task queue, with
    sample-accurate suspension and a single completion.

    The host's task queue is not modelled: a tick is queued exactly when
    `TickQueued()` holds, and `Step` is one run of that tick. Promises are numbered as
    they are created; resolving one, changing state and dispatching the
    "complete" event are recorded, in order, as events. */
module OfflineRendering {
  import opened Wrappers
  import opened JsNumbers
  import opened AudioDataUtil

  /** `_renderingIterations`: the most blocks one tick renders. */
  const RenderingIterations: nat := 128

  /** The context's state as reported by the engine. `Initial` is whatever the
      base context starts in, before rendering is started. */
  datatype State = Initial | Running | Suspended | Closed

  /** `_suspendedTime`: `Never` is Infinity, the deadline no time reaches. */
  datatype Deadline = Never | At(time: real)

  /** `_suspendedTime <= impl.currentTime`. */
  predicate Reached(deadline: Deadline, now: real)
    // Infinity is never reached; a finite deadline is reached from its own time on
    ensures deadline.Never? ==> !Reached(deadline, now)
    ensures deadline.At? ==> (Reached(deadline, now) <==> deadline.time <= now)
  {
    deadline.At? && deadline.time <= now
  }

  type PromiseId = nat

  datatype Settlement = Resolved | Rejected

  datatype Event =
    | StateChanged(to: State)
    | SuspendResolved(promise: PromiseId)
    | Completed(renderedBuffer: AudioData)
    | RenderResolved(promise: PromiseId, renderedBuffer: AudioData)

  /** `Math.max(0, length|0)` for an integer-valued length. */
  function ClampLength(length: int): (r: nat)
    ensures r < TwoTo31
    ensures 0 <= length < TwoTo31 ==> r == length
    ensures -TwoTo31 <= length < 0 ==> r == 0
  {
    Max(0, ToInt32(length))
  }

  lemma MulAtLeast(k: nat, b: nat)
    requires k >= 1
    ensures k * b >= b
  {
    assert k * b == (k - 1) * b + b;
  }

  /** A whole multiple of the divisor leaves no remainder. */
  lemma MultipleOf(q: nat, b: nat)
    requires b > 0
    ensures (q * b) % b == 0
  {
    var x := q * b;
    var d, m := x / b, x % b;
    assert x == d * b + m;
    if d < q {
      MulAtLeast(q - d, b);
      assert false;
    } else if d > q {
      MulAtLeast(d - q, b);
      assert false;
    }
  }

  /** `Math.ceil(length / blockSize) * blockSize`: the smallest multiple of the
      block size that is at least `length`. */
  function PaddedLength(length: nat, blockSize: nat): (r: nat)
    requires blockSize > 0
    ensures r % blockSize == 0 && length <= r < length + blockSize
  {
    var q := (length + blockSize - 1) / blockSize;
    MultipleOf(q, blockSize);
    assert length + blockSize - 1 == q * blockSize + (length + blockSize - 1) % blockSize;
    q * blockSize
  }

  /** The frame at which block j of a tick starts, for a tick starting at `cursor`. */
  function BlockStart(cursor: nat, j: nat, blockSize: nat): nat {
    cursor + j * blockSize
  }

  /** How many blocks one tick may render: RenderingIterations, or the blocks
      left before `end` if fewer (`Math.min(...)|0`, whose operands are never
      negative, so truncation is the floor). */
  function TickBlocks(cursor: nat, end: nat, blockSize: nat): (n: nat)
    requires blockSize > 0 && cursor <= end
    ensures n <= RenderingIterations && n <= (end - cursor) / blockSize
    ensures n == RenderingIterations || n == (end - cursor) / blockSize
  {
    Min(RenderingIterations, (end - cursor) / blockSize)
  }

  /** How many of the `n` blocks a tick may render it does render: it stops
      before the first block at whose start the deadline has been reached. */
  function BlocksRun(cursor: nat, n: nat, deadline: Deadline, clock: nat -> real, blockSize: nat): (k: nat)
    ensures k <= n
    decreases n
  {
    if n == 0 || Reached(deadline, clock(cursor)) then 0
    else 1 + BlocksRun(cursor + blockSize, n - 1, deadline, clock, blockSize)
  }

  /** With no suspend pending, a tick renders every block it may. */
  lemma {:induction false} NoDeadlineRendersAll(cursor: nat, n: nat, clock: nat -> real, blockSize: nat)
    ensures BlocksRun(cursor, n, Never, clock, blockSize) == n
    decreases n
  {
    if n > 0 {
      NoDeadlineRendersAll(cursor + blockSize, n - 1, clock, blockSize);
    }
  }

  /** suspend(0) stops a tick before its first block, whenever the clock
      reads a time that is not negative. */
  lemma SuspendAtZeroStopsAtOnce(cursor: nat, n: nat, clock: nat -> real, blockSize: nat)
    requires clock(cursor) >= 0.0
    ensures BlocksRun(cursor, n, At(0.0), clock, blockSize) == 0
  {
  }

  /** A tick that stops short stops at a block at whose start the deadline
      has been reached. */
  lemma {:induction false} BlocksRunStops(cursor: nat, n: nat, deadline: Deadline, clock: nat -> real,
                                          blockSize: nat)
    ensures var k := BlocksRun(cursor, n, deadline, clock, blockSize);
      k < n ==> Reached(deadline, clock(BlockStart(cursor, k, blockSize)))
    decreases n
  {
    var k := BlocksRun(cursor, n, deadline, clock, blockSize);
    if k > 0 {
      BlocksRunStops(cursor + blockSize, n - 1, deadline, clock, blockSize);
      assert BlockStart(cursor, k, blockSize) == BlockStart(cursor + blockSize, k - 1, blockSize);
    }
  }

  /** No block a tick renders starts at or after the deadline. */
  lemma {:induction false} BlocksRunBeforeDeadline(cursor: nat, n: nat, deadline: Deadline, clock: nat -> real,
                                                   blockSize: nat)
    ensures forall j :: 0 <= j < BlocksRun(cursor, n, deadline, clock, blockSize) ==>
      !Reached(deadline, clock(BlockStart(cursor, j, blockSize)))
    decreases n
  {
    var k := BlocksRun(cursor, n, deadline, clock, blockSize);
    if k > 0 {
      BlocksRunBeforeDeadline(cursor + blockSize, n - 1, deadline, clock, blockSize);
      forall j | 0 < j < k
        ensures !Reached(deadline, clock(BlockStart(cursor, j, blockSize)))
      {
        assert BlockStart(cursor, j, blockSize) == BlockStart(cursor + blockSize, j - 1, blockSize);
      }
    }
  }

  lemma BlockStartNext(cursor: nat, j: nat, blockSize: nat)
    ensures BlockStart(cursor, j + 1, blockSize) == BlockStart(cursor, j, blockSize) + blockSize
  {
    assert (j + 1) * blockSize == j * blockSize + blockSize;
  }

  lemma BlockStartMonotone(cursor: nat, i: nat, j: nat, blockSize: nat)
    requires i <= j
    ensures BlockStart(cursor, i, blockSize) <= BlockStart(cursor, j, blockSize)
  {
    assert j * blockSize == i * blockSize + (j - i) * blockSize;
  }

  /** Whole blocks from a block boundary end on a block boundary. */
  lemma BlockStartAligned(cursor: nat, j: nat, blockSize: nat)
    requires blockSize > 0 && cursor % blockSize == 0
    ensures BlockStart(cursor, j, blockSize) % blockSize == 0
  {
    var q := cursor / blockSize;
    assert cursor == q * blockSize;
    assert BlockStart(cursor, j, blockSize) == (q + j) * blockSize;
    MultipleOf(q + j, blockSize);
  }

  /** `n` whole blocks from `cursor` fit when n is at most the blocks remaining. */
  lemma BlocksFit(cursor: nat, end: nat, n: nat, blockSize: nat)
    requires blockSize > 0 && cursor <= end && n <= (end - cursor) / blockSize
    ensures BlockStart(cursor, n, blockSize) <= end
  {
    var q := (end - cursor) / blockSize;
    assert n * blockSize <= q * blockSize;
  }

  /** createRenderingAudioData: one zero-filled channel per output channel,
      each padded to a whole number of blocks. */
  method CreateRenderingAudioData(numberOfChannels: nat, length: nat, blockSize: nat)
    returns (channelData: array2<Sample>)
    requires blockSize > 0
    ensures fresh(channelData)
    ensures channelData.Length0 == numberOfChannels && channelData.Length1 == PaddedLength(length, blockSize)
    ensures forall ch, f :: 0 <= ch < channelData.Length0 && 0 <= f < channelData.Length1 ==>
      channelData[ch, f] == 0.0
  {
    channelData := new Sample[numberOfChannels, PaddedLength(length, blockSize)]((ch, f) => 0.0);
  }

  class OfflineAudioContext {
    const numberOfChannels: nat
    /** `_length`: the number of frames requested. */
    const length: nat
    const sampleRate: real
    /** `impl.blockSize`: the frames rendered per block. */
    const blockSize: nat
    /** `impl.currentTime` once the given number of frames has been rendered. */
    const clock: nat -> real
    /** The destination's output that `impl.process` writes: sample of channel ch at frame f. */
    const graph: (nat, nat) -> Sample

    var state: State
    /** `_writeIndex`: the frames rendered so far. */
    var writeIndex: nat
    var suspendedTime: Deadline
    /** `_suspendPromise`; its resolver `_suspendResolve` is held exactly while it is set. */
    var suspendPromise: Option<PromiseId>
    /** `_renderingPromise`: created once, never cleared. */
    var renderingPromise: Option<PromiseId>
    /** `_renderingResolve !== null`. */
    var renderingPending: bool
    /** `_audioData.channelData`, channel by frame; null until rendering starts. */
    var audioData: array2?<Sample>
    /** `_audioData.length`: the padded length, then `length` once rendering is done. */
    var audioDataLength: nat
    /** The number of promises created so far. */
    var promiseCount: nat
    ghost var events: seq<Event>

    /** A tick of the rendering loop is queued exactly when rendering has
        started and the context is running: render queues one, and each tick
        either queues the next or leaves "running". */
    predicate TickQueued()
      reads this
    {
      audioData != null && state == Running
    }

    /** Frames before `w` hold the destination's output, the rest are still zero. */
    ghost predicate RenderedUpTo(data: array2<Sample>, w: nat)
      reads data
    {
      forall ch, f :: 0 <= ch < data.Length0 && 0 <= f < data.Length1 ==>
        data[ch, f] == if f < w then graph(ch, f) else 0.0
    }

    ghost predicate Valid()
      reads this, audioData
    {
      && blockSize > 0
      && (suspendedTime.At? <==> suspendPromise.Some?)
      && (suspendedTime.At? ==> suspendedTime.time >= 0.0)
      && (renderingPromise.None? <==> audioData == null)
      && (audioData == null ==> state == Initial && writeIndex == 0 && !renderingPending)
      && (audioData != null ==>
            && audioData.Length0 == numberOfChannels
            && audioData.Length1 == PaddedLength(length, blockSize)
            && writeIndex <= audioData.Length1 && writeIndex % blockSize == 0
            && RenderedUpTo(audioData, writeIndex)
            && state != Initial
            && (renderingPending <==> state != Closed)
            && (state == Closed ==> writeIndex == audioData.Length1 && audioDataLength == length)
            && (state != Closed ==> audioDataLength == audioData.Length1))
    }

    /** The buffer a complete render delivers: `length` frames of the
        destination's output per channel (a buffer with no channels has no frames). */
    function ExpectedRender(): AudioData {
      AudioData(numberOfChannels, if numberOfChannels == 0 then 0 else length, Finite(sampleRate),
                seq(numberOfChannels, ch requires 0 <= ch => seq(length, f requires 0 <= f => graph(ch, f))))
    }

    /** `_audioData.channelData` as the JavaScript arrays see it: the first
        `audioDataLength` frames of each channel. */
    function ChannelData(): (r: seq<seq<Sample>>)
      reads this, audioData
      requires audioData != null && audioDataLength <= audioData.Length1
      ensures |r| == audioData.Length0
      ensures forall ch :: 0 <= ch < |r| ==> |r[ch]| == audioDataLength
    {
      var data, frames := audioData, audioDataLength;
      seq(data.Length0, ch requires 0 <= ch < data.Length0 reads data =>
        seq(frames, f requires 0 <= f < frames reads data => data[ch, f]))
    }

    /** The count of channels and the requested length are clamped; nothing is
        allocated or queued yet. `clock` and `graph` stand for the engine the
        base context creates. */
    constructor (numberOfChannels: nat, length: int, sampleRate: real, blockSize: nat,
                 clock: nat -> real, graph: (nat, nat) -> Sample)
      requires blockSize > 0
      ensures Valid() && !TickQueued()
      ensures this.numberOfChannels == numberOfChannels && this.length == ClampLength(length)
      ensures this.sampleRate == sampleRate && this.blockSize == blockSize
      ensures this.clock == clock && this.graph == graph
      ensures state == Initial && writeIndex == 0 && suspendedTime == Never && suspendPromise == None
      ensures renderingPromise == None && !renderingPending && audioData == null
      ensures promiseCount == 0 && events == []
    {
      this.numberOfChannels := numberOfChannels;
      this.length := ClampLength(length);
      this.sampleRate := sampleRate;
      this.blockSize := blockSize;
      this.clock := clock;
      this.graph := graph;
      this.state := Initial;
      this.writeIndex := 0;
      this.suspendedTime := Never;
      this.suspendPromise := None;
      this.renderingPromise := None;
      this.renderingPending := false;
      this.audioData := null;
      this.audioDataLength := 0;
      this.promiseCount := 0;
      this.events := [];
    }

    /** render: enter "running" and queue a tick of the loop. */
    method Render()
      modifies this`state, this`events
      ensures state == Running && events == old(events) + [StateChanged(Running)]
    {
      state := Running;
      events := events + [StateChanged(Running)];
    }

    /** resume: restart the loop only from a suspended, started render; the
        returned promise is always resolved. */
    method Resume() returns (r: Settlement)
      requires Valid()
      modifies this`state, this`events
      ensures Valid() && r == Resolved
      ensures old(state) == Suspended && old(renderingPromise).Some? ==>
        TickQueued() && events == old(events) + [StateChanged(Running)]
      ensures !(old(state) == Suspended && old(renderingPromise).Some?) ==>
        state == old(state) && events == old(events)
    {
      if state == Suspended && renderingPromise.Some? {
        Render();
      }
      r := Resolved;
    }

    /** suspend: the deadline, clamped to be non-negative, always replaces the
        previous one; a new promise is created only when none is pending. */
    method Suspend(time: real) returns (p: PromiseId)
      requires Valid()
      modifies this`suspendedTime, this`suspendPromise, this`promiseCount
      ensures Valid()
      ensures suspendedTime == At(if time < 0.0 then 0.0 else time)
      ensures suspendPromise == Some(p)
      ensures old(suspendPromise).Some? ==> p == old(suspendPromise).value && promiseCount == old(promiseCount)
      ensures old(suspendPromise).None? ==> p == old(promiseCount) && promiseCount == p + 1
    {
      suspendedTime := At(if time < 0.0 then 0.0 else time);
      if suspendPromise.None? {
        suspendPromise := Some(promiseCount);
        promiseCount := promiseCount + 1;
      }
      p := suspendPromise.value;
    }

    /** close: an offline context cannot be closed; the promise always rejects. */
    method Close() returns (r: Settlement)
      ensures r == Rejected
    {
      r := Rejected;
    }

    /** startRendering: the first call allocates the working buffer and starts
        the loop; every call returns the one rendering promise. */
    method StartRendering() returns (p: PromiseId)
      requires Valid()
      modifies this
      ensures Valid()
      ensures renderingPromise == Some(p)
      ensures old(renderingPromise).Some? ==> p == old(renderingPromise).value && unchanged(this)
      ensures old(renderingPromise).None? ==>
        && p == old(promiseCount) && promiseCount == p + 1
        && fresh(audioData) && audioDataLength == PaddedLength(length, blockSize)
        && writeIndex == 0 && TickQueued() && renderingPending
        && suspendedTime == old(suspendedTime) && suspendPromise == old(suspendPromise)
        && events == old(events) + [StateChanged(Running)]
    {
      if renderingPromise.None? {
        p := promiseCount;
        promiseCount := promiseCount + 1;
        renderingPromise := Some(p);
        audioData := CreateRenderingAudioData(numberOfChannels, length, blockSize);
        audioDataLength := audioData.Length1;
        renderingPending := true;
        Render();
      } else {
        p := renderingPromise.value;
      }
    }

    /** suspendRendering: with a suspend pending, resolve it, clear the
        deadline and enter "suspended"; otherwise nothing happens. */
    method SuspendRendering()
      requires Valid() && TickQueued()
      modifies this`suspendedTime, this`suspendPromise, this`state, this`events
      ensures Valid()
      ensures old(suspendPromise).Some? ==>
        && suspendedTime == Never && suspendPromise == None && state == Suspended
        && events == old(events) + [SuspendResolved(old(suspendPromise).value), StateChanged(Suspended)]
      ensures old(suspendPromise).None? ==>
        suspendedTime == old(suspendedTime) && suspendPromise == None && state == old(state) && events == old(events)
    {
      if suspendPromise.Some? {
        events := events + [SuspendResolved(suspendPromise.value)];
        suspendedTime := Never;
        suspendPromise := None;
        state := Suspended;
        events := events + [StateChanged(Suspended)];
      }
    }

    /** Once every frame is rendered, the first `length` frames of each channel
        are the destination's output. */
    lemma TrimmedIsExpected()
      requires audioData != null && audioData.Length0 == numberOfChannels
      requires length <= audioData.Length1 && audioDataLength == length
      requires RenderedUpTo(audioData, audioData.Length1)
      ensures ChannelData() == ExpectedRender().channelData
    {
      var expected := ExpectedRender().channelData;
      forall ch | 0 <= ch < numberOfChannels
        ensures ChannelData()[ch] == expected[ch]
      {
        assert forall f :: 0 <= f < length ==> ChannelData()[ch][f] == audioData[ch, f];
      }
    }

    /** doneRendering: trim every channel to `length`, enter "closed",
        dispatch "complete" and resolve the rendering promise, once. */
    method DoneRendering()
      requires Valid() && TickQueued() && writeIndex == audioData.Length1
      modifies this`audioDataLength, this`state, this`events, this`renderingPending
      ensures Valid()
      ensures audioDataLength == length && state == Closed && !renderingPending
      ensures events == old(events) +
        [StateChanged(Closed), Completed(ExpectedRender()), RenderResolved(renderingPromise.value, ExpectedRender())]
    {
      audioDataLength := length;
      var trimmed := AudioData(numberOfChannels, length, Finite(sampleRate), ChannelData());
      TrimmedIsExpected();
      RecordNormalises(trimmed);
      // toAudioBuffer stores exactly this normalised record in the new buffer
      var renderedBuffer := ToAudioData(AsValue(trimmed)).value;
      assert renderedBuffer == ExpectedRender();
      state := Closed;
      events := events + [StateChanged(Closed), Completed(renderedBuffer)];
      events := events + [RenderResolved(renderingPromise.value, renderedBuffer)];
      renderingPending := false;
    }

    /** impl.process: write one block of the destination's output at `cursor`. */
    method ProcessBlock(cursor: nat)
      requires audioData != null && cursor + blockSize <= audioData.Length1
      requires RenderedUpTo(audioData, cursor)
      modifies audioData
      ensures RenderedUpTo(audioData, cursor + blockSize)
    {
      forall ch, f | 0 <= ch < audioData.Length0 && cursor <= f < cursor + blockSize {
        audioData[ch, f] := graph(ch, f);
      }
    }

    /** The `for` loop of one tick: render up to `iterations` blocks from
        `start`, stopping before the first block at whose start the suspend
        deadline has been reached. */
    method RenderBlocks(start: nat, iterations: nat) returns (cursor: nat, rendered: nat)
      requires audioData != null && RenderedUpTo(audioData, start)
      requires BlockStart(start, iterations, blockSize) <= audioData.Length1
      modifies audioData
      ensures rendered == BlocksRun(start, iterations, suspendedTime, clock, blockSize)
      ensures cursor == BlockStart(start, rendered, blockSize) <= audioData.Length1
      ensures RenderedUpTo(audioData, cursor)
    {
      cursor := start;
      rendered := 0;
      while rendered < iterations
        invariant 0 <= rendered <= iterations
        invariant cursor == BlockStart(start, rendered, blockSize)
        invariant BlocksRun(start, iterations, suspendedTime, clock, blockSize) ==
                  rendered + BlocksRun(cursor, iterations - rendered, suspendedTime, clock, blockSize)
        invariant RenderedUpTo(audioData, cursor)
      {
        if Reached(suspendedTime, clock(cursor)) {
          break;
        }
        BlockStartNext(start, rendered, blockSize);
        BlockStartMonotone(start, rendered + 1, iterations, blockSize);
        ProcessBlock(cursor);
        cursor := cursor + blockSize;
        rendered := rendered + 1;
      }
      BlockStartMonotone(start, rendered, iterations, blockSize);
    }

    /** Run the `for` loop of one tick and record how far it got in `_writeIndex`. */
    method RenderBatch(iterations: nat) returns (rendered: nat)
      requires Valid() && TickQueued()
      requires iterations <= (audioData.Length1 - writeIndex) / blockSize
      modifies audioData, this`writeIndex
      ensures Valid()
      ensures rendered == BlocksRun(old(writeIndex), iterations, suspendedTime, clock, blockSize)
      ensures writeIndex == BlockStart(old(writeIndex), rendered, blockSize)
    {
      BlocksFit(writeIndex, audioData.Length1, iterations, blockSize);
      var cursor;
      cursor, rendered := RenderBlocks(writeIndex, iterations);
      BlockStartAligned(writeIndex, rendered, blockSize);
      writeIndex := cursor;
    }

    /** One tick of the rendering loop: render up to RenderingIterations
        blocks, checking the suspend deadline before each; then suspend,
        finish, or queue the next tick. */
    method Step()
      requires Valid() && TickQueued()
      modifies audioData, this`writeIndex, this`suspendedTime, this`suspendPromise, this`state, this`events,
               this`audioDataLength, this`renderingPending
      ensures Valid()
      ensures var n := TickBlocks(old(writeIndex), old(audioDataLength), blockSize);
        var k := BlocksRun(old(writeIndex), n, old(suspendedTime), clock, blockSize);
        && writeIndex == BlockStart(old(writeIndex), k, blockSize)
        && (k < n ==>
              && old(suspendPromise).Some?
              && state == Suspended && suspendedTime == Never && suspendPromise == None
              && events == old(events) + [SuspendResolved(old(suspendPromise).value), StateChanged(Suspended)])
        && (k == n && writeIndex < audioData.Length1 ==>
              && TickQueued()
              && suspendedTime == old(suspendedTime) && suspendPromise == old(suspendPromise)
              && events == old(events))
        && (k == n && writeIndex == audioData.Length1 ==>
              && state == Closed
              && suspendedTime == old(suspendedTime) && suspendPromise == old(suspendPromise)
              && events == old(events) +
                   [StateChanged(Closed), Completed(ExpectedRender()),
                    RenderResolved(renderingPromise.value, ExpectedRender())])
    {
      var audioDataLength := this.audioDataLength;
      var iterations := TickBlocks(writeIndex, audioDataLength, blockSize);
      ghost var start, deadline := writeIndex, suspendedTime;
      var rendered := RenderBatch(iterations);
      if rendered < iterations {
        BlocksRunStops(start, iterations, deadline, clock, blockSize);
        SuspendRendering();
      } else if writeIndex == audioDataLength {
        DoneRendering();
      }
    }
  }

  /** A worked render: two channels of nine frames in blocks of eight are
      rendered into a working buffer of sixteen frames, by a single tick with
      no suspend pending, and delivered trimmed to nine frames. */
  method RenderNineFrames() returns (padded: nat, state: State, channels: seq<seq<Sample>>)
    ensures padded == 16 && state == Closed
    ensures |channels| == 2 && forall ch :: 0 <= ch < 2 ==> |channels[ch]| == 9
    ensures forall ch, f :: 0 <= ch < 2 && 0 <= f < 9 ==> channels[ch][f] == (ch * 100 + f) as real
  {
    var context := new OfflineAudioContext(2, 9, 44100.0, 8, frames => frames as real / 44100.0,
                                           (ch, f) => (ch * 100 + f) as real);
    var p := context.StartRendering();
    padded := context.audioData.Length1;
    assert PaddedLength(9, 8) == 16;
    NoDeadlineRendersAll(0, 2, context.clock, 8);
    context.Step();
    state := context.state;
    channels := context.ChannelData();
    forall ch, f | 0 <= ch < 2 && 0 <= f < 9
      ensures channels[ch][f] == (ch * 100 + f) as real
    {
      assert channels[ch][f] == context.audioData[ch, f];
    }
  }
}

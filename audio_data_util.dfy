/** Validation and conversion of "audio data": the plain record
    `{numberOfChannels, length, sampleRate, channelData}` that the engine
    exchanges, built either from such a record or from an AudioBuffer-like
    object (src/util/audioDataUtil.js). */
module AudioDataUtil {
  import opened Wrappers

  /** One sample of a Float32Array; rounding to single precision is not modelled. */
  type Sample = real

  /** A JavaScript number as the checks below see it: NaN and both infinities
      are the non-finite numbers. */
  datatype Num = Finite(value: real) | NonFinite

  /** One element of a `channelData` array: a Float32Array or anything else. */
  datatype Element = Float32Array(samples: seq<Sample>) | OtherElement

  /** A JavaScript value handed to the converters. Every falsy value is `Falsy`;
      any other value is an `Object` whose properties are read by name. A
      property that is missing or is not of the type the code tests for is
      `None`: `sampleRate` and `numberOfChannels` when they are not numbers,
      `channelData` when it is not an array, `getChannelData` when it is not a
      function (the function maps a channel index to that channel's samples). */
  datatype Value =
    | Falsy
    | Object(sampleRate: Option<Num>, numberOfChannels: Option<Num>,
             channelData: Option<seq<Element>>, getChannelData: Option<nat -> seq<Sample>>)

  /** The normalised record that toAudioData returns. */
  datatype AudioData = AudioData(numberOfChannels: nat, length: nat, sampleRate: Num,
                                 channelData: seq<seq<Sample>>)

  /** The exception `new Array(n)` throws for a length that is not a valid array length. */
  datatype JsError = RangeError

  /** isAudioData: a truthy value with a finite `sampleRate` and an array
      `channelData` all of whose elements are Float32Arrays. */
  predicate IsAudioData(v: Value)
    // each guard of the source rejects on its own
    ensures v.Falsy? ==> !IsAudioData(v)
    ensures v.Object? && (v.sampleRate.None? || v.sampleRate.value.NonFinite?) ==> !IsAudioData(v)
    ensures v.Object? && v.channelData.None? ==> !IsAudioData(v)
    ensures v.Object? && v.channelData.Some? &&
            (exists i :: 0 <= i < |v.channelData.value| && v.channelData.value[i].OtherElement?) ==>
            !IsAudioData(v)
  {
    && v.Object?
    && v.sampleRate.Some? && v.sampleRate.value.Finite?
    && v.channelData.Some?
    && forall i :: 0 <= i < |v.channelData.value| ==> v.channelData.value[i].Float32Array?
  }

  /** isAudioBuffer: a truthy value whose `numberOfChannels` and `sampleRate`
      are numbers and whose `getChannelData` is a function. */
  predicate IsAudioBuffer(v: Value)
    // a falsy value, or one missing any of the three members, is not buffer-like
    ensures v.Falsy? ==> !IsAudioBuffer(v)
    ensures v.Object? && (v.numberOfChannels.None? || v.sampleRate.None? || v.getChannelData.None?) ==>
      !IsAudioBuffer(v)
  {
    && v.Object?
    && v.numberOfChannels.Some?
    && v.sampleRate.Some?
    && v.getChannelData.Some?
  }

  /** `new Array(n)` with one numeric argument accepts exactly the integers in [0, 2^32). */
  predicate IsArrayLength(n: Num)
    // an accepted length is a whole number in [0, 2^32); NaN, the infinities and negatives are refused
    ensures IsArrayLength(n) ==> n.Finite? && 0 <= n.value.Floor < 4294967296 && n.value.Floor as real == n.value
    ensures n.NonFinite? || (n.Finite? && n.value < 0.0) ==> !IsArrayLength(n)
  {
    n.Finite? && n.value == n.value.Floor as real && 0.0 <= n.value < 4294967296.0
  }

  /** The sample arrays of a channelData array whose elements are all Float32Arrays. */
  function Channels(cd: seq<Element>): (r: seq<seq<Sample>>)
    requires forall i :: 0 <= i < |cd| ==> cd[i].Float32Array?
    ensures |r| == |cd|
  {
    seq(|cd|, i requires 0 <= i < |cd| => cd[i].samples)
  }

  /** toAudioData: the audio-data branch is tried first, then the buffer
      branch, and anything else becomes the empty record. The buffer branch
      throws when `numberOfChannels` is not a valid array length. */
  function ToAudioData(v: Value): (r: Result<AudioData, JsError>)
    // every record it returns is consistent: one entry per channel, length of channel 0
    ensures r.Ok? ==> r.value.numberOfChannels == |r.value.channelData|
    ensures r.Ok? ==> r.value.length == if r.value.channelData == [] then 0 else |r.value.channelData[0]|
    // the only failure is an AudioBuffer-like value with an unusable channel count
    ensures r.Err? <==> !IsAudioData(v) && IsAudioBuffer(v) && !IsArrayLength(v.numberOfChannels.value)
    // audio data keeps its own sample rate and channel arrays, in order
    ensures IsAudioData(v) ==>
      r.Ok? && r.value.sampleRate == v.sampleRate.value && |r.value.channelData| == |v.channelData.value| &&
      forall ch :: 0 <= ch < |r.value.channelData| ==> r.value.channelData[ch] == v.channelData.value[ch].samples
    // an AudioBuffer-like value contributes getChannelData(ch) for each channel ch
    ensures !IsAudioData(v) && IsAudioBuffer(v) && r.Ok? ==>
      r.value.sampleRate == v.sampleRate.value &&
      r.value.numberOfChannels as real == v.numberOfChannels.value.value &&
      forall ch :: 0 <= ch < |r.value.channelData| ==> r.value.channelData[ch] == v.getChannelData.value(ch)
    // everything else is the empty record
    ensures !IsAudioData(v) && !IsAudioBuffer(v) ==> r == Ok(AudioData(0, 0, Finite(0.0), []))
  {
    if IsAudioData(v) then
      var channelData := Channels(v.channelData.value);
      var numberOfChannels := |channelData|;
      var length := if numberOfChannels > 0 then |channelData[0]| else 0;
      Ok(AudioData(numberOfChannels, length, v.sampleRate.value, channelData))
    else if IsAudioBuffer(v) then
      if !IsArrayLength(v.numberOfChannels.value) then Err(RangeError)
      else
        var numberOfChannels: nat := v.numberOfChannels.value.value.Floor;
        var getChannelData := v.getChannelData.value;
        var channelData := seq(numberOfChannels, ch requires 0 <= ch < numberOfChannels => getChannelData(ch));
        var length := if numberOfChannels > 0 then |channelData[0]| else 0;
        Ok(AudioData(numberOfChannels, length, v.sampleRate.value, channelData))
    else
      Ok(AudioData(0, 0, Finite(0.0), []))
  }

  /** A normalised record read back as a JavaScript value: a plain object whose
      channels are Float32Arrays and which has no getChannelData. */
  function AsValue(d: AudioData): (v: Value)
    ensures v.Object? && v.getChannelData.None?
  {
    Object(Some(d.sampleRate), Some(Finite(d.numberOfChannels as real)),
           Some(seq(|d.channelData|, i requires 0 <= i < |d.channelData| => Float32Array(d.channelData[i]))),
           None)
  }

  /** A record with a finite sample rate is audio data, and normalising it
      recomputes the channel count and length from its channel arrays. */
  lemma {:induction false} RecordNormalises(d: AudioData)
    requires d.sampleRate.Finite?
    ensures IsAudioData(AsValue(d))
    ensures ToAudioData(AsValue(d)) ==
      Ok(AudioData(|d.channelData|, if d.channelData == [] then 0 else |d.channelData[0]|,
                   d.sampleRate, d.channelData))
  {
    var v := AsValue(d);
    var r := ToAudioData(v);
    assert r.Ok?;
    assert r.value.channelData == d.channelData;
  }

  /** Normalising a normalised record (with a finite sample rate) changes nothing. */
  lemma {:induction false} ToAudioDataIdempotent(v: Value)
    requires ToAudioData(v).Ok? && ToAudioData(v).value.sampleRate.Finite?
    ensures ToAudioData(AsValue(ToAudioData(v).value)) == ToAudioData(v)
  {
    RecordNormalises(ToAudioData(v).value);
  }

  /** The audio data of an AudioBuffer: the four fields toAudioBuffer assigns. */
  class AudioBuffer {
    var numberOfChannels: nat
    var length: nat
    var sampleRate: Num
    var channelData: seq<seq<Sample>>

    /** The AudioBuffer constructor itself is not part of this model: the
        buffer starts empty at the requested sample rate. */
    constructor (sampleRate: Num)
      ensures GetAudioData() == AudioData(0, 0, sampleRate, [])
    {
      this.numberOfChannels := 0;
      this.length := 0;
      this.sampleRate := sampleRate;
      this.channelData := [];
    }

    /** getAudioData: the record the buffer holds. */
    function GetAudioData(): AudioData
      reads this
    {
      AudioData(numberOfChannels, length, sampleRate, channelData)
    }
  }

  /** toAudioBuffer: normalise the value, then store exactly the four fields of
      the normalised record into a new buffer. Throws where toAudioData throws. */
  method ToAudioBuffer(v: Value) returns (r: Result<AudioBuffer, JsError>)
    ensures r.Err? <==> ToAudioData(v).Err?
    ensures r.Err? ==> r.error == ToAudioData(v).error
    ensures r.Ok? ==> fresh(r.value) && r.value.GetAudioData() == ToAudioData(v).value
  {
    var data := ToAudioData(v);
    if data.Err? {
      return Err(data.error);
    }
    var d := data.value;
    var audioBuffer := new AudioBuffer(d.sampleRate);
    audioBuffer.numberOfChannels := d.numberOfChannels;
    audioBuffer.length := d.length;
    audioBuffer.sampleRate := d.sampleRate;
    audioBuffer.channelData := d.channelData;
    return Ok(audioBuffer);
  }
}

/**
 * The native audio bridge (`agora::AudioFrameObserver`): each of the four audio
 * handlers copies the frame's sample buffer into a managed `byte[]`, hands it to
 * the managed callback inside a new `AudioFrame`, copies the whole array back into
 * the native buffer and returns the callback's answer.
 *
 * As on the video side, the managed callback is a function value: it receives the
 * constructor arguments of the managed frame and yields its answer together with
 * the contents it leaves in the array.
 */
module AudioObserver {
  import opened Jni

  /** Everything of an engine audio frame the bridge reads or writes, at one moment. */
  datatype AudioFrameState = AudioFrameState(
    frameType: int, samplesPerChannel: int, bytesPerSample: int, channels: int,
    samplesPerSec: int, buffer: Option<seq<Byte>>, renderTimeMs: int, avsyncType: int)

  /** `samplesPerChannel * channels * bytesPerSample`, the size of the managed array. */
  function BufferLength(st: AudioFrameState): int {
    st.samplesPerChannel * st.channels * st.bytesPerSample
  }

  /**
   * What `NativeToJavaByteArray` needs of the engine's frame: the `int` product
   * neither overflows nor is negative, and a buffer, when there is one, holds at
   * least the computed length. A null buffer is accepted at any length.
   */
  predicate Marshallable(st: AudioFrameState) {
    var n := BufferLength(st);
    && FitsInt32(st.samplesPerChannel * st.channels)
    && FitsInt32(n) && n >= 0
    && (st.buffer.Some? ==> n <= |st.buffer.value|)
  }

  /**
   * What a handler needs on top: the copy-back writes the whole array into the
   * buffer unconditionally, so a non-empty frame must have one.
   */
  predicate CopyBackable(st: AudioFrameState) {
    Marshallable(st) && (BufferLength(st) > 0 ==> st.buffer.Some?)
  }

  /**
   * `NativeToJavaByteArray`: a fresh zero-filled array of the computed length, filled
   * from the native buffer only when there is one.
   */
  function Marshal(st: AudioFrameState): (arr: seq<Byte>)
    requires Marshallable(st)
    ensures |arr| == BufferLength(st)
    ensures st.buffer.Some? ==> arr == st.buffer.value[..BufferLength(st)]
    ensures st.buffer.None? ==> (forall k :: 0 <= k < |arr| ==> arr[k] == 0)
  {
    var zeroed := Zeros(BufferLength(st));
    if st.buffer.Some? then st.buffer.value[..BufferLength(st)] else zeroed
  }

  /** The arguments of `new AudioFrame(int, int, int, int, int, byte[], long, int)`. */
  datatype AudioFrameArgs = AudioFrameArgs(
    frameType: int, samplesPerChannel: int, bytesPerSample: int, channels: int,
    samplesPerSec: int, buffer: seq<Byte>, renderTimeMs: int, avsyncType: int)

  /** `NativeToJavaAudioFrame`: the scalars in the constructor's order, plus the array. */
  function NativeToJavaAudioFrame(st: AudioFrameState, arr: seq<Byte>): (a: AudioFrameArgs)
    ensures a.buffer == arr
    ensures a.frameType == st.frameType && a.samplesPerChannel == st.samplesPerChannel
    ensures a.bytesPerSample == st.bytesPerSample && a.channels == st.channels
    ensures a.samplesPerSec == st.samplesPerSec
    ensures a.renderTimeMs == st.renderTimeMs && a.avsyncType == st.avsyncType
  {
    AudioFrameArgs(st.frameType, st.samplesPerChannel, st.bytesPerSample, st.channels,
                   st.samplesPerSec, arr, st.renderTimeMs, st.avsyncType)
  }

  /** The managed frame one handler constructs for the frame `st`. */
  function ArgsOf(st: AudioFrameState): AudioFrameArgs
    requires Marshallable(st)
  {
    NativeToJavaAudioFrame(st, Marshal(st))
  }

  /** The callback's answer and the contents it leaves in the array it was handed. */
  datatype AudioOutcome = AudioOutcome(accept: bool, bytes: seq<Byte>)

  /** `onRecordAudioFrame(frame)`, `onPlaybackAudioFrame(frame)`, `onMixedAudioFrame(frame)`. */
  type AudioCallback = AudioFrameArgs -> AudioOutcome

  /** `onPlaybackAudioFrameBeforeMixing(uid, frame)`. */
  type UidAudioCallback = (int, AudioFrameArgs) -> AudioOutcome

  /** A frame the handlers can copy back into, and an outcome that kept the array's length. */
  predicate RoundTripDefined(st: AudioFrameState, out: AudioOutcome) {
    CopyBackable(st) && |out.bytes| == BufferLength(st)
  }

  datatype AudioResult = AudioResult(ret: bool, frame: AudioFrameState)

  /**
   * One audio handler, given what the callback did: the whole array is copied into
   * the start of the buffer and the answer is returned. An absent buffer (possible
   * only for an empty frame) stays absent: a zero-length copy writes nothing.
   */
  function RoundTrip(st: AudioFrameState, out: AudioOutcome): AudioResult
    requires RoundTripDefined(st, out)
  {
    match st.buffer
    case None => AudioResult(out.accept, st)
    case Some(b) => AudioResult(out.accept, st.(buffer := Some(Overwrite(b, out.bytes))))
  }

  /** Every audio handler returns exactly the callback's answer. */
  lemma AudioHandlersReturnCallbackAnswer(st: AudioFrameState, out: AudioOutcome)
    requires RoundTripDefined(st, out)
    ensures RoundTrip(st, out).ret == out.accept
  {
  }

  /**
   * The handlers write only the buffer's contents: every scalar field, the buffer's
   * presence and its length are as before.
   */
  lemma AudioRoundTripChangesOnlyBuffer(st: AudioFrameState, out: AudioOutcome)
    requires RoundTripDefined(st, out)
    ensures var r := RoundTrip(st, out).frame;
            && r == st.(buffer := r.buffer)
            && r.buffer.Some? == st.buffer.Some?
            && (r.buffer.Some? ==> |r.buffer.value| == |st.buffer.value|)
  {
  }

  /**
   * The callback's bytes reach the engine: the buffer starts with exactly the array
   * the callback left, and every byte past the computed length is untouched.
   */
  lemma AudioCallbackBytesReachBuffer(st: AudioFrameState, out: AudioOutcome)
    requires RoundTripDefined(st, out) && st.buffer.Some?
    ensures var b := RoundTrip(st, out).frame.buffer.value;
            var n := BufferLength(st);
            b[..n] == out.bytes && b[n..] == st.buffer.value[n..]
  {
  }

  /** Round trip: a callback that leaves the array as it was leaves the frame as it was. */
  lemma AudioUnchangedCallbackRestoresFrame(st: AudioFrameState, out: AudioOutcome)
    requires CopyBackable(st) && out.bytes == Marshal(st)
    ensures RoundTrip(st, out).frame == st
  {
    if st.buffer.Some? {
      OverwriteWithOwnPrefix(st.buffer.value, BufferLength(st));
    }
  }

  /** 10 ms of 48 kHz stereo 16-bit audio: 480 samples per channel, 1920 bytes. */
  lemma StereoFrameLength(st: AudioFrameState)
    requires st.samplesPerChannel == 480 && st.channels == 2 && st.bytesPerSample == 2
    ensures BufferLength(st) == 1920
    ensures st.buffer.Some? && |st.buffer.value| >= 1920 ==>
              CopyBackable(st) && Marshal(st) == st.buffer.value[..1920]
    ensures st.buffer.None? ==> Marshallable(st) && !CopyBackable(st) && Marshal(st) == Zeros(1920)
  {
  }

  /** The engine's audio frame (`AudioFrame &audioFrame`), owned by the engine. */
  class NativeAudioFrame {
    var frameType: int
    var samplesPerChannel: int
    var bytesPerSample: int
    var channels: int
    var samplesPerSec: int
    const buffer: array?<Byte>
    var renderTimeMs: int
    var avsyncType: int

    function State(): AudioFrameState
      reads this, buffer
    {
      AudioFrameState(frameType, samplesPerChannel, bytesPerSample, channels, samplesPerSec,
                      if buffer == null then None else Some(buffer[..]),
                      renderTimeMs, avsyncType)
    }

    constructor (frameType: int, samplesPerChannel: int, bytesPerSample: int, channels: int,
                 samplesPerSec: int, buffer: array?<Byte>, renderTimeMs: int, avsyncType: int)
      ensures this.frameType == frameType && this.samplesPerChannel == samplesPerChannel
      ensures this.bytesPerSample == bytesPerSample && this.channels == channels
      ensures this.samplesPerSec == samplesPerSec && this.buffer == buffer
      ensures this.renderTimeMs == renderTimeMs && this.avsyncType == avsyncType
    {
      this.frameType, this.samplesPerChannel := frameType, samplesPerChannel;
      this.bytesPerSample, this.channels := bytesPerSample, channels;
      this.samplesPerSec, this.buffer := samplesPerSec, buffer;
      this.renderTimeMs, this.avsyncType := renderTimeMs, avsyncType;
    }
  }

  /** `NativeToJavaByteArray`, on the engine's frame. */
  method NativeToJavaByteArray(frame: NativeAudioFrame) returns (arr: seq<Byte>)
    requires Marshallable(frame.State())
    ensures arr == Marshal(frame.State())
  {
    var length := frame.samplesPerChannel * frame.channels * frame.bytesPerSample;
    arr := Zeros(length);
    if frame.buffer != null {
      arr := frame.buffer[..length];
    }
  }

  datatype LifecycleStep =
    | RegisteredWithEngine
    | UnregisteredFromEngine
    | ReleasedCallerRef
    | ClearedCallerMethodIds
    | ReleasedFrameClassRef
    | ClearedFrameInitId

  /** The engine's `AudioParams`, value-initialised; its field defaults are the engine's. */
  datatype AudioParams = DefaultAudioParams

  /** `onEarMonitoringAudioFrame`: not observed. */
  function OnEarMonitoringAudioFrame(): bool { false }
  /** `getObservedAudioFramePosition`: no position bit set. */
  function GetObservedAudioFramePosition(): int { 0 }
  function GetPlaybackAudioParams(): AudioParams { DefaultAudioParams }
  function GetRecordAudioParams(): AudioParams { DefaultAudioParams }
  function GetMixedAudioParams(): AudioParams { DefaultAudioParams }
  function GetEarMonitoringAudioParams(): AudioParams { DefaultAudioParams }

  lemma AudioObserverDefaults()
    ensures !OnEarMonitoringAudioFrame() && GetObservedAudioFramePosition() == 0
    ensures GetPlaybackAudioParams() == GetRecordAudioParams() == GetMixedAudioParams()
            == GetEarMonitoringAudioParams() == DefaultAudioParams
  {
  }

  class AudioFrameObserver {
    /** The media engine behind `engineHandle`; null when there is none to register with. */
    const engine: MediaEngine?
    /** `jCallerRef` and `jAudioFrameClass`: live global references. */
    var callerRef: bool
    var frameClassRef: bool
    /** The four cached callback method ids, and `jAudioFrameInit`. */
    var callerMethodIds: bool
    var frameInitId: bool
    /** The lifecycle actions taken so far, in order. */
    ghost var log: seq<LifecycleStep>

    predicate Live()
      reads this
    {
      callerRef && frameClassRef && callerMethodIds && frameInitId
    }

    /** Resolves every handle, then registers with the engine if there is one. */
    constructor (engine: MediaEngine?)
      modifies engine
      ensures this.engine == engine && Live()
      ensures engine != null ==> engine.audioObserver == this && engine.videoObserver == old(engine.videoObserver)
      ensures log == if engine != null then [RegisteredWithEngine] else []
    {
      this.engine := engine;
      callerRef, callerMethodIds := true, true;
      frameClassRef, frameInitId := true, true;
      log := [];
      new;
      if engine != null {
        engine.audioObserver := this;
        log := log + [RegisteredWithEngine];
      }
    }

    /**
     * The destructor: unregisters from the engine first, and only then releases the
     * global references and clears the method ids cached beside them.
     */
    method Destroy()
      requires Live()
      modifies this, engine
      ensures !callerRef && !frameClassRef && !callerMethodIds && !frameInitId
      ensures engine != null ==> engine.audioObserver == null && engine.videoObserver == old(engine.videoObserver)
      ensures log == old(log) + (if engine != null then [UnregisteredFromEngine] else []) +
                     [ReleasedCallerRef, ClearedCallerMethodIds,
                      ReleasedFrameClassRef, ClearedFrameInitId]
    {
      if engine != null {
        engine.audioObserver := null;
        log := log + [UnregisteredFromEngine];
      }
      callerRef := false;
      log := log + [ReleasedCallerRef];
      callerMethodIds := false;
      log := log + [ClearedCallerMethodIds];
      frameClassRef := false;
      log := log + [ReleasedFrameClassRef];
      frameInitId := false;
      log := log + [ClearedFrameInitId];
    }

    /** The body the four handlers share, once the callback's outcome is known. */
    method CopyBack(frame: NativeAudioFrame, out: AudioOutcome) returns (ret: bool)
      requires RoundTripDefined(frame.State(), out)
      modifies frame.buffer
      ensures AudioResult(ret, frame.State()) == RoundTrip(old(frame.State()), out)
    {
      if frame.buffer != null {
        GetByteArrayRegion(out.bytes, frame.buffer);
      }
      ret := out.accept;
    }

    method OnRecordAudioFrame(channelId: string, frame: NativeAudioFrame, onRecord: AudioCallback)
      returns (ret: bool)
      requires Live() && Marshallable(frame.State())
      requires RoundTripDefined(frame.State(), onRecord(ArgsOf(frame.State())))
      modifies frame.buffer
      ensures AudioResult(ret, frame.State()) ==
              RoundTrip(old(frame.State()), onRecord(ArgsOf(old(frame.State()))))
    {
      var arr := NativeToJavaByteArray(frame);
      var obj := NativeToJavaAudioFrame(frame.State(), arr);
      ret := CopyBack(frame, onRecord(obj));
    }

    method OnPlaybackAudioFrame(channelId: string, frame: NativeAudioFrame, onPlayback: AudioCallback)
      returns (ret: bool)
      requires Live() && Marshallable(frame.State())
      requires RoundTripDefined(frame.State(), onPlayback(ArgsOf(frame.State())))
      modifies frame.buffer
      ensures AudioResult(ret, frame.State()) ==
              RoundTrip(old(frame.State()), onPlayback(ArgsOf(old(frame.State()))))
    {
      var arr := NativeToJavaByteArray(frame);
      var obj := NativeToJavaAudioFrame(frame.State(), arr);
      ret := CopyBack(frame, onPlayback(obj));
    }

    method OnMixedAudioFrame(channelId: string, frame: NativeAudioFrame, onMixed: AudioCallback)
      returns (ret: bool)
      requires Live() && Marshallable(frame.State())
      requires RoundTripDefined(frame.State(), onMixed(ArgsOf(frame.State())))
      modifies frame.buffer
      ensures AudioResult(ret, frame.State()) ==
              RoundTrip(old(frame.State()), onMixed(ArgsOf(old(frame.State()))))
    {
      var arr := NativeToJavaByteArray(frame);
      var obj := NativeToJavaAudioFrame(frame.State(), arr);
      ret := CopyBack(frame, onMixed(obj));
    }

    /** The one audio handler that also passes the remote `uid` to the callback. */
    method OnPlaybackAudioFrameBeforeMixing(channelId: string, uid: int, frame: NativeAudioFrame,
                                            onBeforeMixing: UidAudioCallback)
      returns (ret: bool)
      requires Live() && Marshallable(frame.State())
      requires RoundTripDefined(frame.State(), onBeforeMixing(uid, ArgsOf(frame.State())))
      modifies frame.buffer
      ensures AudioResult(ret, frame.State()) ==
              RoundTrip(old(frame.State()), onBeforeMixing(uid, ArgsOf(old(frame.State()))))
    {
      var arr := NativeToJavaByteArray(frame);
      var obj := NativeToJavaAudioFrame(frame.State(), arr);
      ret := CopyBack(frame, onBeforeMixing(uid, obj));
    }
  }
}

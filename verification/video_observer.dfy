/**
 * The native video bridge (`agora::VideoFrameObserver`): for capture, render and
 * pre-encode frames it marshals the planes (or, for a texture capture frame, the
 * transform matrix) into a managed `VideoFrame`, invokes the managed callback,
 * copies the containers back into the native planes by position, and after a
 * capture callback adopts a texture the callback reports.
 *
 * The managed callback is a function parameter: given the source type (or remote
 * uid) and the constructor arguments of the managed frame, it yields its boolean
 * answer, the contents it leaves in the byte arrays it was handed, and the type,
 * texture id and matrix the frame object reports afterwards.
 */
module VideoObserver {
  import opened Jni
  import opened JavaVideoFrame
  import opened VideoPlanes

  /** Everything of an engine video frame the bridge reads or writes, at one moment. */
  datatype FrameState = FrameState(
    format: int, width: int, height: int,
    yStride: int, uStride: int, vStride: int,
    planes: Planes,
    rotation: int, textureId: int, matrix: seq<FloatBits>,
    renderTimeMs: int, avsyncType: int)

  function GeometryOf(st: FrameState): Geometry {
    Geometry(st.format, st.width, st.height, st.yStride, st.uStride, st.vStride)
  }

  /** The arguments of `new VideoFrame(...)` in `NativeToJavaVideoFrame`; `None` is `null`. */
  datatype VideoFrameArgs = VideoFrameArgs(
    format: int, width: int, height: int,
    yStride: int, uStride: int, vStride: int,
    yBuffer: Option<seq<Byte>>, uBuffer: Option<seq<Byte>>, vBuffer: Option<seq<Byte>>,
    rotation: int, textureId: int, matrix: Option<seq<FloatBits>>,
    renderTimeMs: int, avsyncType: int)

  /**
   * What one managed callback did: its answer, the contents of the three byte arrays
   * it was handed (ignored when it was handed none), and what the frame object's
   * `getType`, `getTextureId` and `getTextureMatrix` report after it returned.
   */
  datatype CallbackOutcome = CallbackOutcome(
    accept: bool,
    yBytes: seq<Byte>, uBytes: seq<Byte>, vBytes: seq<Byte>,
    frameType: VideoFrameType, textureId: int, matrix: Option<seq<FloatBits>>)

  /** `onCaptureVideoFrame(sourceType, frame)` and friends, on the managed side. */
  type VideoCallback = (int, VideoFrameArgs) -> CallbackOutcome

  /**
   * `NativeToJavaVideoFrame`: the scalars are passed as they are, and the three byte
   * arrays only when exactly three containers exist; otherwise all three are null.
   */
  function NativeToJavaVideoFrame(st: FrameState, cs: seq<seq<Byte>>,
                                  matrix: Option<seq<FloatBits>>): (a: VideoFrameArgs)
    ensures a.yBuffer.Some? <==> |cs| == 3
    ensures a.uBuffer.Some? <==> |cs| == 3
    ensures a.vBuffer.Some? <==> |cs| == 3
    ensures |cs| == 3 ==> a.yBuffer.value == cs[0] && a.uBuffer.value == cs[1] &&
                          a.vBuffer.value == cs[2]
    ensures a.matrix == matrix
    ensures a.format == st.format && a.width == st.width && a.height == st.height
    ensures a.yStride == st.yStride && a.uStride == st.uStride && a.vStride == st.vStride
    ensures a.rotation == st.rotation && a.textureId == st.textureId
    ensures a.renderTimeMs == st.renderTimeMs && a.avsyncType == st.avsyncType
  {
    var (y, u, v) := if |cs| == 3 then (Some(cs[0]), Some(cs[1]), Some(cs[2]))
                     else (None, None, None);
    VideoFrameArgs(st.format, st.width, st.height, st.yStride, st.uStride, st.vStride,
                   y, u, v, st.rotation, st.textureId, matrix, st.renderTimeMs, st.avsyncType)
  }

  /**
   * Managed arrays cannot be resized: when the callback was handed the containers
   * (exactly three of them), each keeps its length.
   */
  predicate KeepsLengths(cs: seq<seq<Byte>>, out: CallbackOutcome) {
    |cs| == 3 ==> |out.yBytes| == |cs[0]| && |out.uBytes| == |cs[1]| && |out.vBytes| == |cs[2]|
  }

  /** A frame that reports a texture type also reports a matrix of at least 16 floats. */
  predicate ReportsUsableMatrix(out: CallbackOutcome) {
    IsTextureFormat(Value(out.frameType)) ==> out.matrix.Some? && |out.matrix.value| >= 16
  }

  /**
   * The containers as the copy-back loop finds them: rewritten by the callback when
   * it was handed them (exactly three), untouched otherwise.
   */
  function ContainersAfterCallback(cs: seq<seq<Byte>>, out: CallbackOutcome): (w: seq<seq<Byte>>)
    requires KeepsLengths(cs, out)
    ensures |w| == |cs|
    ensures forall k :: 0 <= k < |w| ==> |w[k]| == |cs[k]|
    ensures |cs| == 3 ==> w == [out.yBytes, out.uBytes, out.vBytes]
    ensures |cs| != 3 ==> w == cs
  {
    if |cs| == 3 then [out.yBytes, out.uBytes, out.vBytes] else cs
  }

  /** The containers and the managed frame's constructor arguments of one call. */
  datatype Marshalled = Marshalled(containers: seq<seq<Byte>>, args: VideoFrameArgs)

  /** A planar frame can be marshalled: no `int` overflow, and each plane holds its length. */
  predicate PlanarMarshallable(st: FrameState) {
    match PlaneLengthsOf(GeometryOf(st))
    case None => true
    case Some(l) => ProductsFitInt32(GeometryOf(st)) && Covers(l, st.planes)
  }

  /** Render and pre-encode marshalling; `None` rejects a format the plane table lacks. */
  function MarshalPlanar(st: FrameState): (m: Option<Marshalled>)
    requires PlanarMarshallable(st)
    ensures m.Some? <==> IsPlanarFormat(st.format)
    ensures m.Some? ==> m.value.args.matrix.None?
    ensures m.Some? ==> |m.value.containers| <= 3
  {
    match PlaneLengthsOf(GeometryOf(st))
    case None => None
    case Some(l) =>
      var cs := Containers(l, st.planes);
      Some(Marshalled(cs, NativeToJavaVideoFrame(st, cs, None)))
  }

  /** Capture marshalling: a texture frame ships only its matrix, any other frame its planes. */
  function MarshalCapture(st: FrameState): (m: Option<Marshalled>)
    requires IsTextureFormat(st.format) || PlanarMarshallable(st)
    ensures m.Some? <==> IsTextureFormat(st.format) || IsPlanarFormat(st.format)
    ensures m.Some? ==> |m.value.containers| <= 3
  {
    if IsTextureFormat(st.format) then
      Some(Marshalled([], NativeToJavaVideoFrame(st, [], Some(st.matrix))))
    else
      MarshalPlanar(st)
  }

  /** What the engine's frame and the callback must satisfy for the copy-back to be defined. */
  predicate CopyBackDefined(st: FrameState, m: Marshalled, out: CallbackOutcome) {
    var cs := m.containers;
    |cs| <= 3 && Fits(st.planes, Positional(|cs|), cs) && KeepsLengths(cs, out)
  }

  /** The copy-back loop: container k into yBuffer, uBuffer, vBuffer for k = 0, 1, 2. */
  function CopyBackAfter(st: FrameState, m: Marshalled, out: CallbackOutcome): (r: FrameState)
    requires CopyBackDefined(st, m, out)
    ensures r == st.(planes := r.planes)
    ensures SameShape(r.planes, st.planes)
  {
    var w := ContainersAfterCallback(m.containers, out);
    st.(planes := CopyBackTo(st.planes, Positional(|w|), w))
  }

  /**
   * The capture-only tail: a reported texture type replaces the frame's type, its
   * texture id and all 16 matrix entries.
   */
  function AdoptTexture(st: FrameState, out: CallbackOutcome): FrameState
    requires ReportsUsableMatrix(out)
  {
    if IsTextureFormat(Value(out.frameType)) then
      st.(format := Value(out.frameType), textureId := out.textureId,
          matrix := out.matrix.value[..16])
    else
      st
  }

  /** The outcome of one handler call: the value returned to the engine and the new frame. */
  datatype HandlerResult = HandlerResult(ret: bool, frame: FrameState)

  predicate CaptureDefined(st: FrameState, sourceType: int, onCapture: VideoCallback) {
    && |st.matrix| == 16
    && (IsTextureFormat(st.format) || PlanarMarshallable(st))
    && match MarshalCapture(st)
       case None => true
       case Some(m) =>
         var out := onCapture(sourceType, m.args);
         CopyBackDefined(st, m, out) && ReportsUsableMatrix(out)
  }

  /** `onCaptureVideoFrame`, as a function of the frame before the call. */
  function Capture(st: FrameState, sourceType: int, onCapture: VideoCallback): HandlerResult
    requires CaptureDefined(st, sourceType, onCapture)
  {
    match MarshalCapture(st)
    case None => HandlerResult(false, st)
    case Some(m) =>
      var out := onCapture(sourceType, m.args);
      HandlerResult(out.accept, AdoptTexture(CopyBackAfter(st, m, out), out))
  }

  predicate PlanarDefined(st: FrameState, tag: int, callback: VideoCallback) {
    && PlanarMarshallable(st)
    && match MarshalPlanar(st)
       case None => true
       case Some(m) => CopyBackDefined(st, m, callback(tag, m.args))
  }

  /**
   * `onRenderVideoFrame` (tag: the remote uid) and `onPreEncodeVideoFrame` (tag: the
   * source type), as a function of the frame before the call.
   */
  function PlanarRoundTrip(st: FrameState, tag: int, callback: VideoCallback): HandlerResult
    requires PlanarDefined(st, tag, callback)
  {
    match MarshalPlanar(st)
    case None => HandlerResult(false, st)
    case Some(m) =>
      var out := callback(tag, m.args);
      HandlerResult(out.accept, CopyBackAfter(st, m, out))
  }

  /**
   * A texture capture frame is handed to the callback with its matrix and no plane
   * array; a planar frame, of any handler, with no matrix.
   */
  lemma CaptureMarshalsMatrixXorPlanes(st: FrameState)
    requires IsTextureFormat(st.format) || PlanarMarshallable(st)
    ensures IsTextureFormat(st.format) ==>
              var m := MarshalCapture(st).value;
              m.containers == [] && m.args.matrix == Some(st.matrix) &&
              m.args.yBuffer.None? && m.args.uBuffer.None? && m.args.vBuffer.None?
    ensures IsPlanarFormat(st.format) ==> MarshalCapture(st).value.args.matrix.None?
  {
  }

  /**
   * Every handler hands the engine exactly the callback's answer, and rejects a
   * frame whose format it cannot size without calling back or touching it.
   */
  lemma HandlersReturnCallbackAnswer(st: FrameState, tag: int, callback: VideoCallback)
    ensures CaptureDefined(st, tag, callback) ==>
              match MarshalCapture(st)
              case None => Capture(st, tag, callback) == HandlerResult(false, st)
              case Some(m) => Capture(st, tag, callback).ret == callback(tag, m.args).accept
    ensures PlanarDefined(st, tag, callback) ==>
              match MarshalPlanar(st)
              case None => PlanarRoundTrip(st, tag, callback) == HandlerResult(false, st)
              case Some(m) => PlanarRoundTrip(st, tag, callback).ret == callback(tag, m.args).accept
  {
  }

  /**
   * Render and pre-encode change plane contents only: never the type, texture id,
   * matrix or any other field, and no plane changes size or nullness.
   */
  lemma PlanarRoundTripChangesOnlyPlanes(st: FrameState, tag: int, callback: VideoCallback)
    requires PlanarDefined(st, tag, callback)
    ensures var r := PlanarRoundTrip(st, tag, callback).frame;
            r == st.(planes := r.planes) && SameShape(r.planes, st.planes)
  {
  }

  /**
   * After a capture callback the type, texture id and matrix are replaced exactly
   * when the frame object reports a texture type, the planes are those the plane
   * copy-back leaves, and nothing else changes.
   */
  lemma CaptureAdoptsReportedTexture(st: FrameState, sourceType: int, onCapture: VideoCallback)
    requires CaptureDefined(st, sourceType, onCapture)
    requires MarshalCapture(st).Some?
    ensures var m := MarshalCapture(st).value;
            var out := onCapture(sourceType, m.args);
            var r := Capture(st, sourceType, onCapture).frame;
            && r.planes == CopyBackAfter(st, m, out).planes
            && (IsTextureFormat(Value(out.frameType)) ==>
                  r == st.(planes := r.planes, format := Value(out.frameType),
                           textureId := out.textureId, matrix := out.matrix.value[..16]))
            && (!IsTextureFormat(Value(out.frameType)) ==> r == st.(planes := r.planes))
  {
  }

  /** A texture capture frame's planes are never written. */
  lemma TextureCaptureKeepsPlanes(st: FrameState, sourceType: int, onCapture: VideoCallback)
    requires CaptureDefined(st, sourceType, onCapture)
    requires IsTextureFormat(st.format)
    ensures Capture(st, sourceType, onCapture).frame.planes == st.planes
  {
  }

  /** The callback handed the planes back unchanged. */
  predicate Echoes(a: VideoFrameArgs, out: CallbackOutcome) {
    && (a.yBuffer.Some? ==> out.yBytes == a.yBuffer.value)
    && (a.uBuffer.Some? ==> out.uBytes == a.uBuffer.value)
    && (a.vBuffer.Some? ==> out.vBytes == a.vBuffer.value)
  }

  /**
   * Round trip: when the callback leaves the arrays it was handed as they were and
   * the present planes are prefix-shaped, render and pre-encode leave the frame
   * byte-identical.
   */
  lemma UnchangedCallbackRestoresFrame(st: FrameState, tag: int, callback: VideoCallback)
    requires PlanarDefined(st, tag, callback) && IsPlanarFormat(st.format)
    requires var m := MarshalPlanar(st).value; Echoes(m.args, callback(tag, m.args))
    requires PrefixShaped(PlaneLengthsOf(GeometryOf(st)).value, st.planes)
    ensures PlanarRoundTrip(st, tag, callback).frame == st
  {
    var l := PlaneLengthsOf(GeometryOf(st)).value;
    var m := MarshalPlanar(st).value;
    var out := callback(tag, m.args);
    var w := ContainersAfterCallback(m.containers, out);
    assert w == m.containers;
    PositionalRestoresPrefixShaped(l, st.planes);
  }

  /**
   * The callback's bytes reach the engine: with all three planes marshalled, each
   * native plane starts with exactly the bytes the callback left in its array and
   * keeps its bytes past the container's length.
   */
  lemma CallbackBytesReachPlanes(st: FrameState, tag: int, callback: VideoCallback)
    requires PlanarDefined(st, tag, callback) && IsPlanarFormat(st.format)
    requires var l := PlaneLengthsOf(GeometryOf(st)).value;
             Present(l, st.planes, Y) && Present(l, st.planes, U) && Present(l, st.planes, V)
    ensures var out := callback(tag, MarshalPlanar(st).value.args);
            var r := PlanarRoundTrip(st, tag, callback).frame.planes;
            && r.y == Some(Overwrite(st.planes.y.value, out.yBytes))
            && r.u == Some(Overwrite(st.planes.u.value, out.uBytes))
            && r.v == Some(Overwrite(st.planes.v.value, out.vBytes))
  {
    var m := MarshalPlanar(st).value;
    assert |m.containers| == 3;
    var out := callback(tag, m.args);
    var w := ContainersAfterCallback(m.containers, out);
    var targets := Positional(3);
    assert targets == [Y, U, V];
    assert Distinct(targets);
    CopyBackToPlane(st.planes, targets, w, Y);
    CopyBackToPlane(st.planes, targets, w, U);
    CopyBackToPlane(st.planes, targets, w, V);
    assert targets[0] == Y && targets[1] == U && targets[2] == V;
  }

  /**
   * With fewer than three containers the callback is handed no plane array, so
   * whatever it does, a prefix-shaped frame (an RGBA frame, say) comes back
   * byte-identical.
   */
  lemma FewerThanThreePlanesAreNeverExposed(st: FrameState, tag: int, callback: VideoCallback)
    requires PlanarDefined(st, tag, callback) && IsPlanarFormat(st.format)
    requires |MarshalPlanar(st).value.containers| < 3
    requires PrefixShaped(PlaneLengthsOf(GeometryOf(st)).value, st.planes)
    ensures var a := MarshalPlanar(st).value.args;
            a.yBuffer.None? && a.uBuffer.None? && a.vBuffer.None?
    ensures PlanarRoundTrip(st, tag, callback).frame == st
  {
    var l := PlaneLengthsOf(GeometryOf(st)).value;
    PositionalRestoresPrefixShaped(l, st.planes);
  }

  /**
   * The capture handler's plane round trip: when the callback leaves the arrays it
   * was handed as they were, a planar prefix-shaped frame gets its planes back
   * byte-identical, and the whole frame when the callback reports no texture type.
   */
  lemma CaptureUnchangedCallbackRestoresFrame(st: FrameState, sourceType: int,
                                              onCapture: VideoCallback)
    requires CaptureDefined(st, sourceType, onCapture) && IsPlanarFormat(st.format)
    requires var m := MarshalCapture(st).value; Echoes(m.args, onCapture(sourceType, m.args))
    requires PrefixShaped(PlaneLengthsOf(GeometryOf(st)).value, st.planes)
    ensures Capture(st, sourceType, onCapture).frame.planes == st.planes
    ensures var out := onCapture(sourceType, MarshalCapture(st).value.args);
            !IsTextureFormat(Value(out.frameType)) ==> Capture(st, sourceType, onCapture).frame == st
  {
    UnchangedCallbackRestoresFrame(st, sourceType, onCapture);
  }

  /**
   * The capture handler's copy-back, like render's: with all three planes marshalled,
   * each native plane starts with exactly the bytes the callback left in its array
   * and keeps its bytes past the container's length, whatever type it reports.
   */
  lemma CaptureCallbackBytesReachPlanes(st: FrameState, sourceType: int, onCapture: VideoCallback)
    requires CaptureDefined(st, sourceType, onCapture) && IsPlanarFormat(st.format)
    requires var l := PlaneLengthsOf(GeometryOf(st)).value;
             Present(l, st.planes, Y) && Present(l, st.planes, U) && Present(l, st.planes, V)
    ensures var out := onCapture(sourceType, MarshalCapture(st).value.args);
            var r := Capture(st, sourceType, onCapture).frame.planes;
            && r.y == Some(Overwrite(st.planes.y.value, out.yBytes))
            && r.u == Some(Overwrite(st.planes.u.value, out.uBytes))
            && r.v == Some(Overwrite(st.planes.v.value, out.vBytes))
  {
    CallbackBytesReachPlanes(st, sourceType, onCapture);
  }

  /** The engine's video frame (`VideoFrame &videoFrame`), owned by the engine. */
  class NativeVideoFrame {
    var format: int
    var width: int
    var height: int
    var yStride: int
    var uStride: int
    var vStride: int
    const yBuffer: array?<Byte>
    const uBuffer: array?<Byte>
    const vBuffer: array?<Byte>
    var rotation: int
    var textureId: int
    /** `float matrix[16]`, embedded in the frame. */
    const matrix: array<FloatBits>
    var renderTimeMs: int
    var avsyncType: int

    /** The matrix has 16 entries and the non-null planes are separate buffers. */
    predicate Valid()
      reads this
    {
      && matrix.Length == 16
      && (yBuffer != null && uBuffer != null ==> yBuffer != uBuffer)
      && (yBuffer != null && vBuffer != null ==> yBuffer != vBuffer)
      && (uBuffer != null && vBuffer != null ==> uBuffer != vBuffer)
    }

    function View(b: array?<Byte>): Option<seq<Byte>>
      reads b
    {
      if b == null then None else Some(b[..])
    }

    function State(): FrameState
      reads this, yBuffer, uBuffer, vBuffer, matrix
    {
      FrameState(format, width, height, yStride, uStride, vStride,
                 Planes(View(yBuffer), View(uBuffer), View(vBuffer)),
                 rotation, textureId, matrix[..], renderTimeMs, avsyncType)
    }

    constructor (format: int, width: int, height: int, yStride: int, uStride: int, vStride: int,
                 yBuffer: array?<Byte>, uBuffer: array?<Byte>, vBuffer: array?<Byte>,
                 rotation: int, textureId: int, matrix: array<FloatBits>,
                 renderTimeMs: int, avsyncType: int)
      requires matrix.Length == 16
      requires yBuffer != null && uBuffer != null ==> yBuffer != uBuffer
      requires yBuffer != null && vBuffer != null ==> yBuffer != vBuffer
      requires uBuffer != null && vBuffer != null ==> uBuffer != vBuffer
      ensures Valid()
      ensures this.format == format && this.width == width && this.height == height
      ensures this.yStride == yStride && this.uStride == uStride && this.vStride == vStride
      ensures this.yBuffer == yBuffer && this.uBuffer == uBuffer && this.vBuffer == vBuffer
      ensures this.rotation == rotation && this.textureId == textureId && this.matrix == matrix
      ensures this.renderTimeMs == renderTimeMs && this.avsyncType == avsyncType
    {
      this.format, this.width, this.height := format, width, height;
      this.yStride, this.uStride, this.vStride := yStride, uStride, vStride;
      this.yBuffer, this.uBuffer, this.vBuffer := yBuffer, uBuffer, vBuffer;
      this.rotation, this.textureId, this.matrix := rotation, textureId, matrix;
      this.renderTimeMs, this.avsyncType := renderTimeMs, avsyncType;
    }
  }

  /**
   * `NativeToJavaByteArray`: sizes the planes, then reads each present plane's first
   * `length` bytes into a new container, in Y, U, V order. `None` is a format the
   * size table has no case for.
   */
  method NativeToJavaByteArray(frame: NativeVideoFrame) returns (r: Option<seq<seq<Byte>>>)
    requires PlanarMarshallable(frame.State())
    ensures r.None? <==> !IsPlanarFormat(frame.format)
    ensures r.Some? ==> r.value == MarshalPlanar(frame.State()).value.containers
  {
    var g := Geometry(frame.format, frame.width, frame.height,
                      frame.yStride, frame.uStride, frame.vStride);
    var lengths := PlaneLengthsOf(g);
    if lengths.None? {
      return None;
    }
    var l := lengths.value;
    ghost var p := frame.State().planes;
    var vector: seq<seq<Byte>> := [];
    if frame.yBuffer != null && l.y > 0 {
      assert Present(l, p, Y);
      vector := vector + [frame.yBuffer[..l.y]];
    }
    if frame.uBuffer != null && l.u > 0 {
      assert Present(l, p, U);
      vector := vector + [frame.uBuffer[..l.u]];
    }
    if frame.vBuffer != null && l.v > 0 {
      assert Present(l, p, V);
      vector := vector + [frame.vBuffer[..l.v]];
    }
    r := Some(vector);
  }

  /**
   * The copy-back loop of all three handlers: container i is copied over its whole
   * length into yBuffer, uBuffer or vBuffer for i = 0, 1, 2, chosen by position.
   */
  method CopyBack(frame: NativeVideoFrame, written: seq<seq<Byte>>)
    requires frame.Valid() && |written| <= 3
    requires Fits(frame.State().planes, Positional(|written|), written)
    modifies frame.yBuffer, frame.uBuffer, frame.vBuffer
    ensures frame.State() == old(frame.State()).(planes :=
              CopyBackTo(old(frame.State().planes), Positional(|written|), written))
  {
    ghost var before := frame.State().planes;
    for i := 0 to |written|
      invariant Fits(before, Positional(i), written[..i])
      invariant frame.State() == old(frame.State()).(planes :=
                  CopyBackTo(before, Positional(i), written[..i]))
    {
      assert Positional(i + 1)[..i] == Positional(i);
      assert written[..i + 1][..i] == written[..i];
      var target := Positional(|written|)[i];
      assert target == Positional(i + 1)[i];
      var buffer := if i == 0 then frame.yBuffer else if i == 1 then frame.uBuffer else frame.vBuffer;
      assert Get(frame.State().planes, target) == if buffer == null then None else Some(buffer[..]);
      GetByteArrayRegion(written[i], buffer);
    }
    assert written[..|written|] == written;
  }

  datatype LifecycleStep =
    | RegisteredWithEngine
    | UnregisteredFromEngine
    | ReleasedCallerRef
    | ClearedCallerMethodIds
    | ReleasedFrameClassRef
    | ClearedFrameMethodIds
    | ReleasedFrameTypeClassRef
    | ClearedGetValueId

  /** Frame-processing modes an observer can ask for. */
  datatype ProcessMode = PROCESS_MODE_READ_ONLY | PROCESS_MODE_READ_WRITE

  /** `onMediaPlayerVideoFrame`: not observed. */
  function OnMediaPlayerVideoFrame(mediaPlayerId: int): bool { false }
  /** `onTranscodedVideoFrame`: not observed. */
  function OnTranscodedVideoFrame(): bool { false }
  /** `getVideoFrameProcessMode`: the callback may write the frame. */
  function GetVideoFrameProcessMode(): ProcessMode { PROCESS_MODE_READ_WRITE }

  lemma VideoObserverDefaults(mediaPlayerId: int)
    ensures !OnMediaPlayerVideoFrame(mediaPlayerId) && !OnTranscodedVideoFrame()
    ensures GetVideoFrameProcessMode() == PROCESS_MODE_READ_WRITE
  {
  }

  class VideoFrameObserver {
    /** The media engine behind `engineHandle`; null when there is none to register with. */
    const engine: MediaEngine?
    /** `jCallerRef`, `jVideoFrameClass`, `jVideoFrameTypeClass`: live global references. */
    var callerRef: bool
    var frameClassRef: bool
    var frameTypeClassRef: bool
    /** The cached method ids of the caller, of `VideoFrame` and of `getValue`. */
    var callerMethodIds: bool
    var frameMethodIds: bool
    var getValueId: bool
    /** The lifecycle actions taken so far, in order. */
    ghost var log: seq<LifecycleStep>

    /** Every cached reference and method id is usable. */
    predicate Live()
      reads this
    {
      callerRef && frameClassRef && frameTypeClassRef &&
      callerMethodIds && frameMethodIds && getValueId
    }

    /** Resolves every handle once, then registers with the engine if there is one. */
    constructor (engine: MediaEngine?)
      modifies engine
      ensures this.engine == engine && Live()
      ensures engine != null ==> engine.videoObserver == this && engine.audioObserver == old(engine.audioObserver)
      ensures log == if engine != null then [RegisteredWithEngine] else []
    {
      this.engine := engine;
      callerRef, callerMethodIds := true, true;
      frameClassRef, frameMethodIds := true, true;
      frameTypeClassRef, getValueId := true, true;
      log := [];
      new;
      if engine != null {
        engine.videoObserver := this;
        log := log + [RegisteredWithEngine];
      }
    }

    /**
     * The destructor: unregisters from the engine first, and only then releases each
     * global reference and clears the method ids cached beside it.
     */
    method Destroy()
      requires Live()
      modifies this, engine
      ensures !callerRef && !frameClassRef && !frameTypeClassRef
      ensures !callerMethodIds && !frameMethodIds && !getValueId
      ensures engine != null ==> engine.videoObserver == null && engine.audioObserver == old(engine.audioObserver)
      ensures log == old(log) + (if engine != null then [UnregisteredFromEngine] else []) +
                     [ReleasedCallerRef, ClearedCallerMethodIds,
                      ReleasedFrameClassRef, ClearedFrameMethodIds,
                      ReleasedFrameTypeClassRef, ClearedGetValueId]
    {
      if engine != null {
        engine.videoObserver := null;
        log := log + [UnregisteredFromEngine];
      }
      callerRef := false;
      log := log + [ReleasedCallerRef];
      callerMethodIds := false;
      log := log + [ClearedCallerMethodIds];
      frameClassRef := false;
      log := log + [ReleasedFrameClassRef];
      frameMethodIds := false;
      log := log + [ClearedFrameMethodIds];
      frameTypeClassRef := false;
      log := log + [ReleasedFrameTypeClassRef];
      getValueId := false;
      log := log + [ClearedGetValueId];
    }

    /**
     * `onCaptureVideoFrame`: texture frames ship their matrix, other frames their
     * planes; after the callback the planes are copied back by position and a
     * reported texture type replaces type, texture id and matrix.
     */
    method OnCaptureVideoFrame(sourceType: int, frame: NativeVideoFrame, onCapture: VideoCallback)
      returns (ret: bool)
      requires Live() && frame.Valid()
      requires CaptureDefined(frame.State(), sourceType, onCapture)
      modifies frame, frame.yBuffer, frame.uBuffer, frame.vBuffer, frame.matrix
      ensures frame.Valid()
      ensures HandlerResult(ret, frame.State()) == Capture(old(frame.State()), sourceType, onCapture)
    {
      var containers: seq<seq<Byte>> := [];
      var matrix: Option<seq<FloatBits>> := None;
      if IsTextureFormat(frame.format) {
        matrix := Some(frame.matrix[..]);
      } else {
        var planes := NativeToJavaByteArray(frame);
        if planes.None? {
          return false;
        }
        containers := planes.value;
      }
      var args := NativeToJavaVideoFrame(frame.State(), containers, matrix);
      var out := onCapture(sourceType, args);
      var written := ContainersAfterCallback(containers, out);
      CopyBack(frame, written);
      var newType := Value(out.frameType);
      if IsTextureFormat(newType) {
        frame.format := newType;
        frame.textureId := out.textureId;
        CopyFloats(frame.matrix, out.matrix.value);
      }
      ret := out.accept;
    }

    /** `onRenderVideoFrame`: planes out, callback with the remote uid, planes back. */
    method OnRenderVideoFrame(channelId: string, remoteUid: int, frame: NativeVideoFrame,
                              onRender: VideoCallback)
      returns (ret: bool)
      requires Live() && frame.Valid()
      requires PlanarDefined(frame.State(), remoteUid, onRender)
      modifies frame.yBuffer, frame.uBuffer, frame.vBuffer
      ensures frame.Valid()
      ensures HandlerResult(ret, frame.State()) == PlanarRoundTrip(old(frame.State()), remoteUid, onRender)
    {
      ret := PlanarCall(remoteUid, frame, onRender);
    }

    /** `onPreEncodeVideoFrame`: planes out, callback with the source type, planes back. */
    method OnPreEncodeVideoFrame(sourceType: int, frame: NativeVideoFrame, onPreEncode: VideoCallback)
      returns (ret: bool)
      requires Live() && frame.Valid()
      requires PlanarDefined(frame.State(), sourceType, onPreEncode)
      modifies frame.yBuffer, frame.uBuffer, frame.vBuffer
      ensures frame.Valid()
      ensures HandlerResult(ret, frame.State()) == PlanarRoundTrip(old(frame.State()), sourceType, onPreEncode)
    {
      ret := PlanarCall(sourceType, frame, onPreEncode);
    }

    /** The body the render and pre-encode handlers share. */
    method PlanarCall(tag: int, frame: NativeVideoFrame, callback: VideoCallback) returns (ret: bool)
      requires frame.Valid()
      requires PlanarDefined(frame.State(), tag, callback)
      modifies frame.yBuffer, frame.uBuffer, frame.vBuffer
      ensures frame.Valid()
      ensures HandlerResult(ret, frame.State()) == PlanarRoundTrip(old(frame.State()), tag, callback)
    {
      var planes := NativeToJavaByteArray(frame);
      if planes.None? {
        return false;
      }
      var containers := planes.value;
      var args := NativeToJavaVideoFrame(frame.State(), containers, None);
      var out := callback(tag, args);
      var written := ContainersAfterCallback(containers, out);
      CopyBack(frame, written);
      ret := out.accept;
    }
  }
}

/**
 * The managed-side video frame (`io.agora.rtc.rawdata.base.VideoFrame`): the
 * `VideoFrameType` enumeration with its numeric codes, the constructor that
 * decodes a native pixel-format code (and throws on any other code), `getType`,
 * and the setters of this mutable record.
 */
module JavaVideoFrame {
  import opened Jni

  /** `VideoFrame.VideoFrameType`. */
  datatype VideoFrameType = YUV420 | YUV422 | RGBA | TEXTURE_2D | TEXTURE_OES

  /** `VideoFrameType.getValue()`: the engine's pixel-format code of each constant. */
  function Value(t: VideoFrameType): (code: int)
    ensures code in {1, 4, 10, 11, 16}
  {
    match t
    case YUV420 => 1
    case YUV422 => 16
    case RGBA => 4
    case TEXTURE_2D => 10
    case TEXTURE_OES => 11
  }

  /** The codes the constructor's switch accepts. */
  predicate IsKnownCode(code: int) {
    code == 1 || code == 4 || code == 16 || code == 10 || code == 11
  }

  /**
   * The constructor's `switch (type)`: `None` is the `default` branch, which throws
   * `IllegalArgumentException`. Every accepted code decodes to the constant whose
   * value it is.
   */
  function FromCode(code: int): (t: Option<VideoFrameType>)
    ensures t.Some? <==> IsKnownCode(code)
    ensures t.Some? ==> Value(t.value) == code
  {
    match code
    case 1 => Some(YUV420)
    case 4 => Some(RGBA)
    case 16 => Some(YUV422)
    case 10 => Some(TEXTURE_2D)
    case 11 => Some(TEXTURE_OES)
    case _ => None
  }

  /** Decoding inverts `getValue`: the other direction of the round trip. */
  lemma FromCodeOfValue(t: VideoFrameType)
    ensures FromCode(Value(t)) == Some(t)
  {
  }

  /** The five constants carry pairwise distinct codes, so the decoding is injective. */
  lemma ValueInjective(s: VideoFrameType, t: VideoFrameType)
    ensures Value(s) == Value(t) <==> s == t
  {
  }

  /** The exception the constructor raises for an unknown code. */
  datatype ConstructorError = IllegalArgumentException

  datatype Result<+T> = Ok(value: T) | Err(error: ConstructorError)

  /** Every field of a `VideoFrame` at one moment, for stating what a setter keeps. */
  datatype FrameFields = FrameFields(
    frameType: VideoFrameType,
    width: int, height: int,
    yStride: int, uStride: int, vStride: int,
    yBuffer: array?<Byte>, uBuffer: array?<Byte>, vBuffer: array?<Byte>,
    rotation: int, textureId: int, textureMatrix: array?<FloatBits>,
    renderTimeMs: int, avsyncType: int)

  class VideoFrame {
    var frameType: VideoFrameType
    var width: int
    var height: int
    var yStride: int
    var uStride: int
    var vStride: int
    var yBuffer: array?<Byte>
    var uBuffer: array?<Byte>
    var vBuffer: array?<Byte>
    var rotation: int
    var textureId: int
    var textureMatrix: array?<FloatBits>
    var renderTimeMs: int
    var avsyncType: int

    function Fields(): FrameFields
      reads this
    {
      FrameFields(frameType, width, height, yStride, uStride, vStride, yBuffer, uBuffer, vBuffer,
                  rotation, textureId, textureMatrix, renderTimeMs, avsyncType)
    }

    /** The field assignments after the switch: everything but the type is stored verbatim. */
    constructor Init(frameType: VideoFrameType, width: int, height: int,
                     yStride: int, uStride: int, vStride: int,
                     yBuffer: array?<Byte>, uBuffer: array?<Byte>, vBuffer: array?<Byte>,
                     rotation: int, textureId: int, matrix: array?<FloatBits>,
                     renderTimeMs: int, avsyncType: int)
      ensures Fields() == FrameFields(frameType, width, height, yStride, uStride, vStride,
                                      yBuffer, uBuffer, vBuffer, rotation, textureId, matrix,
                                      renderTimeMs, avsyncType)
    {
      this.frameType := frameType;
      this.width := width;
      this.height := height;
      this.yStride := yStride;
      this.uStride := uStride;
      this.vStride := vStride;
      this.yBuffer := yBuffer;
      this.uBuffer := uBuffer;
      this.vBuffer := vBuffer;
      this.rotation := rotation;
      this.textureId := textureId;
      this.textureMatrix := matrix;
      this.renderTimeMs := renderTimeMs;
      this.avsyncType := avsyncType;
    }

    /**
     * `new VideoFrame(int type, ...)`: an unknown type code throws; otherwise the new
     * frame holds the decoded type, reports the same code back through `getType`, and
     * keeps every other argument as given.
     */
    static method New(code: int, width: int, height: int,
                      yStride: int, uStride: int, vStride: int,
                      yBuffer: array?<Byte>, uBuffer: array?<Byte>, vBuffer: array?<Byte>,
                      rotation: int, textureId: int, matrix: array?<FloatBits>,
                      renderTimeMs: int, avsyncType: int)
      returns (r: Result<VideoFrame>)
      ensures r.Err? <==> !IsKnownCode(code)
      ensures r.Ok? ==> fresh(r.value)
      ensures r.Ok? ==> r.value.GetType() == code
      ensures r.Ok? ==> r.value.Fields() == FrameFields(FromCode(code).value, width, height,
                                                        yStride, uStride, vStride,
                                                        yBuffer, uBuffer, vBuffer,
                                                        rotation, textureId, matrix,
                                                        renderTimeMs, avsyncType)
    {
      var decoded := FromCode(code);
      if decoded.None? {
        return Err(IllegalArgumentException);
      }
      var frame := new VideoFrame.Init(decoded.value, width, height, yStride, uStride, vStride,
                                       yBuffer, uBuffer, vBuffer, rotation, textureId, matrix,
                                       renderTimeMs, avsyncType);
      r := Ok(frame);
    }

    /** `getType()`: the code of the current type, always one the constructor accepts. */
    function GetType(): (code: int)
      reads this
      ensures FromCode(code) == Some(frameType)
    {
      Value(frameType)
    }

    method SetType(t: VideoFrameType)
      modifies this
      ensures Fields() == old(Fields()).(frameType := t)
      ensures GetType() == Value(t)
    {
      frameType := t;
    }

    method SetWidth(w: int)
      modifies this
      ensures Fields() == old(Fields()).(width := w)
    {
      width := w;
    }

    method SetHeight(h: int)
      modifies this
      ensures Fields() == old(Fields()).(height := h)
    {
      height := h;
    }

    method SetYStride(s: int)
      modifies this
      ensures Fields() == old(Fields()).(yStride := s)
    {
      yStride := s;
    }

    method SetUStride(s: int)
      modifies this
      ensures Fields() == old(Fields()).(uStride := s)
    {
      uStride := s;
    }

    method SetVStride(s: int)
      modifies this
      ensures Fields() == old(Fields()).(vStride := s)
    {
      vStride := s;
    }

    method SetYBuffer(b: array?<Byte>)
      modifies this
      ensures Fields() == old(Fields()).(yBuffer := b)
    {
      yBuffer := b;
    }

    method SetUBuffer(b: array?<Byte>)
      modifies this
      ensures Fields() == old(Fields()).(uBuffer := b)
    {
      uBuffer := b;
    }

    method SetVBuffer(b: array?<Byte>)
      modifies this
      ensures Fields() == old(Fields()).(vBuffer := b)
    {
      vBuffer := b;
    }

    method SetRotation(r: int)
      modifies this
      ensures Fields() == old(Fields()).(rotation := r)
    {
      rotation := r;
    }

    method SetTextureId(id: int)
      modifies this
      ensures Fields() == old(Fields()).(textureId := id)
    {
      textureId := id;
    }

    method SetTextureMatrix(m: array?<FloatBits>)
      modifies this
      ensures Fields() == old(Fields()).(textureMatrix := m)
    {
      textureMatrix := m;
    }

    method SetRenderTimeMs(t: int)
      modifies this
      ensures Fields() == old(Fields()).(renderTimeMs := t)
    {
      renderTimeMs := t;
    }

    method SetAvsyncType(a: int)
      modifies this
      ensures Fields() == old(Fields()).(avsyncType := a)
    {
      avsyncType := a;
    }
  }
}

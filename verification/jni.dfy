/**
 * Shared vocabulary of the two frame bridges: the byte and float-bit types that
 * cross the native/managed boundary, the nullable-value wrapper used for native
 * pointers and managed references, 32-bit `int` arithmetic as C++ evaluates it,
 * and the two JNI copy primitives the bridges use to write managed containers
 * back into native memory.
 */
module Jni {

  /** One byte of a native plane or a managed `byte[]` (jbyte). */
  type Byte = bv8

  /** A `float` as 32 raw bits: the matrices are only ever copied, never computed with. */
  type FloatBits = bv32

  /** `None` stands for a null native pointer or a null managed reference. */
  datatype Option<+T> = None | Some(value: T)

  const INT32_MIN: int := -0x8000_0000
  const INT32_MAX: int := 0x7fff_ffff

  predicate FitsInt32(x: int) {
    INT32_MIN <= x <= INT32_MAX
  }

  /** C++ `x / 2` on `int`: the quotient is truncated toward zero. */
  function CDiv2(x: int): (q: int)
    ensures x >= 0 ==> q == x / 2
    ensures x < 0 ==> q == -((-x) / 2)
    ensures x >= 0 ==> 0 <= x - 2 * q <= 1
    ensures x < 0 ==> -1 <= x - 2 * q <= 0
  {
    if x >= 0 then x / 2 else -((-x) / 2)
  }

  /** A fresh managed `byte[n]`: the JVM zero-fills it. */
  function Zeros(n: nat): (z: seq<Byte>)
    ensures |z| == n
    ensures forall k :: 0 <= k < n ==> z[k] == 0
  {
    seq(n, _ => 0)
  }

  /**
   * The native bytes after a copy of `src` into the start of `dst`:
   * the first |src| bytes are replaced, every later byte is kept.
   */
  function Overwrite<T>(dst: seq<T>, src: seq<T>): (r: seq<T>)
    requires |src| <= |dst|
    ensures |r| == |dst|
    ensures r[..|src|] == src
    ensures r[|src|..] == dst[|src|..]
  {
    src + dst[|src|..]
  }

  /** Writing back exactly what was read out of a buffer leaves the buffer as it was. */
  lemma OverwriteWithOwnPrefix<T>(dst: seq<T>, n: nat)
    requires n <= |dst|
    ensures Overwrite(dst, dst[..n]) == dst
  {
  }

  /**
   * `GetByteArrayRegion(arr, 0, GetArrayLength(arr), dst)`: copies the whole managed
   * container into the start of the native buffer; the buffer keeps its size.
   */
  method GetByteArrayRegion(src: seq<Byte>, dst: array<Byte>)
    requires |src| <= dst.Length
    modifies dst
    ensures dst[..] == Overwrite(old(dst[..]), src)
  {
    forall k | 0 <= k < |src| {
      dst[k] := src[k];
    }
    assert dst[..] == src + old(dst[..])[|src|..];
  }

  /** `memcpy(dst, src, sizeof(float[16]))`: the first `dst.Length` floats of `src`. */
  method CopyFloats(dst: array<FloatBits>, src: seq<FloatBits>)
    requires dst.Length <= |src|
    modifies dst
    ensures dst[..] == src[..dst.Length]
  {
    forall k | 0 <= k < dst.Length {
      dst[k] := src[k];
    }
  }

  /**
   * The media engine as the bridges see it: one observer slot per media type,
   * filled by `registerVideoFrameObserver(this)` / `registerAudioFrameObserver(this)`
   * and cleared by passing `nullptr`.
   */
  class MediaEngine {
    var videoObserver: object?
    var audioObserver: object?

    constructor ()
      ensures videoObserver == null && audioObserver == null
    {
      videoObserver := null;
      audioObserver := null;
    }
  }
}

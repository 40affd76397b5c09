/**
 * The managed-side observer base class (`IVideoFrameObserver`): the observation
 * position bits, the default answers of its overridable methods, and the
 * `nativeHandle` field that makes registering and unregistering the native bridge
 * idempotent.
 */
module JavaVideoObserver {
  import opened JavaVideoFrame

  const POSITION_POST_CAPTURER: bv32 := 1 << 0
  const POSITION_PRE_RENDERER: bv32 := 1 << 1
  const POSITION_PRE_ENCODER: bv32 := 1 << 2

  /** `x` has exactly one bit set. */
  predicate SingleBit(x: bv32) {
    x != 0 && x & (x - 1) == 0
  }

  /** The three positions are distinct single bits, so any set of them is a bit mask. */
  lemma PositionFlagsAreDistinctBits()
    ensures SingleBit(POSITION_POST_CAPTURER)
    ensures SingleBit(POSITION_PRE_RENDERER)
    ensures SingleBit(POSITION_PRE_ENCODER)
    ensures POSITION_POST_CAPTURER & POSITION_PRE_RENDERER == 0
    ensures POSITION_POST_CAPTURER & POSITION_PRE_ENCODER == 0
    ensures POSITION_PRE_RENDERER & POSITION_PRE_ENCODER == 0
    ensures POSITION_POST_CAPTURER == 1 && POSITION_PRE_RENDERER == 2 && POSITION_PRE_ENCODER == 4
  {
  }

  // The default bodies of the overridable methods. The frame argument they ignore
  // is left out of the model.
  function OnPreEncodeVideoFrame(sourceType: int): bool { true }
  function OnRenderVideoFrame(uid: int): bool { true }
  function OnRenderVideoFrameEx(channelId: string, uid: int): bool { true }
  function GetVideoFormatPreference(): VideoFrameType { TEXTURE_OES }
  function GetRotationApplied(): bool { true }
  function GetMirrorApplied(): bool { false }
  function GetSmoothRenderingEnabled(): bool { false }
  function GetObservedFramePosition(): bv32 { POSITION_POST_CAPTURER }
  function IsMultipleChannelFrameWanted(): bool { false }

  /** What an observer that overrides only `onCaptureVideoFrame` answers to everything else. */
  lemma DefaultAnswers(sourceType: int, uid: int, channelId: string)
    ensures OnPreEncodeVideoFrame(sourceType) && OnRenderVideoFrame(uid)
    ensures OnRenderVideoFrameEx(channelId, uid)
    ensures GetVideoFormatPreference() == TEXTURE_OES && Value(GetVideoFormatPreference()) == 11
    ensures GetRotationApplied() && !GetMirrorApplied() && !GetSmoothRenderingEnabled()
    ensures GetObservedFramePosition() == POSITION_POST_CAPTURER
    ensures !IsMultipleChannelFrameWanted()
  {
  }

  /** A call into the native library, in the order the observer makes them. */
  datatype NativeCall =
    | NativeRegister(engineHandle: int)
    | NativeUnregister(nativeHandle: int)

  class IVideoFrameObserver {
    /** Set once by the constructor; no method assigns it again. */
    const engineHandle: int
    /** 0 while no native bridge is registered, else the bridge's handle. */
    var nativeHandle: int
    /** The native calls this observer has made so far. */
    ghost var nativeCalls: seq<NativeCall>

    constructor (engineHandle: int)
      ensures this.engineHandle == engineHandle
      ensures nativeHandle == 0 && nativeCalls == []
    {
      this.engineHandle := engineHandle;
      nativeHandle := 0;
      nativeCalls := [];
    }

    /**
     * `registerVideoFrameObserver()`: calls `nativeRegisterVideoFrameObserver` only
     * while no bridge is registered, and keeps what it returns (`created`, the
     * handle the native library hands back). With a bridge registered it is a no-op.
     */
    method RegisterVideoFrameObserver(created: int)
      modifies this
      ensures old(nativeHandle) == 0 ==>
                nativeHandle == created &&
                nativeCalls == old(nativeCalls) + [NativeRegister(engineHandle)]
      ensures old(nativeHandle) != 0 ==>
                nativeHandle == old(nativeHandle) && nativeCalls == old(nativeCalls)
    {
      if nativeHandle == 0 {
        nativeCalls := nativeCalls + [NativeRegister(engineHandle)];
        nativeHandle := created;
      }
    }

    /**
     * `unregisterVideoFrameObserver()`: releases the registered bridge, if any, and
     * forgets its handle; with none registered it is a no-op.
     */
    method UnregisterVideoFrameObserver()
      modifies this
      ensures nativeHandle == 0
      ensures old(nativeHandle) != 0 ==>
                nativeCalls == old(nativeCalls) + [NativeUnregister(old(nativeHandle))]
      ensures old(nativeHandle) == 0 ==> nativeCalls == old(nativeCalls)
    {
      if nativeHandle != 0 {
        nativeCalls := nativeCalls + [NativeUnregister(nativeHandle)];
        nativeHandle := 0;
      }
    }
  }

  /**
   * Register, unregister, register again from a fresh observer: two native
   * registrations and exactly one native unregistration, of the first bridge.
   */
  method RegisterUnregisterRegister(engineHandle: int, first: int, second: int)
    returns (o: IVideoFrameObserver)
    requires first != 0
    ensures fresh(o)
    ensures o.nativeCalls == [NativeRegister(engineHandle), NativeUnregister(first),
                              NativeRegister(engineHandle)]
    ensures o.nativeHandle == second && o.engineHandle == engineHandle
  {
    o := new IVideoFrameObserver(engineHandle);
    o.RegisterVideoFrameObserver(first);
    o.RegisterVideoFrameObserver(second);   // already registered: ignored
    o.UnregisterVideoFrameObserver();
    o.UnregisterVideoFrameObserver();       // nothing registered: ignored
    o.RegisterVideoFrameObserver(second);
  }
}

# Agora raw-data bridge (Android): frame marshalling, in Dafny

This project models the core of the Android raw-data bridge between the Agora media
engine and managed observers. The engine hands the native bridge a mutable video or
audio frame. For each frame the bridge:

- copies the frame's planes (or sample buffer) into managed byte arrays;
- builds a managed `VideoFrame` / `AudioFrame` around them;
- calls the managed observer;
- copies the arrays back into the native buffers;
- returns the observer's boolean answer to the engine.

On the capture path, a texture frame ships its 16-entry transform matrix instead of
planes. There the observer can hand a texture back, by making the frame report a
texture type.

Modules, one per source file plus one for shared vocabulary:

- `Jni` (`jni.dfy`) holds what the bridges share:
  - bytes as `bv8`;
  - floats as opaque 32-bit patterns, which are only ever copied;
  - `Option` for null pointers and references;
  - C++ truncating `/ 2`;
  - the two copies into native memory (`GetByteArrayRegion`, the matrix `memcpy`);
  - the engine's observer slots.
- `JavaVideoFrame` (`VideoFrame.java`):
  - the `VideoFrameType` codes and their decoding;
  - the throwing constructor, `getType`;
  - the class with its setters, each stated as "this one field changes".
- `JavaVideoObserver` (`IVideoFrameObserver.java`):
  - the position bits and the default answers;
  - the `nativeHandle` register/unregister state machine, with a log of native calls.
- `VideoPlanes` (the pure part of `VideoFrameObserver.cpp`):
  - the plane-length table;
  - which planes become containers, and in which order;
  - where the copy-back loop writes each container (`CopyBackTo` over a target list).
- `VideoObserver` (`VideoFrameObserver.cpp`):
  - the engine's frame as a class over `array?<bv8>` planes and a 16-entry matrix array;
  - the observer class with its constructor, destructor and three frame handlers;
  - the handler bodies as methods: the `push_back` marshalling, the in-place copy-back
    `for` loop, the texture adoption;
  - for each handler, a pure specification (`Capture`, `PlanarRoundTrip`) that the
    method's `ensures` ties the new frame state and the return value to;
  - the properties, as lemmas about those specifications.
- `AudioObserver` (`AudioFrameObserver.cpp`): the same structure for the four audio
  handlers (`RoundTrip`).

How the managed callback is modelled: it is a function value, passed per call.
- Its input is the constructor arguments of the managed frame.
- It returns its boolean answer and the contents it leaves in the arrays it was handed.
- On video it also returns what `getType`, `getTextureId` and `getTextureMatrix`
  report afterwards.
- Managed arrays cannot be resized, so the arrays keep their lengths.
- Because the function is a per-call parameter, every handler contract holds for
  every observer behaviour that keeps the arrays' lengths and, when it reports a
  texture type, reports a matrix of at least 16 floats.

Two modelling choices concern edge cases:
- Audio marshalling follows the code. When the native buffer pointer is null, the
  bridge still allocates an array of the computed length, which the JVM zero-fills,
  and leaves it as it is; `Marshal` and `NativeToJavaByteArray` accept that case at
  any length. The handlers then copy the array back through the null pointer, so
  they require a buffer whenever the length is positive (`CopyBackable`).
- Unsupported pixel formats are rejected. For a format outside the plane table the
  model's handlers return false and leave the frame untouched, without calling back.
  The code instead goes on with undefined plane lengths; that behaviour is modelled
  as written and recorded under "## Findings".

## Model

| member | source | states |
|---|---|---|
| Jni.CDiv2 | cpp/android/VideoFrameObserver.cpp:232-233 | C++ `/ 2` on `int` truncates toward zero: the remainder `x - 2q` is 0 or 1 for a non-negative operand and 0 or -1 for a negative one |
| Jni.Zeros | cpp/android/AudioFrameObserver.cpp:127 | a freshly allocated managed `byte[n]` has length n and holds only zero bytes |
| Jni.Overwrite | cpp/android/VideoFrameObserver.cpp:118-119 | after copying a container into a native buffer, the buffer keeps its length, starts with the container, and every byte past the container is unchanged |
| Jni.OverwriteWithOwnPrefix | cpp/android/AudioFrameObserver.cpp:72-73 | writing back exactly the prefix that was read out leaves the native buffer byte-identical |
| Jni.GetByteArrayRegion | cpp/android/VideoFrameObserver.cpp:118-119 | the in-place copy of a whole container into a native array leaves it equal to `Overwrite` of its old contents |
| Jni.CopyFloats | cpp/android/VideoFrameObserver.cpp:134 | the matrix `memcpy` makes the 16-entry native matrix equal to the first 16 floats of the managed matrix |
| JavaVideoFrame.Value | android/src/main/java/io/agora/rtc/rawdata/base/VideoFrame.java:4-15 | every enum constant's value is one of the five engine codes 1, 4, 10, 11, 16 |
| JavaVideoFrame.FromCode | android/src/main/java/io/agora/rtc/rawdata/base/VideoFrame.java:41-60 | the constructor's switch accepts exactly the five known codes (anything else is the throwing `default`), and an accepted code decodes to the constant whose value it is |
| JavaVideoFrame.FromCodeOfValue | android/src/main/java/io/agora/rtc/rawdata/base/VideoFrame.java:41-56 | decoding a constant's value gives back that constant: the other direction of the round trip |
| JavaVideoFrame.ValueInjective | android/src/main/java/io/agora/rtc/rawdata/base/VideoFrame.java:5-9 | two constants have the same value iff they are the same constant |
| JavaVideoFrame.VideoFrame.Init | android/src/main/java/io/agora/rtc/rawdata/base/VideoFrame.java:62-74 | after the type switch, every other constructor argument is stored verbatim |
| JavaVideoFrame.VideoFrame.New | android/src/main/java/io/agora/rtc/rawdata/base/VideoFrame.java:33-75 | the constructor throws `IllegalArgumentException` iff the code is unknown; otherwise the fresh frame holds the decoded type, `getType` returns the code it was given, and all other fields are the arguments |
| JavaVideoFrame.VideoFrame.GetType | android/src/main/java/io/agora/rtc/rawdata/base/VideoFrame.java:77 | `getType` always reports a code that decodes back to the frame's current type |
| JavaVideoFrame.VideoFrame.SetType | android/src/main/java/io/agora/rtc/rawdata/base/VideoFrame.java:79 | only the type changes, and `getType` then returns the new constant's value |
| JavaVideoFrame.VideoFrame.SetWidth | android/src/main/java/io/agora/rtc/rawdata/base/VideoFrame.java:83 | only the width changes |
| JavaVideoFrame.VideoFrame.SetHeight | android/src/main/java/io/agora/rtc/rawdata/base/VideoFrame.java:87 | only the height changes |
| JavaVideoFrame.VideoFrame.SetYStride | android/src/main/java/io/agora/rtc/rawdata/base/VideoFrame.java:91 | only the Y stride changes |
| JavaVideoFrame.VideoFrame.SetUStride | android/src/main/java/io/agora/rtc/rawdata/base/VideoFrame.java:95 | only the U stride changes |
| JavaVideoFrame.VideoFrame.SetVStride | android/src/main/java/io/agora/rtc/rawdata/base/VideoFrame.java:99 | only the V stride changes |
| JavaVideoFrame.VideoFrame.SetYBuffer | android/src/main/java/io/agora/rtc/rawdata/base/VideoFrame.java:103 | only the Y array reference changes |
| JavaVideoFrame.VideoFrame.SetUBuffer | android/src/main/java/io/agora/rtc/rawdata/base/VideoFrame.java:107 | only the U array reference changes |
| JavaVideoFrame.VideoFrame.SetVBuffer | android/src/main/java/io/agora/rtc/rawdata/base/VideoFrame.java:111 | only the V array reference changes |
| JavaVideoFrame.VideoFrame.SetRotation | android/src/main/java/io/agora/rtc/rawdata/base/VideoFrame.java:115 | only the rotation changes |
| JavaVideoFrame.VideoFrame.SetTextureId | android/src/main/java/io/agora/rtc/rawdata/base/VideoFrame.java:119 | only the texture id changes |
| JavaVideoFrame.VideoFrame.SetTextureMatrix | android/src/main/java/io/agora/rtc/rawdata/base/VideoFrame.java:123 | only the matrix reference changes |
| JavaVideoFrame.VideoFrame.SetRenderTimeMs | android/src/main/java/io/agora/rtc/rawdata/base/VideoFrame.java:127-129 | only the render time changes |
| JavaVideoFrame.VideoFrame.SetAvsyncType | android/src/main/java/io/agora/rtc/rawdata/base/VideoFrame.java:133-135 | only the A/V sync type changes |
| JavaVideoObserver.PositionFlagsAreDistinctBits | android/src/main/java/io/agora/rtc/rawdata/base/IVideoFrameObserver.java:6-8 | the three observation positions are the single bits 1, 2 and 4, pairwise disjoint |
| JavaVideoObserver.DefaultAnswers | android/src/main/java/io/agora/rtc/rawdata/base/IVideoFrameObserver.java:18-44 | the defaults: pre-encode, render and render-ex accept; format preference TEXTURE_OES (code 11); rotation applied; no mirroring or smoothing; position POST_CAPTURER; no multi-channel frames |
| JavaVideoObserver.IVideoFrameObserver.constructor | android/src/main/java/io/agora/rtc/rawdata/base/IVideoFrameObserver.java:12-14 | the engine handle is set once (a `const`, so no method can change it); no native bridge is registered yet |
| JavaVideoObserver.IVideoFrameObserver.RegisterVideoFrameObserver | android/src/main/java/io/agora/rtc/rawdata/base/IVideoFrameObserver.java:46-50 | with no bridge registered, one native register call with the engine handle is made and its result kept; with one registered, nothing happens |
| JavaVideoObserver.IVideoFrameObserver.UnregisterVideoFrameObserver | android/src/main/java/io/agora/rtc/rawdata/base/IVideoFrameObserver.java:52-57 | with a bridge registered, one native unregister call with its handle is made; afterwards the handle is 0 either way, so repeating it is a no-op |
| JavaVideoObserver.RegisterUnregisterRegister | android/src/main/java/io/agora/rtc/rawdata/base/IVideoFrameObserver.java:46-57 | register, register, unregister, unregister, register makes exactly two native registrations and one native unregistration (of the first bridge), and leaves the second bridge registered |
| VideoPlanes.PlaneLengthsOf | cpp/android/VideoFrameObserver.cpp:228-248 | the plane-length table: I420 Y = yStride·height and U, V = stride·height / 2 (truncating); I422 stride·height for all three; RGBA Y = width·height·4 and U = V = 0; any other format has no lengths |
| VideoPlanes.UnsupportedFormatLengthsAreStale | cpp/android/VideoFrameObserver.cpp:228-248 | as written, an unsupported format's lengths depend on the uninitialised locals, not on the frame; for supported formats the as-written switch equals the table |
| VideoPlanes.PlaneTableAgreesWithJavaDecoder | cpp/android/VideoFrameObserver.cpp:229-247 | the formats the table sizes are exactly the managed decoder's codes less the two texture codes, so a marshalled frame never makes the managed constructor throw |
| VideoPlanes.ChromaPlanesAgainstLuma | cpp/android/VideoFrameObserver.cpp:230-241 | with one common non-negative stride and a non-negative height, an I420 chroma plane is half the luma plane (rounded down) and both together never exceed it; I422 chroma planes equal the luma plane |
| VideoPlanes.I420Example | cpp/android/VideoFrameObserver.cpp:230-235 | 640×480 I420 with stride 640 sizes its planes as 307200, 153600, 153600 bytes |
| VideoPlanes.Put | cpp/android/VideoFrameObserver.cpp:111-117 | selecting one of the three plane pointers and replacing it changes that plane and no other |
| VideoPlanes.Roles | cpp/android/VideoFrameObserver.cpp:250-272 | a plane gets a container iff its pointer is non-null and its length is positive; containers appear in Y, U, V order, at most three, no plane twice |
| VideoPlanes.Containers | cpp/android/VideoFrameObserver.cpp:250-274 | one container per role, each equal to the first `length` bytes of its plane |
| VideoPlanes.RgbaHasAtMostOneContainer | cpp/android/VideoFrameObserver.cpp:242-247 | an RGBA frame marshals at most its Y plane |
| VideoPlanes.Positional | cpp/android/VideoFrameObserver.cpp:108-117 | the copy-back loop's target for container k is the plane with index k (Y, U, V for 0, 1, 2) |
| VideoPlanes.PositionalMatchesRolesIffPrefix | cpp/android/VideoFrameObserver.cpp:108-117 | positional targets coincide with the planes the containers came from iff the present planes are prefix-shaped (U present only with Y, V only with U) |
| VideoPlanes.CopyBackTo | cpp/android/VideoFrameObserver.cpp:108-121 | copying a list of containers back into their target planes never changes a plane's size or nullness |
| VideoPlanes.CopyBackToPlane | cpp/android/VideoFrameObserver.cpp:108-121 | with distinct targets, a targeted plane ends up as its container written over its start, and an untargeted plane is unchanged |
| VideoPlanes.CopyBackByRoleRestores | cpp/android/VideoFrameObserver.cpp:250-274 | routing each unmodified container back to the plane it came from restores every plane byte for byte, whatever planes are present |
| VideoPlanes.PositionalRestoresPrefixShaped | cpp/android/VideoFrameObserver.cpp:152-165 | the source's positional routing restores an unmodified frame whenever the present planes are prefix-shaped |
| VideoPlanes.PositionalCopyBackMisroutesV | cpp/android/VideoFrameObserver.cpp:152-165 | there is a frame (I420, U stride 0) whose unmodified containers, copied back by position, overwrite the U plane with V's bytes |
| VideoPlanes.PositionalCopyBackHitsNullU | cpp/android/VideoFrameObserver.cpp:152-165 | there is a frame (I422 with a null U pointer) whose second container the loop copies to the null U pointer |
| VideoObserver.NativeToJavaVideoFrame | cpp/android/VideoFrameObserver.cpp:277-294 | the managed frame gets the three arrays iff there are exactly three containers (else three nulls), the matrix it is given, and every scalar field unchanged |
| VideoObserver.ContainersAfterCallback | cpp/android/VideoFrameObserver.cpp:280-287 | the containers the loop copies back are the callback's arrays when it was handed three, else the unexposed containers; their count and lengths never change |
| VideoObserver.MarshalPlanar | cpp/android/VideoFrameObserver.cpp:148-149 | render and pre-encode marshal a frame iff its format is in the plane table, never with a matrix, and into at most three containers |
| VideoObserver.MarshalCapture | cpp/android/VideoFrameObserver.cpp:95-105 | capture marshals texture frames and table formats, and no others, into at most three containers |
| VideoObserver.CopyBackAfter | cpp/android/VideoFrameObserver.cpp:108-121 | the copy-back changes the planes' contents only, never their shape or any other frame field |
| VideoObserver.CaptureMarshalsMatrixXorPlanes | cpp/android/VideoFrameObserver.cpp:95-103 | a texture capture frame is marshalled with its matrix and no containers or arrays; a planar frame with no matrix |
| VideoObserver.HandlersReturnCallbackAnswer | cpp/android/VideoFrameObserver.cpp:106-194 | each video handler returns exactly the callback's answer; a frame outside the plane table is rejected untouched |
| VideoObserver.PlanarRoundTripChangesOnlyPlanes | cpp/android/VideoFrameObserver.cpp:143-194 | render and pre-encode never change type, texture id, matrix or any scalar, nor any plane's size or nullness |
| VideoObserver.CaptureAdoptsReportedTexture | cpp/android/VideoFrameObserver.cpp:108-137 | after the plane copy-back, a reported texture type overwrites the type, texture id and all 16 matrix entries with what the frame object reports; any other reported type changes none of them |
| VideoObserver.TextureCaptureKeepsPlanes | cpp/android/VideoFrameObserver.cpp:95-121 | a texture capture frame's planes are never written |
| VideoObserver.UnchangedCallbackRestoresFrame | cpp/android/VideoFrameObserver.cpp:148-165 | a callback that leaves its arrays unchanged leaves a prefix-shaped frame byte-identical |
| VideoObserver.CallbackBytesReachPlanes | cpp/android/VideoFrameObserver.cpp:152-165 | with all three planes present (so three containers), each plane starts with exactly the bytes the callback left in its array and keeps its bytes beyond |
| VideoObserver.FewerThanThreePlanesAreNeverExposed | cpp/android/VideoFrameObserver.cpp:280-293 | with fewer than three containers the callback sees no array, and a prefix-shaped frame (an RGBA frame, say) comes back unchanged whatever it does |
| VideoObserver.CaptureUnchangedCallbackRestoresFrame | cpp/android/VideoFrameObserver.cpp:102-121 | on the capture path too, a callback that leaves its arrays unchanged gives a planar prefix-shaped frame its planes back byte-identical, and the whole frame when it reports no texture type |
| VideoObserver.CaptureCallbackBytesReachPlanes | cpp/android/VideoFrameObserver.cpp:108-121 | on the capture path, with all three planes present (so three containers), each plane starts with exactly the callback's bytes and keeps its bytes beyond, whatever type is reported |
| VideoObserver.NativeToJavaByteArray | cpp/android/VideoFrameObserver.cpp:226-275 | returns `None` (the frame is rejected) for a format outside the table, and otherwise exactly the containers the `push_back` sequence builds for the table's lengths |
| VideoObserver.CopyBack | cpp/android/VideoFrameObserver.cpp:108-121 | the in-place loop leaves the native planes equal to `CopyBackTo` with positional targets, and changes nothing else |
| VideoObserver.VideoObserverDefaults | cpp/android/VideoFrameObserver.cpp:296-309 | media-player and transcoded frames are declined; the process mode is read-write |
| VideoObserver.VideoFrameObserver.constructor | cpp/android/VideoFrameObserver.cpp:6-58 | every reference and method id is resolved, and the bridge fills the engine's video slot when there is an engine |
| VideoObserver.VideoFrameObserver.Destroy | cpp/android/VideoFrameObserver.cpp:60-89 | the engine's video slot is cleared first; only then are the caller reference, frame class and frame-type class released, each followed by clearing its method ids |
| VideoObserver.VideoFrameObserver.OnCaptureVideoFrame | cpp/android/VideoFrameObserver.cpp:91-141 | the return value and the frame's new state are those of the `Capture` specification applied to the old state and the callback |
| VideoObserver.VideoFrameObserver.OnRenderVideoFrame | cpp/android/VideoFrameObserver.cpp:143-168 | return value and new state are `PlanarRoundTrip` with the remote uid; type, texture id and matrix are outside what it may modify |
| VideoObserver.VideoFrameObserver.OnPreEncodeVideoFrame | cpp/android/VideoFrameObserver.cpp:170-194 | return value and new state are `PlanarRoundTrip` with the source type; type, texture id and matrix are outside what it may modify |
| VideoObserver.VideoFrameObserver.PlanarCall | cpp/android/VideoFrameObserver.cpp:148-165 | the body the render and pre-encode handlers share establishes `PlanarRoundTrip` |
| AudioObserver.Marshal | cpp/android/AudioFrameObserver.cpp:122-134 | the array has length samplesPerChannel·channels·bytesPerSample, equals the buffer's prefix of that length when there is a buffer, and is all zeros of that length when the buffer pointer is null (at any length) |
| AudioObserver.NativeToJavaAudioFrame | cpp/android/AudioFrameObserver.cpp:136-144 | the managed audio frame gets the array and every scalar field unchanged |
| AudioObserver.AudioHandlersReturnCallbackAnswer | cpp/android/AudioFrameObserver.cpp:65-120 | each audio handler returns exactly the callback's answer |
| AudioObserver.AudioRoundTripChangesOnlyBuffer | cpp/android/AudioFrameObserver.cpp:69-73 | no scalar field is written back, and the buffer keeps its presence and length |
| AudioObserver.AudioCallbackBytesReachBuffer | cpp/android/AudioFrameObserver.cpp:72-73 | the buffer starts with exactly the callback's array, and every byte past it is unchanged |
| AudioObserver.AudioUnchangedCallbackRestoresFrame | cpp/android/AudioFrameObserver.cpp:69-73 | a callback that leaves the array unchanged leaves the frame byte-identical |
| AudioObserver.StereoFrameLength | cpp/android/AudioFrameObserver.cpp:124-125 | 480 samples × 2 channels × 2 bytes give a 1920-byte array: the buffer's first 1920 bytes, or 1920 zero bytes for a null buffer, which the handlers then cannot copy back into |
| AudioObserver.NativeToJavaByteArray | cpp/android/AudioFrameObserver.cpp:122-134 | the allocation and conditional fill produce exactly the `Marshal` array, for a null buffer of any length as well |
| AudioObserver.AudioObserverDefaults | cpp/android/AudioFrameObserver.cpp:146-171 | ear-monitoring frames are declined, the observed position is 0, and all four parameter queries return the default parameters |
| AudioObserver.AudioFrameObserver.constructor | cpp/android/AudioFrameObserver.cpp:6-41 | every reference and method id is resolved, and the bridge fills the engine's audio slot when there is an engine |
| AudioObserver.AudioFrameObserver.Destroy | cpp/android/AudioFrameObserver.cpp:43-63 | the engine's audio slot is cleared first; only then are the caller reference and frame class released, each followed by clearing its method ids |
| AudioObserver.AudioFrameObserver.CopyBack | cpp/android/AudioFrameObserver.cpp:72-76 | copying the whole array back and returning the answer establishes `RoundTrip` |
| AudioObserver.AudioFrameObserver.OnRecordAudioFrame | cpp/android/AudioFrameObserver.cpp:65-77 | return value and new frame are `RoundTrip` of the old frame and the callback's outcome on it |
| AudioObserver.AudioFrameObserver.OnPlaybackAudioFrame | cpp/android/AudioFrameObserver.cpp:79-91 | as for record, with the playback callback |
| AudioObserver.AudioFrameObserver.OnMixedAudioFrame | cpp/android/AudioFrameObserver.cpp:93-105 | as for record, with the mixed callback |
| AudioObserver.AudioFrameObserver.OnPlaybackAudioFrameBeforeMixing | cpp/android/AudioFrameObserver.cpp:107-120 | as for record, the only audio handler whose callback also receives the uid |

## Left out

- JNI plumbing is not modelled: class and method-id lookup, local and global
  reference management, exception state and `CallBooleanMethod` dispatch. Cached
  handles are booleans, and the callback is a function value.
- `AttachThreadScoped` and the thread-attachment failure path are not modelled.
  `VMUtil.h` is not part of this model. Each handler is one sequential call.
- Concurrency is not modelled: engine callbacks arrive on several engine threads.
- The property-query forwarders of the video bridge are not modelled, because they
  pass values through with no logic of their own: `getVideoFormatPreference`,
  `getRotationApplied`, `getMirrorApplied` and `getObservedFramePosition`. The
  managed defaults they would forward are in `JavaVideoObserver.DefaultAnswers`.
- The Flutter plugin is not part of this model: method channels, OpenGL texture
  drawing and matrix arithmetic.
- Matrix floats are opaque 32-bit patterns, because they are only copied.
- The managed getters are not modelled one by one: `Fields()` states every field at once.
- A callback that replaces an array reference with a setter has no effect on the
  native side, because the bridge copies back from the arrays it created. The model
  therefore observes only the contents of those arrays.
- The field values of the engine's default `AudioParams` are not modelled: they are
  defined in an engine header that is not part of this model.
- The C++ destructor is modelled as an explicit `Destroy`. The engine registry is
  modelled as two object slots.
- VideoObserver.VideoFrameObserver.OnCaptureVideoFrame: `int` overflow in the length
  products is not modelled. The handler requires every product the length switch
  evaluates for the frame's own format to fit a signed 32-bit `int` (`ProductsFitInt32`). The same holds for `OnRenderVideoFrame` and
  `OnPreEncodeVideoFrame`.
- VideoObserver.VideoFrameObserver.OnCaptureVideoFrame: the handlers require the
  following of their inputs. The source never checks any of it; any of these
  conditions would otherwise be undefined behaviour or a crash.
  - Every present plane holds at least its computed length.
  - The non-null plane buffers are distinct arrays.
  - Every positional copy-back target is non-null and large enough.
  - A reported texture type comes with a matrix of at least 16 floats.
- AudioObserver.AudioFrameObserver.OnRecordAudioFrame: the length product must fit
  an `int` and be non-negative, and a non-empty frame must have a buffer. In the
  source, a null buffer with a positive length is marshalled (to zeros, as `Marshal`
  states) but crashes in the copy-back (`CopyBackable`). The same
  requirement applies to the other three audio handlers.

## Findings

| source | as written | input that shows it | evidently intended | confidence | as-written member | corrected member |
|---|---|---|---|---|---|---|
| cpp/android/VideoFrameObserver.cpp:228-248 | the plane-length `switch` has no `default`, so for any other format the three lengths are uninitialised locals, which are then used to allocate and copy | a planar capture frame in a format outside I420/I422/RGBA | reject the frame: no lengths, no callback, frame untouched, handler returns false | not executed | VideoPlanes.UnsupportedFormatLengthsAreStale | VideoPlanes.PlaneLengthsOf |
| cpp/android/VideoFrameObserver.cpp:152-165 | container k is copied back into yBuffer, uBuffer or vBuffer by its position k, not by the plane it was read from | I420 2×2 with strides 2, 0, 2 (U length 0) and planes Y=[0,0,0,0], U=[1,1], V=[2,2]: containers are [Y, V], and V's bytes land in U | copy each container back into the plane it came from, which restores an unmodified frame for every combination of present planes | not executed | VideoPlanes.PositionalCopyBackMisroutesV | VideoPlanes.CopyBackByRoleRestores |

The rest of the model uses the corrected plane-length table. It keeps the positional
copy-back loop as written, because the position is the engine-visible behaviour of
the handlers. `VideoPlanes.PositionalMatchesRolesIffPrefix` shows exactly when the two
routings agree. They agree on every frame whose present planes are prefix-shaped:
I420 and I422 with all three planes, and RGBA.

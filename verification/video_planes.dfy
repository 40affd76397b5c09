/**
 * Plane geometry of the video bridge (`VideoFrameObserver::NativeToJavaByteArray`
 * and the copy-back loops of the three frame handlers), stated on values:
 * the per-format plane-length table, which planes become managed containers and
 * in which order, and where the copy-back loop writes each container.
 */
module VideoPlanes {
  import opened Jni
  import opened JavaVideoFrame

  // The engine's VIDEO_PIXEL_FORMAT codes the bridge handles; they are the
  // numbers `VideoFrameType.getValue()` reports.
  const VIDEO_PIXEL_I420: int := 1
  const VIDEO_PIXEL_RGBA: int := 4
  const VIDEO_TEXTURE_2D: int := 10
  const VIDEO_TEXTURE_OES: int := 11
  const VIDEO_PIXEL_I422: int := 16

  predicate IsTextureFormat(format: int) {
    format == VIDEO_TEXTURE_OES || format == VIDEO_TEXTURE_2D
  }

  predicate IsPlanarFormat(format: int) {
    format == VIDEO_PIXEL_I420 || format == VIDEO_PIXEL_I422 || format == VIDEO_PIXEL_RGBA
  }

  /** The frame fields the plane-length switch reads. */
  datatype Geometry = Geometry(format: int, width: int, height: int,
                               yStride: int, uStride: int, vStride: int)

  /**
   * Every product the switch evaluates for the frame's own format fits a C++ `int`
   * (RGBA multiplies left to right, so `width * height` is evaluated on its own first).
   */
  predicate ProductsFitInt32(g: Geometry) {
    if g.format == VIDEO_PIXEL_I420 || g.format == VIDEO_PIXEL_I422 then
      && FitsInt32(g.yStride * g.height)
      && FitsInt32(g.uStride * g.height)
      && FitsInt32(g.vStride * g.height)
    else if g.format == VIDEO_PIXEL_RGBA then
      FitsInt32(g.width * g.height) && FitsInt32(g.width * g.height * 4)
    else
      true
  }

  datatype Plane = Y | U | V

  function Index(q: Plane): nat {
    match q
    case Y => 0
    case U => 1
    case V => 2
  }

  datatype PlaneLengths = PlaneLengths(y: int, u: int, v: int)

  function LengthOf(l: PlaneLengths, q: Plane): int {
    match q
    case Y => l.y
    case U => l.u
    case V => l.v
  }

  /**
   * The plane-length switch, with an explicit outcome for the formats it has no
   * case for (`None`: the frame is rejected). U and V of I420 are
   * `stride * height / 2`, multiplied first and then divided with truncation.
   */
  function PlaneLengthsOf(g: Geometry): (r: Option<PlaneLengths>)
    ensures r.Some? <==> IsPlanarFormat(g.format)
    ensures g.format == VIDEO_PIXEL_I420 ==>
              r == Some(PlaneLengths(g.yStride * g.height, CDiv2(g.uStride * g.height),
                                     CDiv2(g.vStride * g.height)))
    ensures g.format == VIDEO_PIXEL_I422 ==>
              r == Some(PlaneLengths(g.yStride * g.height, g.uStride * g.height,
                                     g.vStride * g.height))
    ensures g.format == VIDEO_PIXEL_RGBA ==> r == Some(PlaneLengths(g.width * g.height * 4, 0, 0))
  {
    if g.format == VIDEO_PIXEL_I420 then
      Some(PlaneLengths(g.yStride * g.height, CDiv2(g.uStride * g.height),
                        CDiv2(g.vStride * g.height)))
    else if g.format == VIDEO_PIXEL_I422 then
      Some(PlaneLengths(g.yStride * g.height, g.uStride * g.height, g.vStride * g.height))
    else if g.format == VIDEO_PIXEL_RGBA then
      Some(PlaneLengths(g.width * g.height * 4, 0, 0))
    else
      None
  }

  /**
   * The switch exactly as written: it has no `default`, so for any other format the
   * three lengths keep whatever the uninitialised locals held (`stale`).
   */
  function PlaneLengthsAsWritten(g: Geometry, stale: PlaneLengths): PlaneLengths {
    match PlaneLengthsOf(g)
    case Some(l) => l
    case None => stale
  }

  /**
   * For a format outside the table, the lengths the source goes on to use are not
   * a function of the frame at all: two different stack contents give two
   * different allocations. Where the table has a case, the corrected function
   * agrees with the source whatever the stack held.
   */
  lemma UnsupportedFormatLengthsAreStale(g: Geometry)
    ensures !IsPlanarFormat(g.format) ==>
              exists s1, s2 :: PlaneLengthsAsWritten(g, s1) != PlaneLengthsAsWritten(g, s2)
    ensures IsPlanarFormat(g.format) ==>
              forall s :: PlaneLengthsAsWritten(g, s) == PlaneLengthsOf(g).value
  {
    if !IsPlanarFormat(g.format) {
      var s1, s2 := PlaneLengths(0, 0, 0), PlaneLengths(1, 0, 0);
      assert PlaneLengthsAsWritten(g, s1) != PlaneLengthsAsWritten(g, s2);
    }
  }

  /**
   * The formats the table sizes are exactly the codes the managed `VideoFrame`
   * constructor accepts, less the two texture formats, so a frame the bridge
   * marshals never makes that constructor throw.
   */
  lemma PlaneTableAgreesWithJavaDecoder(g: Geometry)
    ensures PlaneLengthsOf(g).Some? ==> FromCode(g.format).Some? && !IsTextureFormat(g.format)
    ensures FromCode(g.format).Some? ==> PlaneLengthsOf(g).Some? || IsTextureFormat(g.format)
    ensures IsTextureFormat(g.format) ==> FromCode(g.format).Some?
  {
  }

  /**
   * I420 with one common non-negative stride: each chroma plane is half the luma
   * plane, rounded down, so both together never exceed it. I422 chroma planes
   * equal the luma plane.
   */
  lemma ChromaPlanesAgainstLuma(g: Geometry)
    requires g.yStride == g.uStride == g.vStride && g.yStride >= 0 && g.height >= 0
    ensures g.format == VIDEO_PIXEL_I420 ==>
              var l := PlaneLengthsOf(g).value;
              l.u == l.v == l.y / 2 && l.u + l.v <= l.y
    ensures g.format == VIDEO_PIXEL_I422 ==>
              var l := PlaneLengthsOf(g).value;
              l.u == l.v == l.y
  {
  }

  /** 640x480 I420 with every stride 640: 307200 luma bytes, 153600 per chroma plane. */
  lemma I420Example()
    ensures PlaneLengthsOf(Geometry(VIDEO_PIXEL_I420, 640, 480, 640, 640, 640))
            == Some(PlaneLengths(307200, 153600, 153600))
  {
  }

  /** The three native plane buffers; `None` is a null pointer. */
  datatype Planes = Planes(y: Option<seq<Byte>>, u: Option<seq<Byte>>, v: Option<seq<Byte>>)

  function Get(p: Planes, q: Plane): Option<seq<Byte>> {
    match q
    case Y => p.y
    case U => p.u
    case V => p.v
  }

  function Put(p: Planes, q: Plane, b: Option<seq<Byte>>): (r: Planes)
    ensures Get(r, q) == b
    ensures forall o :: o != q ==> Get(r, o) == Get(p, o)
  {
    match q
    case Y => p.(y := b)
    case U => p.(u := b)
    case V => p.(v := b)
  }

  /** The same planes are null, and the others have the same sizes. */
  predicate SameShape(a: Planes, b: Planes) {
    forall q :: (Get(a, q).Some? <==> Get(b, q).Some?) &&
                (Get(a, q).Some? ==> |Get(a, q).value| == |Get(b, q).value|)
  }

  /** A plane is marshalled when its pointer is non-null and its length positive. */
  predicate Present(l: PlaneLengths, p: Planes, q: Plane) {
    Get(p, q).Some? && LengthOf(l, q) > 0
  }

  /** Every plane that is marshalled holds at least its computed length. */
  predicate Covers(l: PlaneLengths, p: Planes) {
    forall q :: Present(l, p, q) ==> LengthOf(l, q) <= |Get(p, q).value|
  }

  /**
   * The plane each container comes from, in `push_back` order: present planes
   * only, in Y, U, V order, so at most three and no plane twice.
   */
  function Roles(l: PlaneLengths, p: Planes): (roles: seq<Plane>)
    ensures |roles| <= 3
    ensures forall q :: q in roles <==> Present(l, p, q)
    ensures forall i, j :: 0 <= i < j < |roles| ==> Index(roles[i]) < Index(roles[j])
  {
    (if Present(l, p, Y) then [Y] else []) +
    (if Present(l, p, U) then [U] else []) +
    (if Present(l, p, V) then [V] else [])
  }

  /**
   * The managed containers `NativeToJavaByteArray` returns: container k holds
   * the first `length` bytes of the k-th present plane.
   */
  function Containers(l: PlaneLengths, p: Planes): (cs: seq<seq<Byte>>)
    requires Covers(l, p)
    ensures |cs| == |Roles(l, p)|
    ensures forall k :: 0 <= k < |cs| ==>
              var q := Roles(l, p)[k];
              Present(l, p, q) && cs[k] == Get(p, q).value[..LengthOf(l, q)]
  {
    (if Present(l, p, Y) then [p.y.value[..l.y]] else []) +
    (if Present(l, p, U) then [p.u.value[..l.u]] else []) +
    (if Present(l, p, V) then [p.v.value[..l.v]] else [])
  }

  /** RGBA marshals at most the one Y container. */
  lemma RgbaHasAtMostOneContainer(g: Geometry, p: Planes)
    requires g.format == VIDEO_PIXEL_RGBA
    ensures Roles(PlaneLengthsOf(g).value, p) == if Present(PlaneLengthsOf(g).value, p, Y) then [Y] else []
  {
  }

  /** The present planes form a prefix of Y, U, V: no plane is missing before a present one. */
  predicate PrefixShaped(l: PlaneLengths, p: Planes) {
    (Present(l, p, U) ==> Present(l, p, Y)) && (Present(l, p, V) ==> Present(l, p, U))
  }

  /** The copy-back loop's choice of target: index 0, 1, 2 go to yBuffer, uBuffer, vBuffer. */
  function Positional(n: nat): (targets: seq<Plane>)
    requires n <= 3
    ensures |targets| == n
    ensures forall k :: 0 <= k < n ==> Index(targets[k]) == k
  {
    [Y, U, V][..n]
  }

  /** Positional routing sends every container home exactly when the planes are prefix-shaped. */
  lemma PositionalMatchesRolesIffPrefix(l: PlaneLengths, p: Planes)
    ensures Roles(l, p) == Positional(|Roles(l, p)|) <==> PrefixShaped(l, p)
  {
  }

  /** Every container k lands in a non-null buffer large enough for it. */
  predicate Fits(p: Planes, targets: seq<Plane>, cs: seq<seq<Byte>>) {
    |targets| == |cs| &&
    forall k :: 0 <= k < |cs| ==>
      Get(p, targets[k]).Some? && |cs[k]| <= |Get(p, targets[k]).value|
  }

  predicate Distinct(targets: seq<Plane>) {
    forall i, j :: 0 <= i < j < |targets| ==> targets[i] != targets[j]
  }

  /**
   * Copying containers back, one after the other, container k into plane
   * `targets[k]`; each copy replaces the start of the plane and keeps the rest.
   * The source's loop uses `Positional` targets.
   */
  function CopyBackTo(p: Planes, targets: seq<Plane>, cs: seq<seq<Byte>>): (r: Planes)
    requires Fits(p, targets, cs)
    ensures SameShape(r, p)
    decreases |cs|
  {
    if cs == [] then p
    else
      var n := |cs| - 1;
      var q := CopyBackTo(p, targets[..n], cs[..n]);
      Put(q, targets[n], Some(Overwrite(Get(q, targets[n]).value, cs[n])))
  }

  /**
   * With distinct targets, each target plane ends up as its container written over
   * its start, and a plane no container targets is left as it was.
   */
  lemma {:induction false} CopyBackToPlane(p: Planes, targets: seq<Plane>, cs: seq<seq<Byte>>, q: Plane)
    requires Fits(p, targets, cs) && Distinct(targets)
    ensures forall k :: 0 <= k < |cs| && targets[k] == q ==>
              Get(CopyBackTo(p, targets, cs), q) == Some(Overwrite(Get(p, q).value, cs[k]))
    ensures q !in targets ==> Get(CopyBackTo(p, targets, cs), q) == Get(p, q)
    decreases |cs|
  {
    if cs != [] {
      var n := |cs| - 1;
      assert Fits(p, targets[..n], cs[..n]);
      CopyBackToPlane(p, targets[..n], cs[..n], q);
      var prev := CopyBackTo(p, targets[..n], cs[..n]);
      if targets[n] == q {
        assert q !in targets[..n];
      } else {
        forall k | 0 <= k < |cs| && targets[k] == q
          ensures Get(CopyBackTo(p, targets, cs), q) == Some(Overwrite(Get(p, q).value, cs[k]))
        {
          assert k < n && targets[..n][k] == q && cs[..n][k] == cs[k];
        }
      }
    }
  }

  /**
   * Routing by role (the evident intent): when every container goes back to the
   * plane it was read from and the callback changed nothing, the planes are
   * restored byte for byte, whatever planes are present.
   */
  lemma CopyBackByRoleRestores(l: PlaneLengths, p: Planes)
    requires Covers(l, p)
    ensures Fits(p, Roles(l, p), Containers(l, p))
    ensures CopyBackTo(p, Roles(l, p), Containers(l, p)) == p
  {
    var roles, cs := Roles(l, p), Containers(l, p);
    assert Distinct(roles) by {
      forall i, j | 0 <= i < j < |roles| ensures roles[i] != roles[j] {
        assert Index(roles[i]) < Index(roles[j]);
      }
    }
    var r := CopyBackTo(p, roles, cs);
    forall q ensures Get(r, q) == Get(p, q) {
      CopyBackToPlane(p, roles, cs, q);
      if q in roles {
        var k :| 0 <= k < |roles| && roles[k] == q;
        OverwriteWithOwnPrefix(Get(p, q).value, LengthOf(l, q));
      }
    }
    assert r.y == Get(r, Y) && r.u == Get(r, U) && r.v == Get(r, V);
  }

  /**
   * The source's positional routing restores an unmodified frame whenever the
   * present planes are prefix-shaped (all three, Y and U, Y alone, or none), and
   * there it coincides with routing by role.
   */
  lemma PositionalRestoresPrefixShaped(l: PlaneLengths, p: Planes)
    requires Covers(l, p) && PrefixShaped(l, p)
    ensures Fits(p, Positional(|Containers(l, p)|), Containers(l, p))
    ensures CopyBackTo(p, Positional(|Containers(l, p)|), Containers(l, p)) == p
  {
    PositionalMatchesRolesIffPrefix(l, p);
    CopyBackByRoleRestores(l, p);
  }

  /**
   * The frame's buffers cover what it marshals, and the positional copy-back of its
   * unmodified containers writes only into non-null buffers but still changes U.
   */
  predicate CorruptsU(g: Geometry, p: Planes) {
    && PlaneLengthsOf(g).Some?
    && Covers(PlaneLengthsOf(g).value, p)
    && var cs := Containers(PlaneLengthsOf(g).value, p);
       Fits(p, Positional(|cs|), cs) && CopyBackTo(p, Positional(|cs|), cs).u != p.u
  }

  /**
   * Defect, positional routing: an I420 frame whose U plane has length 0 (U stride
   * 0) but whose V plane is present marshals [Y, V]; the loop then writes the V
   * container into the U buffer, so even a callback that changes nothing corrupts U.
   */
  lemma PositionalCopyBackMisroutesV()
    ensures exists g: Geometry, p: Planes :: CorruptsU(g, p)
  {
    var g := Geometry(VIDEO_PIXEL_I420, 2, 2, 2, 0, 2);
    var p := Planes(Some([0, 0, 0, 0]), Some([1, 1]), Some([2, 2]));
    var l := PlaneLengthsOf(g).value;
    assert l == PlaneLengths(4, 0, 2);
    assert Roles(l, p) == [Y, V];
    var cs := Containers(l, p);
    assert cs == [[0, 0, 0, 0], [2, 2]] by {
      assert cs[0] == p.y.value[..4] == [0, 0, 0, 0];
      assert cs[1] == p.v.value[..2] == [2, 2];
    }
    assert Fits(p, Positional(2), cs);
    CopyBackToPlane(p, Positional(2), cs, U);
    assert CopyBackTo(p, Positional(2), cs).u == Some(Overwrite([1, 1], [2, 2]));
    assert Overwrite([1, 1], [2, 2])[0] == 2 != p.u.value[0];
    assert CorruptsU(g, p);
  }

  /**
   * The frame's buffers cover what it marshals, yet the positional copy-back sends
   * its second container to a null U pointer.
   */
  predicate WritesThroughNullU(g: Geometry, p: Planes) {
    && PlaneLengthsOf(g).Some?
    && Covers(PlaneLengthsOf(g).value, p)
    && var cs := Containers(PlaneLengthsOf(g).value, p);
       |cs| == 2 && Get(p, Positional(|cs|)[1]) == None
  }

  /**
   * Defect, positional routing: with a null U pointer and Y and V present, the
   * loop's target for the V container is the null U pointer.
   */
  lemma PositionalCopyBackHitsNullU()
    ensures exists g: Geometry, p: Planes :: WritesThroughNullU(g, p)
  {
    var g := Geometry(VIDEO_PIXEL_I422, 1, 1, 1, 1, 1);
    var p := Planes(Some([0]), None, Some([2]));
    var l := PlaneLengthsOf(g).value;
    assert l == PlaneLengths(1, 1, 1);
    assert Roles(l, p) == [Y, V];
    assert Positional(2)[1] == U;
    assert WritesThroughNullU(g, p);
  }
}
